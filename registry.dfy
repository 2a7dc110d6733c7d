/** The connection registry: the hub's shared dictionary from connection id to the
    user id of the claims that opened it (Hubs/ChatHub.cs, `ConnectedUsers`). A user
    may hold several connections at once. */
module Registry {

  type ConnId = string
  type UserId = string
  type Connections = map<ConnId, UserId>

  /** The connections registered for `u`: the dictionary entries whose value is `u`. */
  function ConnectionsOf(reg: Connections, u: UserId): (r: set<ConnId>)
    ensures r <= reg.Keys
    ensures forall c | c in r :: reg[c] == u
    ensures forall c | c in reg && reg[c] == u :: c in r
  {
    set c | c in reg && reg[c] == u
  }

  /** Some connection is registered for `u` (`ConnectedUsers.Values.Contains(u)`). */
  predicate IsOnline(reg: Connections, u: UserId): (b: bool)
    ensures b <==> exists c | c in reg :: reg[c] == u
  {
    u in reg.Values
  }

  /** `TryAdd(c, u)`: registers `c` for `u` unless `c` is already a key, in which case
      the existing entry is kept; no other entry changes. */
  function TryAdd(reg: Connections, c: ConnId, u: UserId): (r: Connections)
    ensures r.Keys == reg.Keys + {c}
    ensures r[c] == if c in reg then reg[c] else u
    ensures forall k | k in reg :: r[k] == reg[k]
  {
    if c in reg then reg else reg[c := u]
  }

  /** `TryRemove(c)`: drops the entry of `c`, whoever it belongs to, if there is one;
      no other entry changes. */
  function TryRemove(reg: Connections, c: ConnId): (r: Connections)
    ensures r.Keys == reg.Keys - {c}
    ensures forall k | k in r :: r[k] == reg[k]
  {
    reg - {c}
  }

  /** A user is online exactly when the registry holds a connection for them. */
  lemma OnlineIffConnected(reg: Connections, u: UserId)
    ensures IsOnline(reg, u) <==> ConnectionsOf(reg, u) != {}
  {
    if IsOnline(reg, u) {
      var c :| c in reg && reg[c] == u;
      assert c in ConnectionsOf(reg, u);
    }
  }

  /** Attaching adds `c` to the connections of its user, and only when `c` was new. */
  lemma ConnectionsAfterAdd(reg: Connections, c: ConnId, u: UserId, v: UserId)
    ensures ConnectionsOf(TryAdd(reg, c, u), v)
         == if c !in reg && v == u then ConnectionsOf(reg, v) + {c} else ConnectionsOf(reg, v)
  {
  }

  /** Detaching takes `c` out of the connections of every user and changes nothing else. */
  lemma ConnectionsAfterRemove(reg: Connections, c: ConnId, v: UserId)
    ensures ConnectionsOf(TryRemove(reg, c), v) == ConnectionsOf(reg, v) - {c}
  {
  }

  /** After an attach, a user is online when they were before, or when they are the
      attaching user and the connection id was new. */
  lemma OnlineAfterAdd(reg: Connections, c: ConnId, u: UserId, v: UserId)
    ensures IsOnline(TryAdd(reg, c, u), v) <==> IsOnline(reg, v) || (c !in reg && v == u)
  {
  }

  /** After a detach, a user is online exactly when they hold a connection other than `c`. */
  lemma OnlineAfterRemove(reg: Connections, c: ConnId, v: UserId)
    ensures IsOnline(TryRemove(reg, c), v) <==> ConnectionsOf(reg, v) - {c} != {}
  {
  }
}
