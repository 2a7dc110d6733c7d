/** The presence roster pushed after every attach and detach: one entry per row of the
    users table, in the order the query returns them, tagged online or offline from
    the registry. */
module Presence {
  import opened Ids
  import opened Registry

  /** A row of `SELECT id, username FROM users`. */
  datatype User = User(id: int, username: string)

  /** One roster entry; the id is the table's integer as a string. */
  datatype PresenceEntry = PresenceEntry(id: string, username: string, isOnline: bool)

  /** The entry for one table user: its formatted id and name, online exactly when the
      registry holds a connection for that id. */
  function Entry(u: User, reg: Connections): (e: PresenceEntry)
    ensures e.id == FormatInt(u.id) && e.username == u.username
    ensures e.isOnline <==> ConnectionsOf(reg, e.id) != {}
  {
    var id := FormatInt(u.id);
    OnlineIffConnected(reg, id);
    PresenceEntry(id, u.username, IsOnline(reg, id))
  }

  /** The roster for a directory and a registry: entry `i` describes table user `i`. */
  function Roster(directory: seq<User>, reg: Connections): (r: seq<PresenceEntry>)
    ensures |r| == |directory|
    ensures forall i | 0 <= i < |r| ::
              && r[i].id == FormatInt(directory[i].id)
              && r[i].username == directory[i].username
              && (r[i].isOnline <==> ConnectionsOf(reg, r[i].id) != {})
  {
    seq(|directory|, i requires 0 <= i < |directory| => Entry(directory[i], reg))
  }

  /** The loop over the query's reader that builds the roster. */
  method BuildRoster(directory: seq<User>, reg: Connections) returns (users: seq<PresenceEntry>)
    ensures users == Roster(directory, reg)
  {
    users := [];
    var i := 0;
    while i < |directory|
      invariant 0 <= i <= |directory|
      invariant |users| == i
      invariant forall k | 0 <= k < i :: users[k] == Entry(directory[k], reg)
    {
      var id := FormatInt(directory[i].id);
      users := users + [PresenceEntry(id, directory[i].username, id in reg.Values)];
      i := i + 1;
    }
  }

  /** When the table's ids are distinct, each user appears in exactly one roster entry,
      however many connections they hold. */
  lemma RosterListsUserOnce(directory: seq<User>, reg: Connections, i: int, j: int)
    requires forall a, b | 0 <= a < b < |directory| :: directory[a].id != directory[b].id
    requires 0 <= i < |directory| && 0 <= j < |directory|
    requires Roster(directory, reg)[i].id == Roster(directory, reg)[j].id
    ensures i == j
  {
    FormatIntInjective(directory[i].id, directory[j].id);
  }

  /** The roster after an attach: an entry turns online exactly when it is the attaching
      user and the connection id was new; no entry turns offline. */
  lemma RosterAfterAttach(directory: seq<User>, reg: Connections, c: ConnId, u: UserId, i: int)
    requires 0 <= i < |directory|
    ensures Roster(directory, TryAdd(reg, c, u))[i].isOnline
        <==> Roster(directory, reg)[i].isOnline || (c !in reg && FormatInt(directory[i].id) == u)
  {
  }

  /** The roster after a detach: an entry stays online exactly when its user holds a
      connection other than the one that left. */
  lemma RosterAfterDetach(directory: seq<User>, reg: Connections, c: ConnId, i: int)
    requires 0 <= i < |directory|
    ensures Roster(directory, TryRemove(reg, c))[i].isOnline
        <==> ConnectionsOf(reg, FormatInt(directory[i].id)) - {c} != {}
  {
  }

  /** A user already attached on `c1` attaches a second connection `c2`, then `c1`
      detaches: both rosters show the user online. */
  lemma SecondConnectionKeepsUserOnline(directory: seq<User>, reg: Connections, c1: ConnId, c2: ConnId, i: int)
    requires 0 <= i < |directory|
    requires c1 in reg && reg[c1] == FormatInt(directory[i].id)
    requires c2 !in reg
    ensures var both := TryAdd(reg, c2, reg[c1]);
            Roster(directory, both)[i].isOnline && Roster(directory, TryRemove(both, c1))[i].isOnline
  {
  }
}
