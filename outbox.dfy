/** What the hub hands to the transport: one record per `SendAsync` call, naming the
    clients it addresses and the client method invoked with its argument. */
module Outbox {
  import opened Models
  import opened Registry
  import opened Presence

  /** `Clients.Client(c)`, `Clients.All`, or `Clients.Others` (everyone but the caller). */
  datatype Target = Client(conn: ConnId) | All | Others(caller: ConnId)

  /** A call-signalling payload (SDP offer or answer, ICE candidate), relayed untouched. */
  datatype Signal = Signal(json: string)

  /** The client method invoked, with its argument. */
  datatype Event =
    | ReceiveMessage(message: Message)
    | UpdateOnlineUsers(users: seq<PresenceEntry>)
    | MessageStatusUpdated(messageId: int, status: MessageStatus, readAt: Time)
    | ReceiveCallOffer(callerId: string, callerName: string, isVideo: bool)
    | ReceiveCallSignal(senderId: string, signal: Signal)
    | CallAnswered(receiverId: string, receiverName: string, accepted: bool)
    | CallEnded(enderId: string)
    | UserTyping(username: string)
    | UserJoined(username: string)
    | UserLeft(username: string)

  datatype Push = Push(target: Target, event: Event)

  /** `ps` sends `event` once to each connection in `targets` and to nothing else. */
  ghost predicate IsFanOut(ps: seq<Push>, targets: set<ConnId>, event: Event)
  {
    && |ps| == |targets|
    && (forall i | 0 <= i < |ps| :: ps[i].event == event && ps[i].target.Client? && ps[i].target.conn in targets)
    && (forall i, j | 0 <= i < j < |ps| :: ps[i].target != ps[j].target)
    && (forall c | c in targets :: exists i | 0 <= i < |ps| :: ps[i].target == Client(c))
  }

  /** `after` is `before` followed by one fan-out of `event` to `targets`. */
  ghost predicate AppendsFanOut(before: seq<Push>, after: seq<Push>, targets: set<ConnId>, event: Event)
  {
    |before| <= |after| && after[..|before|] == before && IsFanOut(after[|before|..], targets, event)
  }

  /** `after` is `before` followed by a fan-out of `event` to `first`, then another to `second`. */
  ghost predicate AppendsTwoFanOuts(before: seq<Push>, after: seq<Push>, first: set<ConnId>, second: set<ConnId>, event: Event)
  {
    && |after| == |before| + |first| + |second|
    && after[..|before|] == before
    && IsFanOut(after[|before|..|before| + |first|], first, event)
    && IsFanOut(after[|before| + |first|..], second, event)
  }

  /** The `foreach (var connectionId in connections) SendAsync(...)` loop. The order is
      the enumeration order of the connection list, which the model leaves open. */
  method FanOut(targets: set<ConnId>, event: Event) returns (ps: seq<Push>)
    ensures IsFanOut(ps, targets, event)
  {
    ps := [];
    var left := targets;
    while left != {}
      invariant left <= targets
      invariant |ps| + |left| == |targets|
      invariant forall i | 0 <= i < |ps| :: ps[i].event == event && ps[i].target.Client? && ps[i].target.conn in targets - left
      invariant forall i, j | 0 <= i < j < |ps| :: ps[i].target != ps[j].target
      invariant forall c | c in targets - left :: exists i | 0 <= i < |ps| :: ps[i].target == Client(c)
      decreases left
    {
      var c :| c in left;
      var before := ps;
      ps := ps + [Push(Client(c), event)];
      left := left - {c};
      forall d | d in targets - left
        ensures exists i | 0 <= i < |ps| :: ps[i].target == Client(d)
      {
        if d == c {
          assert ps[|ps| - 1].target == Client(d);
        } else {
          var i :| 0 <= i < |before| && before[i].target == Client(d);
          assert ps[i] == before[i];
        }
      }
    }
    assert targets - left == targets;
  }

  /** Two fan-outs appended one after the other. */
  lemma ChainFanOuts(a: seq<Push>, b: seq<Push>, c: seq<Push>, first: set<ConnId>, second: set<ConnId>, event: Event)
    requires AppendsFanOut(a, b, first, event) && AppendsFanOut(b, c, second, event)
    ensures AppendsTwoFanOuts(a, c, first, second, event)
  {
  }

  /** How many pushes in `ps` address connection `c` directly. */
  function PushesTo(ps: seq<Push>, c: ConnId): nat
  {
    if ps == [] then 0
    else PushesTo(ps[..|ps| - 1], c) + (if ps[|ps| - 1].target == Client(c) then 1 else 0)
  }

  lemma {:induction false} PushesToConcat(a: seq<Push>, b: seq<Push>, c: ConnId)
    ensures PushesTo(a + b, c) == PushesTo(a, c) + PushesTo(b, c)
  {
    if b != [] {
      assert (a + b)[..|a + b| - 1] == a + b[..|b| - 1];
      PushesToConcat(a, b[..|b| - 1], c);
    } else {
      assert a + b == a;
    }
  }

  /** In a push sequence with pairwise distinct targets, a connection is addressed at
      most once. */
  lemma {:induction false} DistinctTargetsCount(ps: seq<Push>, c: ConnId)
    requires forall i, j | 0 <= i < j < |ps| :: ps[i].target != ps[j].target
    ensures PushesTo(ps, c) == if exists i | 0 <= i < |ps| :: ps[i].target == Client(c) then 1 else 0
  {
    if ps != [] {
      var init := ps[..|ps| - 1];
      DistinctTargetsCount(init, c);
      if ps[|ps| - 1].target == Client(c) {
        assert !exists i | 0 <= i < |init| :: init[i].target == Client(c);
      } else {
        if exists i | 0 <= i < |ps| :: ps[i].target == Client(c) {
          var i :| 0 <= i < |ps| && ps[i].target == Client(c);
          assert init[i].target == Client(c);
        }
      }
    }
  }

  /** A fan-out reaches each target connection exactly once and no other connection. */
  lemma FanOutReachesEachOnce(ps: seq<Push>, targets: set<ConnId>, event: Event, c: ConnId)
    requires IsFanOut(ps, targets, event)
    ensures PushesTo(ps, c) == if c in targets then 1 else 0
  {
    DistinctTargetsCount(ps, c);
  }

  /** A direct message is pushed once to each receiver connection and once to each sender
      connection, so a connection that is both (a message to oneself) gets it twice. */
  lemma DirectDeliveryCount(before: seq<Push>, after: seq<Push>, receivers: set<ConnId>, senders: set<ConnId>, event: Event, c: ConnId)
    requires AppendsTwoFanOuts(before, after, receivers, senders, event)
    ensures PushesTo(after[|before|..], c) == (if c in receivers then 1 else 0) + (if c in senders then 1 else 0)
  {
    var mid := |before| + |receivers|;
    var sent := after[|before|..];
    assert sent == after[|before|..mid] + after[mid..];
    PushesToConcat(after[|before|..mid], after[mid..], c);
    FanOutReachesEachOnce(after[|before|..mid], receivers, event, c);
    FanOutReachesEachOnce(after[mid..], senders, event, c);
  }
}
