/** Clients of the hub: what a caller can conclude from the hub's contracts alone, for
    two users, 1 (alice) and 2 (bob). */
module Scenarios {
  import opened Common
  import opened Ids
  import opened Models
  import opened Registry
  import opened Store
  import opened Presence
  import opened Outbox
  import opened Hub

  lemma SmallIds()
    ensures ParseInt32("1") == Some(1) && ParseInt32("2") == Some(2)
    ensures FormatInt(1) == "1" && FormatInt(2) == "2"
  {
  }

  /** Alice, online on "a1", writes "hi" to bob while he is offline: the row is Sent and
      only alice's connection gets the echo. */
  method SendToOfflineReceiver(hub: ChatHub, now: Time)
    requires hub.Valid() && hub.connected == map["a1" := "1"]
    modifies hub
  {
    SmallIds();
    var hi := NewMessage("1").(content := "hi", receiverId := Some("2"));
    assert ConnectionsOf(hub.connected, "2") == {};
    assert ConnectionsOf(hub.connected, "1") == {"a1"};
    var before := hub.outbox;
    var r := hub.SendMessage(hi, now, false, false);
    assert r.Ok? && r.value.status == Sent;
    assert hub.rows[r.value.id].status == Sent.Code() && hub.rows[r.value.id].deliveredAt == None;
    FanOutReachesEachOnce(hub.outbox[|before|..], {"a1"}, ReceiveMessage(r.value), "a1");
    assert PushesTo(hub.outbox[|before|..], "a1") == 1;
  }

  /** Bob, online on "b1", attaches "b2" and then "b1" drops: both rosters show him
      online, once, and the messages table is untouched. */
  method SecondConnection(hub: ChatHub)
    requires hub.connected == map["b1" := "2"]
    requires hub.directory == [User(1, "alice"), User(2, "bob")]
    modifies hub
  {
    SmallIds();
    var rows := hub.rows;
    var bob := Caller("b2", Some("2"), Some("bob"));
    var _ := hub.OnConnectedAsync(bob, false);
    assert "b2" in ConnectionsOf(hub.connected, "2");
    assert hub.outbox[|hub.outbox| - 1].event.users[1].isOnline;
    var _ := hub.OnDisconnectedAsync(Caller("b1", Some("2"), Some("bob")), false);
    assert "b2" in ConnectionsOf(hub.connected, "2");
    assert hub.outbox[|hub.outbox| - 1].event.users[1].isOnline;
    assert hub.rows == rows;
  }

  /** Both online, alice writes "hi" to bob: the row and the payload are Delivered, and
      bob's and alice's connections each get one push. */
  method SendToOnlineReceiver(hub: ChatHub, now: Time)
    requires hub.Valid() && hub.connected == map["a1" := "1", "b1" := "2"]
    modifies hub
  {
    SmallIds();
    var hi := NewMessage("1").(content := "hi", receiverId := Some("2"));
    assert ConnectionsOf(hub.connected, "2") == {"b1"};
    assert ConnectionsOf(hub.connected, "1") == {"a1"};
    var before := hub.outbox;
    var r := hub.SendMessage(hi, now, false, false);
    assert r.Ok? && r.value.status == Delivered && r.value.deliveredAt == Some(now);
    assert hub.rows[r.value.id].status == Delivered.Code() && hub.rows[r.value.id].deliveredAt == Some(now);
    DirectDeliveryCount(before, hub.outbox, {"b1"}, {"a1"}, ReceiveMessage(r.value), "b1");
    DirectDeliveryCount(before, hub.outbox, {"b1"}, {"a1"}, ReceiveMessage(r.value), "a1");
    assert PushesTo(hub.outbox[|before|..], "b1") == 1;
    assert PushesTo(hub.outbox[|before|..], "a1") == 1;
  }

  /** Bob reads alice's message twice: the row stays Read, readAt moves to the later
      instant, and alice gets a receipt each time. */
  method ReadTwice(hub: ChatHub, id: int, now: Time, later: Time)
    requires hub.Valid() && hub.connected == map["a1" := "1", "b1" := "2"]
    requires id in hub.rows && hub.rows[id].senderId == 1 && hub.rows[id].receiverId == Some(2)
    modifies hub
  {
    SmallIds();
    assert ConnectionsOf(hub.connected, "1") == {"a1"};
    hub.MarkMessageAsRead(id, "2", now, false, false);
    assert hub.rows[id].status == Read.Code() && hub.rows[id].readAt == Some(now);
    var receipts := hub.outbox;
    hub.MarkMessageAsRead(id, "2", later, false, false);
    assert hub.rows[id].status == Read.Code() && hub.rows[id].readAt == Some(later);
    assert hub.outbox == receipts + [Push(Client("a1"), MessageStatusUpdated(id, Read, later))];
  }

  /** Alice is not the receiver of her own message: the table does not change, yet she
      still gets a read receipt. */
  method ReadByNonReceiver(hub: ChatHub, id: int, now: Time)
    requires hub.Valid() && hub.connected == map["a1" := "1", "b1" := "2"]
    requires id in hub.rows && hub.rows[id].senderId == 1 && hub.rows[id].receiverId == Some(2)
    modifies hub
  {
    SmallIds();
    assert ConnectionsOf(hub.connected, "1") == {"a1"};
    var rows := hub.rows;
    var before := hub.outbox;
    hub.MarkMessageAsRead(id, "1", now, false, false);
    assert hub.rows == rows;
    assert hub.outbox == before + [Push(Client("a1"), MessageStatusUpdated(id, Read, now))];
  }

  /** A message to oneself reaches each of one's connections twice. */
  method MessageToSelf(hub: ChatHub, now: Time)
    requires hub.Valid() && hub.connected == map["a1" := "1", "a2" := "1"]
    modifies hub
  {
    SmallIds();
    var note := NewMessage("1").(content := " ", receiverId := Some("1"));
    assert ConnectionsOf(hub.connected, "1") == {"a1", "a2"};
    var before := hub.outbox;
    var r := hub.SendMessage(note, now, false, false);
    assert r.Ok? && r.value.status == Delivered;
    DirectDeliveryCount(before, hub.outbox, {"a1", "a2"}, {"a1", "a2"}, ReceiveMessage(r.value), "a2");
    assert PushesTo(hub.outbox[|before|..], "a2") == 2;
  }

  /** Calls to an offline peer: the three relays fail, ending the call succeeds silently,
      and nothing is pushed. */
  method OfflinePeer(hub: ChatHub)
    requires hub.connected == map["a1" := "1"]
    modifies hub
  {
    var alice := Caller("a1", Some("1"), Some("alice"));
    assert ConnectionsOf(hub.connected, "2") == {};
    var before := hub.outbox;
    var offer := hub.InitiateCall(alice, "2", true);
    var signal := hub.SendCallSignal(alice, "2", Signal("{}"));
    var answer := hub.AnswerCall(alice, "2", true);
    var end := hub.EndCall(alice, "2");
    assert offer.Error? && signal.Error? && answer.Error? && end.Ok?;
    assert hub.outbox == before;
  }

  /** A send followed by a read of any message: every row of the table the two calls
      started from survives with its content and participants, and no status goes down. */
  method SendThenRead(hub: ChatHub, message: Message, messageId: int, reader: string, now: Time, later: Time)
    requires hub.Valid()
    modifies hub
  {
    var start := hub.rows;
    var _ := hub.SendMessage(message, now, false, false);
    var sent := hub.rows;
    hub.MarkMessageAsRead(messageId, reader, later, false, false);
    AdvancesTransitive(start, sent, hub.rows);
    assert forall id | id in start :: id in hub.rows && start[id].status <= hub.rows[id].status;
  }
}
