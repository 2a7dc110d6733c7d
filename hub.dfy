/** The realtime hub (Hubs/ChatHub.cs) as a sequential state machine: each hub method
    is one atomic step over the connection registry, the messages table, the users
    table and the record of pushes handed to the transport. */
module Hub {
  import opened Common
  import opened Ids
  import opened Models
  import opened Registry
  import opened Store
  import opened Presence
  import opened Outbox

  /** Who is calling: the connection the call arrived on, and the NameIdentifier and
      Name claims of its authenticated user (either may be missing). */
  datatype Caller = Caller(connectionId: ConnId, userId: Option<string>, userName: Option<string>)

  /** The sender and receiver ids the INSERT binds: `int.Parse(SenderId)`, and
      `int.Parse(ReceiverId)` for a direct message or NULL for a broadcast. None when
      either parse throws. */
  function Participants(m: Message): (p: Option<(int, Option<int>)>)
    ensures p.Some? <==> ParseInt32(m.senderId).Some? && (IsDirect(m) ==> ParseInt32(m.receiverId.value).Some?)
    ensures p.Some? ==> p.value.0 == ParseInt32(m.senderId).value
    ensures p.Some? ==> (p.value.1.Some? <==> IsDirect(m))
  {
    var sender := ParseInt32(m.senderId);
    if sender.None? then None
    else if IsDirect(m) then
      var receiver := ParseInt32(m.receiverId.value);
      if receiver.None? then None else Some((sender.value, Some(receiver.value)))
    else Some((sender.value, None))
  }

  /** The message after the INSERT: status Sent, the id the table returned, the insert time. */
  function Persisted(m: Message, id: int, now: Time): (r: Message)
    ensures r.id == id && r.status == Sent && r.timestamp == now
    ensures r.(id := m.id, status := m.status, timestamp := m.timestamp) == m
    ensures IsDirect(r) == IsDirect(m) && Participants(r) == Participants(m)
  {
    m.(id := id, status := Sent, timestamp := now)
  }

  class ChatHub {
    /** `ConnectedUsers`: connection id to user id. */
    var connected: Connections
    /** The messages table. */
    var rows: Rows
    /** The id the next INSERT returns (the table's serial). */
    var nextId: int
    /** The users table, which the hub only reads. */
    const directory: seq<User>
    /** Every push handed to the transport so far, oldest first. */
    var outbox: seq<Push>

    /** Every row was inserted under an id below `nextId` and is well formed. */
    ghost predicate Valid()
      reads this`rows, this`nextId
    {
      && nextId >= 1
      && (forall id | id in rows :: 1 <= id < nextId)
      && AllWellFormed(rows)
    }

    constructor (directory: seq<User>)
      ensures Valid()
      ensures this.directory == directory
      ensures connected == map[] && rows == map[] && nextId == 1 && outbox == []
    {
      this.directory := directory;
      connected := map[];
      rows := map[];
      nextId := 1;
      outbox := [];
    }

    /** `foreach (var connectionId in targets) Clients.Client(connectionId).SendAsync(event)`. */
    method SendToEach(targets: set<ConnId>, event: Event)
      modifies this`outbox
      ensures AppendsFanOut(old(outbox), outbox, targets, event)
    {
      var ps := FanOut(targets, event);
      outbox := outbox + ps;
      assert outbox[..|old(outbox)|] == old(outbox);
      assert outbox[|old(outbox)|..] == ps;
    }

    /** OnConnectedAsync: a caller with a user id registers its connection (an existing
        entry for the connection id is kept) and the roster is pushed to everyone. A
        failed users query fails the call after the connection was registered. */
    method OnConnectedAsync(caller: Caller, directoryFails: bool) returns (r: Result<()>)
      modifies this`connected, this`outbox
      ensures connected == if HasText(caller.userId)
                           then TryAdd(old(connected), caller.connectionId, caller.userId.value)
                           else old(connected)
      ensures HasText(caller.userId) && !directoryFails ==>
                outbox == old(outbox) + [Push(All, UpdateOnlineUsers(Roster(directory, connected)))]
      ensures !HasText(caller.userId) || directoryFails ==> outbox == old(outbox)
      ensures r.Error? <==> HasText(caller.userId) && directoryFails
    {
      if HasText(caller.userId) {
        connected := TryAdd(connected, caller.connectionId, caller.userId.value);
        if directoryFails {
          return Error;
        }
        var users := BuildRoster(directory, connected);
        outbox := outbox + [Push(All, UpdateOnlineUsers(users))];
      }
      return Ok(());
    }

    /** OnDisconnectedAsync: a caller with a user id drops its connection's entry and the
        roster is pushed to everyone. A failed users query fails the call after the
        entry was removed. */
    method OnDisconnectedAsync(caller: Caller, directoryFails: bool) returns (r: Result<()>)
      modifies this`connected, this`outbox
      ensures connected == if HasText(caller.userId)
                           then TryRemove(old(connected), caller.connectionId)
                           else old(connected)
      ensures HasText(caller.userId) && !directoryFails ==>
                outbox == old(outbox) + [Push(All, UpdateOnlineUsers(Roster(directory, connected)))]
      ensures !HasText(caller.userId) || directoryFails ==> outbox == old(outbox)
      ensures r.Error? <==> HasText(caller.userId) && directoryFails
    {
      if HasText(caller.userId) {
        connected := TryRemove(connected, caller.connectionId);
        if directoryFails {
          return Error;
        }
        var users := BuildRoster(directory, connected);
        outbox := outbox + [Push(All, UpdateOnlineUsers(users))];
      }
      return Ok(());
    }

    /** UpdateMessageStatus: the status UPDATE, which also stamps delivered_at for a
        status of Delivered or above. A failure propagates to the caller. The helper is
        private; its one caller, SendMessage, asks for Delivered on the direct row it
        has just inserted as Sent, and that is what it requires here. */
    method UpdateMessageStatus(messageId: int, status: MessageStatus, now: Time, fails: bool) returns (r: Result<()>)
      requires Valid()
      requires messageId in rows && rows[messageId].receiverId.Some? && rows[messageId].status == Sent.Code()
      requires status == Delivered
      modifies this`rows
      ensures Valid() && Advances(old(rows), rows)
      ensures r.Error? <==> fails
      ensures rows == if fails then old(rows) else SetStatus(old(rows), messageId, status, now)
    {
      if fails {
        return Error;
      }
      DeliverAdvances(rows, messageId, now);
      rows := SetStatus(rows, messageId, status, now);
      return Ok(());
    }

    /** SendMessage. The sender is whoever the payload names; the connection the call
        came from plays no part. */
    method SendMessage(message: Message, now: Time, insertFails: bool, updateFails: bool) returns (r: Result<Message>)
      requires Valid()
      modifies this`rows, this`nextId, this`outbox
      ensures Valid() && Advances(old(rows), rows)
      // Empty content is refused before any I/O; a failed parse or INSERT fails the
      // send with nothing written and nothing pushed.
      ensures message.content == "" || Participants(message).None? || insertFails ==>
                r.Error? && rows == old(rows) && nextId == old(nextId) && outbox == old(outbox)
      // Otherwise the row is inserted as Sent under a fresh id before anything is pushed.
      ensures message.content != "" && Participants(message).Some? && !insertFails ==>
                var id := old(nextId);
                var inserted := old(rows)[id := NewRow(message.content, Participants(message).value.0,
                                                       Participants(message).value.1, now)];
                var m := Persisted(message, id, now);
                var receivers := if IsDirect(message) then ConnectionsOf(connected, message.receiverId.value) else {};
                var senders := ConnectionsOf(connected, message.senderId);
                && id !in old(rows)
                && nextId == id + 1
                // A broadcast stays Sent and goes once to everyone, with no echo.
                && (!IsDirect(message) ==>
                      && r == Ok(m)
                      && rows == inserted
                      && outbox == old(outbox) + [Push(All, ReceiveMessage(m))])
                // A direct message to an offline receiver stays Sent and is echoed to the
                // sender's connections only.
                && (IsDirect(message) && receivers == {} ==>
                      && r == Ok(m)
                      && rows == inserted
                      && AppendsFanOut(old(outbox), outbox, senders, ReceiveMessage(m)))
                // An online receiver: a failed Delivered update fails the whole send, with
                // the Sent row left in place and nothing pushed.
                && (IsDirect(message) && receivers != {} && updateFails ==>
                      && r.Error?
                      && rows == inserted
                      && outbox == old(outbox))
                // Otherwise the message becomes Delivered in the table and in the payload,
                // and goes to each receiver connection, then to each sender connection.
                && (IsDirect(message) && receivers != {} && !updateFails ==>
                      var delivered := m.(status := Delivered, deliveredAt := Some(now));
                      && r == Ok(delivered)
                      && rows == SetStatus(inserted, id, Delivered, now)
                      && AppendsTwoFanOuts(old(outbox), outbox, receivers, senders, ReceiveMessage(delivered)))
    {
      if message.content == "" {
        return Error;
      }
      var m := message.(status := Sent);
      var participants := Participants(message);
      if participants.None? || insertFails {
        return Error;
      }
      var id := nextId;
      var row := NewRow(m.content, participants.value.0, participants.value.1, now);
      InsertAdvances(rows, id, m.content, participants.value.0, participants.value.1, now);
      rows := rows[id := row];
      nextId := nextId + 1;
      m := m.(id := id, timestamp := now);
      if IsDirect(m) {
        var receivers := ConnectionsOf(connected, m.receiverId.value);
        if receivers != {} {
          m := m.(status := Delivered, deliveredAt := Some(now));
          DeliverFreshRow(old(rows), id, m.content, participants.value.0, participants.value.1.value, now);
          var updated := UpdateMessageStatus(id, Delivered, now, updateFails);
          if updated.Error? {
            return Error;
          }
          var beforeReceivers := outbox;
          SendToEach(receivers, ReceiveMessage(m));
          var beforeSenders := outbox;
          SendToEach(ConnectionsOf(connected, m.senderId), ReceiveMessage(m));
          ChainFanOuts(beforeReceivers, beforeSenders, outbox, receivers, ConnectionsOf(connected, m.senderId), ReceiveMessage(m));
        } else {
          SendToEach(ConnectionsOf(connected, m.senderId), ReceiveMessage(m));
        }
      } else {
        outbox := outbox + [Push(All, ReceiveMessage(m))];
      }
      return Ok(m);
    }

    /** MarkMessageAsRead. The sender is looked up, the guarded UPDATE marks the row Read
        only if `readerId` is its receiver, and every connection of the sender is told the
        message was read whether or not the UPDATE matched. Any failure (the lookup, the
        parse of `readerId`, the UPDATE) is swallowed and ends the call. */
    method MarkMessageAsRead(messageId: int, readerId: string, now: Time, selectFails: bool, updateFails: bool)
      requires Valid()
      modifies this`rows, this`outbox
      ensures Valid() && Advances(old(rows), rows)
      ensures var reader := ParseInt32(readerId);
              var updated := !selectFails && reader.Some? && !updateFails;
              && rows == (if updated then MarkRead(old(rows), messageId, reader.value, now) else old(rows))
              && (updated && messageId in old(rows) ==>
                    AppendsFanOut(old(outbox), outbox,
                                  ConnectionsOf(connected, FormatInt(old(rows)[messageId].senderId)),
                                  MessageStatusUpdated(messageId, Read, now)))
              && (!(updated && messageId in old(rows)) ==> outbox == old(outbox))
    {
      if selectFails {
        return;
      }
      var senderId: Option<string> := if messageId in rows then Some(FormatInt(rows[messageId].senderId)) else None;
      var reader := ParseInt32(readerId);
      if reader.None? || updateFails {
        return;
      }
      MarkReadAdvances(rows, messageId, reader.value, now);
      rows := MarkRead(rows, messageId, reader.value, now);
      if HasText(senderId) {
        SendToEach(ConnectionsOf(connected, senderId.value), MessageStatusUpdated(messageId, Read, now));
      }
    }

    /** UserTyping: the caller's name (or "Someone") to every other connection. */
    method UserTyping(caller: Caller)
      modifies this`outbox
      ensures outbox == old(outbox) + [Push(Others(caller.connectionId), Outbox.UserTyping(OrElse(caller.userName, "Someone")))]
    {
      outbox := outbox + [Push(Others(caller.connectionId), Outbox.UserTyping(OrElse(caller.userName, "Someone")))];
    }

    /** JoinChat: the caller's name (or "Anonymous") to everyone. */
    method JoinChat(caller: Caller)
      modifies this`outbox
      ensures outbox == old(outbox) + [Push(All, UserJoined(OrElse(caller.userName, "Anonymous")))]
    {
      outbox := outbox + [Push(All, UserJoined(OrElse(caller.userName, "Anonymous")))];
    }

    /** LeaveChat: the caller's name (or "Anonymous") to everyone. */
    method LeaveChat(caller: Caller)
      modifies this`outbox
      ensures outbox == old(outbox) + [Push(All, UserLeft(OrElse(caller.userName, "Anonymous")))]
    {
      outbox := outbox + [Push(All, UserLeft(OrElse(caller.userName, "Anonymous")))];
    }

    /** InitiateCall: a call offer to each connection of the receiver. Fails when either
        id is missing or the receiver has no connection. */
    method InitiateCall(caller: Caller, receiverId: string, isVideo: bool) returns (r: Result<()>)
      modifies this`outbox
      ensures var callerId := OrElse(caller.userId, "");
              var targets := ConnectionsOf(connected, receiverId);
              if callerId == "" || receiverId == "" || targets == {} then
                r.Error? && outbox == old(outbox)
              else
                r.Ok? && AppendsFanOut(old(outbox), outbox, targets,
                                       ReceiveCallOffer(callerId, OrElse(caller.userName, ""), isVideo))
    {
      var callerId := OrElse(caller.userId, "");
      if callerId == "" || receiverId == "" {
        return Error;
      }
      var targets := ConnectionsOf(connected, receiverId);
      if targets == {} {
        return Error;
      }
      SendToEach(targets, ReceiveCallOffer(callerId, OrElse(caller.userName, ""), isVideo));
      return Ok(());
    }

    /** SendCallSignal: the signal, unchanged, to each connection of the receiver. Fails
        when either id is missing or the receiver has no connection. */
    method SendCallSignal(caller: Caller, receiverId: string, signal: Signal) returns (r: Result<()>)
      modifies this`outbox
      ensures var senderId := OrElse(caller.userId, "");
              var targets := ConnectionsOf(connected, receiverId);
              if senderId == "" || receiverId == "" || targets == {} then
                r.Error? && outbox == old(outbox)
              else
                r.Ok? && AppendsFanOut(old(outbox), outbox, targets, ReceiveCallSignal(senderId, signal))
    {
      var senderId := OrElse(caller.userId, "");
      if senderId == "" || receiverId == "" {
        return Error;
      }
      var targets := ConnectionsOf(connected, receiverId);
      if targets == {} {
        return Error;
      }
      SendToEach(targets, ReceiveCallSignal(senderId, signal));
      return Ok(());
    }

    /** AnswerCall: the answer to each connection of the caller being answered. Fails when
        either id is missing or that caller has no connection. */
    method AnswerCall(caller: Caller, callerId: string, accepted: bool) returns (r: Result<()>)
      modifies this`outbox
      ensures var receiverId := OrElse(caller.userId, "");
              var targets := ConnectionsOf(connected, callerId);
              if receiverId == "" || callerId == "" || targets == {} then
                r.Error? && outbox == old(outbox)
              else
                r.Ok? && AppendsFanOut(old(outbox), outbox, targets,
                                       CallAnswered(receiverId, OrElse(caller.userName, ""), accepted))
    {
      var receiverId := OrElse(caller.userId, "");
      if receiverId == "" || callerId == "" {
        return Error;
      }
      var targets := ConnectionsOf(connected, callerId);
      if targets == {} {
        return Error;
      }
      SendToEach(targets, CallAnswered(receiverId, OrElse(caller.userName, ""), accepted));
      return Ok(());
    }

    /** EndCall: the ender's id to each connection of the peer. Fails when either id is
        missing; a peer with no connection is not an error and gets nothing. */
    method EndCall(caller: Caller, userId: string) returns (r: Result<()>)
      modifies this`outbox
      ensures var enderId := OrElse(caller.userId, "");
              var targets := ConnectionsOf(connected, userId);
              if enderId == "" || userId == "" then
                r.Error? && outbox == old(outbox)
              else
                && r.Ok?
                && AppendsFanOut(old(outbox), outbox, targets, CallEnded(enderId))
                && (targets == {} ==> outbox == old(outbox))
    {
      var enderId := OrElse(caller.userId, "");
      if enderId == "" || userId == "" {
        return Error;
      }
      var targets := ConnectionsOf(connected, userId);
      if targets == {} {
        assert outbox[|outbox|..] == [];
        return Ok(());
      }
      SendToEach(targets, CallEnded(enderId));
      return Ok(());
    }
  }
}
