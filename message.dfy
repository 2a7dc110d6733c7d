/** The message record and its delivery status (Models/Message.cs). */
module Models {
  import opened Common

  /** An instant of the hub's clock (`DateTime` in UTC). Only its identity matters here. */
  type Time = int

  /** `default(DateTime)`, the value a record field holds until it is assigned. */
  const MinTime: Time := 0

  /** Single tick, double grey tick, double blue tick. */
  datatype MessageStatus = Sent | Delivered | Read
  {
    /** The integer the enum stands for, which is what the status column stores. */
    function Code(): (n: int)
      ensures 0 <= n <= 2
      ensures n == 0 <==> this == Sent
      ensures n == 2 <==> this == Read
    {
      match this
      case Sent => 0
      case Delivered => 1
      case Read => 2
    }
  }

  /** The enum value stored as `code`, if there is one. */
  function StatusOf(code: int): (s: Option<MessageStatus>)
    ensures s.Some? <==> 0 <= code <= 2
    ensures s.Some? ==> s.value.Code() == code
  {
    if code == 0 then Some(Sent)
    else if code == 1 then Some(Delivered)
    else if code == 2 then Some(Read)
    else None
  }

  /** The order of the enum: Sent before Delivered before Read. */
  predicate AtMost(a: MessageStatus, b: MessageStatus)
  {
    a.Code() <= b.Code()
  }

  /** Storing a status and reading it back gives the same status. */
  lemma StatusCodeRoundTrip(s: MessageStatus)
    ensures StatusOf(s.Code()) == Some(s)
  {
  }

  /** The statuses are totally ordered and Read is the greatest. */
  lemma StatusTotalOrder(a: MessageStatus, b: MessageStatus, c: MessageStatus)
    ensures AtMost(a, a)
    ensures AtMost(a, b) && AtMost(b, a) ==> a == b
    ensures AtMost(a, b) && AtMost(b, c) ==> AtMost(a, c)
    ensures AtMost(a, b) || AtMost(b, a)
    ensures AtMost(Sent, a) && AtMost(a, Read)
  {
  }

  /** The message record as the client sends it and the hub pushes it. */
  datatype Message = Message(
    id: int,
    content: string,
    senderId: string,
    receiverId: Option<string>,
    timestamp: Time,
    senderName: Option<string>,
    isPrivate: bool,
    status: MessageStatus,
    deliveredAt: Option<Time>,
    readAt: Option<Time>)

  /** A record built with only its required member set: every other property keeps its
      initialiser or the default of its type. */
  function NewMessage(senderId: string): (m: Message)
    ensures m.senderId == senderId
    ensures m.status == Sent && m.deliveredAt == None && m.readAt == None
    ensures m.content == "" && m.receiverId == None
    ensures m.id == 0 && m.timestamp == MinTime && m.senderName == None && !m.isPrivate
  {
    Message(0, "", senderId, None, MinTime, None, false, Sent, None, None)
  }

  /** A message with a non-empty receiver id is direct; an absent or empty one means broadcast. */
  predicate IsDirect(m: Message): (b: bool)
    ensures m.receiverId == None ==> !b
    ensures m.receiverId == Some("") ==> !b
    ensures b <==> m.receiverId.Some? && |m.receiverId.value| > 0
  {
    HasText(m.receiverId)
  }
}
