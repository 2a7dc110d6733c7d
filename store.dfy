/** The messages table as the hub uses it: rows keyed by the serial id the INSERT
    returns, and the two UPDATE statements the hub issues against it. */
module Store {
  import opened Common
  import opened Models

  /** One row of `messages`. User ids are the integers `int.Parse` produced; the
      status column holds the enum's integer. */
  datatype Row = Row(
    content: string,
    senderId: int,
    receiverId: Option<int>,
    timestamp: Time,
    status: int,
    deliveredAt: Option<Time>,
    readAt: Option<Time>)

  type Rows = map<int, Row>

  /** The row the INSERT in SendMessage writes: status Sent, both timestamps NULL. */
  function NewRow(content: string, sender: int, receiver: Option<int>, now: Time): (r: Row)
    ensures WellFormed(r)
    ensures StatusOf(r.status) == Some(Sent) && r.deliveredAt.None? && r.readAt.None?
    ensures r.content == content && r.senderId == sender && r.receiverId == receiver && r.timestamp == now
  {
    Row(content, sender, receiver, now, Sent.Code(), None, None)
  }

  /** `UPDATE messages SET status = s, delivered_at = CASE WHEN s >= 1 THEN now
      ELSE delivered_at END WHERE id = id`. */
  function SetStatus(rows: Rows, id: int, s: MessageStatus, now: Time): (r: Rows)
    ensures r.Keys == rows.Keys
    ensures forall k | k in rows && k != id :: r[k] == rows[k]
    ensures id in rows ==>
              && StatusOf(r[id].status) == Some(s)
              && r[id].deliveredAt == (if s == Sent then rows[id].deliveredAt else Some(now))
              && r[id] == rows[id].(status := r[id].status, deliveredAt := r[id].deliveredAt)
  {
    if id in rows then
      rows[id := rows[id].(status := s.Code(),
                           deliveredAt := if s.Code() >= 1 then Some(now) else rows[id].deliveredAt)]
    else rows
  }

  /** `UPDATE messages SET status = Read, read_at = now WHERE id = id AND receiver_id = reader`. */
  function MarkRead(rows: Rows, id: int, reader: int, now: Time): (r: Rows)
    ensures r.Keys == rows.Keys
    ensures forall k | k in rows && k != id :: r[k] == rows[k]
    ensures id in rows && rows[id].receiverId == Some(reader) ==>
              && StatusOf(r[id].status) == Some(Read)
              && r[id].readAt == Some(now)
              && r[id] == rows[id].(status := r[id].status, readAt := r[id].readAt)
    ensures !(id in rows && rows[id].receiverId == Some(reader)) ==> r == rows
  {
    if id in rows && rows[id].receiverId == Some(reader) then
      rows[id := rows[id].(status := Read.Code(), readAt := Some(now))]
    else rows
  }

  /** What every row the hub writes satisfies: the status is one of the enum's values,
      a Sent row has neither timestamp, a Delivered row has deliveredAt and no readAt,
      readAt is set exactly on Read rows, and a broadcast row (no receiver) stays Sent. */
  predicate WellFormed(row: Row)
  {
    && StatusOf(row.status).Some?
    && (row.status == Sent.Code() ==> row.deliveredAt.None?)
    && (row.status == Delivered.Code() ==> row.deliveredAt.Some?)
    && (row.readAt.Some? <==> row.status == Read.Code())
    && (row.receiverId.None? ==> row.status == Sent.Code())
  }

  predicate AllWellFormed(rows: Rows)
  {
    forall id | id in rows :: WellFormed(rows[id])
  }

  /** `after` is a later state of the table than `before`: no row disappears, no row's
      content, participants or timestamp changes, and no row's status goes down. */
  predicate Advances(before: Rows, after: Rows)
  {
    forall id | id in before ::
      && id in after
      && after[id].content == before[id].content
      && after[id].senderId == before[id].senderId
      && after[id].receiverId == before[id].receiverId
      && after[id].timestamp == before[id].timestamp
      && before[id].status <= after[id].status
  }

  /** Advancing is transitive: two successive hub steps advance the table they started from. */
  lemma AdvancesTransitive(a: Rows, b: Rows, c: Rows)
    requires Advances(a, b) && Advances(b, c)
    ensures Advances(a, c)
  {
  }

  /** Inserting a fresh row under an unused id keeps the table well formed and only
      adds to it. */
  lemma InsertAdvances(rows: Rows, id: int, content: string, sender: int, receiver: Option<int>, now: Time)
    requires AllWellFormed(rows) && id !in rows
    ensures AllWellFormed(rows[id := NewRow(content, sender, receiver, now)])
    ensures Advances(rows, rows[id := NewRow(content, sender, receiver, now)])
  {
  }

  /** Delivering a freshly inserted direct row: it becomes Delivered with deliveredAt
      set, stays well formed, and its status only goes up. */
  lemma DeliverFreshRow(rows: Rows, id: int, content: string, sender: int, receiver: int, now: Time)
    requires AllWellFormed(rows) && id !in rows
    ensures var inserted := rows[id := NewRow(content, sender, Some(receiver), now)];
            var delivered := SetStatus(inserted, id, Delivered, now);
            && delivered[id].status == Delivered.Code()
            && delivered[id].deliveredAt == Some(now)
            && delivered[id].readAt == None
            && AllWellFormed(delivered)
            && Advances(rows, delivered)
            && Advances(inserted, delivered)
  {
  }

  /** The status update the hub issues, Delivered on a direct row that is still Sent,
      keeps the table well formed and lowers no status. */
  lemma DeliverAdvances(rows: Rows, id: int, now: Time)
    requires AllWellFormed(rows)
    requires id in rows && rows[id].receiverId.Some? && rows[id].status == Sent.Code()
    ensures AllWellFormed(SetStatus(rows, id, Delivered, now))
    ensures Advances(rows, SetStatus(rows, id, Delivered, now))
  {
  }

  /** Marking as read keeps the table well formed and never lowers a status, since Read
      is the greatest status. A broadcast row is never marked. */
  lemma MarkReadAdvances(rows: Rows, id: int, reader: int, now: Time)
    requires AllWellFormed(rows)
    ensures AllWellFormed(MarkRead(rows, id, reader, now))
    ensures Advances(rows, MarkRead(rows, id, reader, now))
  {
  }

  /** A second read by the receiver leaves the status as it was and only moves readAt
      to the later instant: the update is not idempotent in the table. */
  lemma MarkReadTwice(rows: Rows, id: int, reader: int, t1: Time, t2: Time)
    ensures MarkRead(MarkRead(rows, id, reader, t1), id, reader, t2) == MarkRead(rows, id, reader, t2)
  {
  }

  /** A direct row still Sent (its receiver was offline at send time) that its receiver
      marks read becomes Read with deliveredAt still NULL: "deliveredAt is set once the
      status reaches Delivered" does not hold of the table. */
  lemma ReadWithoutDelivery(rows: Rows, id: int, reader: int, now: Time)
    requires id in rows && rows[id].receiverId == Some(reader) && WellFormed(rows[id])
    requires rows[id].status == Sent.Code()
    ensures var after := MarkRead(rows, id, reader, now)[id];
            after.status == Read.Code() && after.deliveredAt == None && after.readAt == Some(now)
  {
  }
}
