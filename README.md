# Chat hub: a verified model

This project models the realtime hub of a chat backend (`Hubs/ChatHub.cs`) and its
message record (`Models/Message.cs`) in Dafny. It treats the hub as a sequential state
machine. Each hub method is one atomic step over four pieces of state:

- the **connection registry** `connected`: the shared `ConnectedUsers` dictionary from
  connection id to the user id of the claims that opened the connection;
- the **messages table** `rows`: a map from message id to its row (content, sender,
  optional receiver, timestamp, status code, deliveredAt, readAt), plus `nextId`, which
  stands for the serial id that `INSERT … RETURNING id` hands back;
- the **users table** `directory`: the `(id, username)` rows that the roster query returns.
  The hub only reads them;
- the **outbox**: one `Push(target, event)` record per `Clients.*.SendAsync` call. The
  target is one connection, everyone, or everyone but the caller. The event is the client
  method with its argument.

The database, the transport and the clock are not modelled as services. Each database
failure is a boolean parameter of the hub method that would meet it (`insertFails`,
`updateFails`, `selectFails`, `directoryFails`). The current time is a `now` parameter.
Outcomes are `Ok(…)` or `Error`. `Error` stands for an exception escaping the call.
That is a `HubException` from the methods that wrap their failures, and the raw database
exception from `OnDisconnectedAsync` and the private `UpdateMessageStatus`.

One `ChatHub` object of the model stands for the whole running process: the static
`ConnectedUsers` registry and both tables. The runtime creates a new hub instance for
every invocation, and that instance's constructor resets none of this state. The
model's constructor is instead the start of a fresh process over an empty database.

Modules, one per concern:

- `Common`: `Option`, `Result`, and the `IsNullOrEmpty` and `??` helpers.
- `Ids`: user ids are strings in claims, in the registry and in message payloads, but
  32-bit integers in the tables. `ParseInt32` models `int.Parse` and `FormatInt` models
  `ToString()`. The round trip and injectivity of formatting are proved. Both directions
  matter: the roster and the read receipt compare formatted table ids against registry
  values.
- `Models`: the `MessageStatus` enum with its stored codes 0, 1 and 2, and the `Message`
  record with its defaults.
- `Registry`: connections of a user, online test, `TryAdd` and `TryRemove`.
- `Store`: the message row, the status `UPDATE`, the guarded read `UPDATE`, row
  well-formedness, and the "no status goes down" relation `Advances`.
- `Presence`: the roster function, the loop that builds it, and how attach and detach
  change it.
- `Outbox`: push records, the fan-out loop, and per-connection push counts.
- `Hub`: the `ChatHub` class with one method per hub method.
- `Scenarios`: client methods. They show what the contracts let a caller conclude: an
  offline receiver, an online receiver, a second connection, a repeated read, a read by
  someone other than the receiver, a message to oneself, calls to an offline peer, and
  a send followed by a read that leaves every earlier row in place with no status lowered.

Some behaviour of the code is easy to miss. The model follows the code on each point:

- Only empty content is refused. Content made only of white space is stored and pushed
  (`Scenarios.MessageToSelf` sends `" "`).
- If the Delivered status update fails, the whole send fails. The row stays in the table
  as Sent, and nothing is pushed.
- `MarkMessageAsRead` is not idempotent:
  - a second call moves `read_at` (`Store.MarkReadTwice`);
  - the sender gets a receipt on every call, including when the reader is not the
    receiver and the table is unchanged (`Scenarios.ReadTwice`,
    `Scenarios.ReadByNonReceiver`).
- A row that was still Sent when it was read becomes Read with `delivered_at` NULL. So
  "deliveredAt is set iff the status reaches Delivered" does not hold
  (`Store.ReadWithoutDelivery`). What does hold, as `Store.WellFormed`: readAt is set iff
  the status is Read, and a Delivered row has deliveredAt.
- The sender of a message is whoever the payload names. `SendMessage` never consults the
  caller's connection or claims.
- A failed users query in `OnConnectedAsync` fails the call after the connection was
  registered. In `OnDisconnectedAsync` it fails the call after the entry was removed.
  Either way only the roster push is lost.

## Model

| member | source | states |
|---|---|---|
| `Ids.ParseInt32` | Hubs/ChatHub.cs:44-48 | `int.Parse` yields a value only inside the 32-bit range; any other text throws |
| `Ids.FormatNat` | Hubs/ChatHub.cs:148 | the decimal form of a non-negative id is non-empty, all digits, and starts with '0' only for 0 |
| `Ids.FormatInt` | Hubs/ChatHub.cs:148 | `ToString()` of an id is non-empty, starts with '-' exactly for negative ids, is digits after the sign, and has no leading zero unless the id is 0 |
| `Ids.ParseFormatRoundTrip` | Hubs/ChatHub.cs:148-150 | parsing the string form of any 32-bit id gives the id back |
| `Ids.FormatIntInjective` | Hubs/ChatHub.cs:148-150 | distinct table ids have distinct string forms, so the online test on the string form tells users apart |
| `Ids.ParseAcceptsNonCanonical` | Hubs/ChatHub.cs:44 | `int.Parse` accepts "07", " 7" and "+7" as 7, while 7 formats as "7": a payload id and its stored integer need not name the same registry value |
| `Models.MessageStatus.Code` | Models/Message.cs:17-22 | the stored codes are 0, 1, 2; 0 exactly for Sent, 2 exactly for Read |
| `Models.StatusOf` | Models/Message.cs:17-22 | a stored code names a status exactly when it is 0, 1 or 2, and then that status's code is the code |
| `Models.StatusCodeRoundTrip` | Models/Message.cs:17-22 | storing a status and reading its code back gives the same status |
| `Models.StatusTotalOrder` | Models/Message.cs:17-22 | Sent < Delivered < Read is a total order with Sent least and Read greatest |
| `Models.IsDirect` | Hubs/ChatHub.cs:46 | a message is direct exactly when its receiver id is present and non-empty; an absent receiver id or "" means broadcast |
| `Models.NewMessage` | Models/Message.cs:3-15 | a new record has status Sent, no deliveredAt, no readAt, empty content and no receiver |
| `Registry.ConnectionsOf` | Hubs/ChatHub.cs:64-67 | the connections selected for a user are registry keys, every one maps to that user, and every key mapping to that user is selected |
| `Registry.IsOnline` | Hubs/ChatHub.cs:150 | `Values.Contains(u)` holds exactly when some key of the registry maps to `u` |
| `Registry.TryAdd` | Hubs/ChatHub.cs:131 | attach adds only the key `c`, an existing entry for `c` is not overwritten, and every other entry is unchanged |
| `Registry.TryRemove` | Hubs/ChatHub.cs:178 | detach removes exactly the key `c`, a no-op if it is unknown, and every other entry is unchanged |
| `Registry.OnlineIffConnected` | Hubs/ChatHub.cs:150 | `Values.Contains(u)` holds iff the connections of `u` are non-empty |
| `Registry.ConnectionsAfterAdd` | Hubs/ChatHub.cs:129-131 | attach adds `c` to its user's connections iff `c` was new, and changes no other user's connections |
| `Registry.ConnectionsAfterRemove` | Hubs/ChatHub.cs:176-178 | detach removes `c` from every user's connections and changes nothing else |
| `Registry.OnlineAfterAdd` | Hubs/ChatHub.cs:131 | after attach a user is online iff they were, or they are the attaching user with a new connection id |
| `Registry.OnlineAfterRemove` | Hubs/ChatHub.cs:178 | after detach a user is online iff they hold a connection other than the detached one |
| `Store.NewRow` | Hubs/ChatHub.cs:36-50 | the inserted row carries the message's content, parsed ids and timestamp, has status Sent with both timestamps NULL, and is well formed |
| `Store.SetStatus` | Hubs/ChatHub.cs:312-316 | the status update touches only the addressed row, sets its status, stamps delivered_at unless the status is Sent, and keeps every other column; an unknown id changes nothing |
| `Store.MarkRead` | Hubs/ChatHub.cs:266-269 | the read update changes only the addressed row, only when the reader is its receiver, and then sets only status Read and read_at; otherwise the table is unchanged |
| `Store.DeliverAdvances` | Hubs/ChatHub.cs:312-316 | Delivered on a direct row that is still Sent keeps the table well formed and lowers no status |
| `Store.InsertAdvances` | Hubs/ChatHub.cs:36-52 | inserting a Sent row under an unused id keeps every row well formed and changes no existing row |
| `Store.DeliverFreshRow` | Hubs/ChatHub.cs:312-316 | the status update on a fresh direct row makes it Delivered with delivered_at set and read_at NULL, well formed, status not lowered |
| `Store.MarkReadAdvances` | Hubs/ChatHub.cs:266-278 | the read update keeps the table well formed and lowers no status; a broadcast row is never marked |
| `Store.MarkReadTwice` | Hubs/ChatHub.cs:266-278 | reading twice equals reading once at the later instant: the status is unchanged and read_at is overwritten |
| `Store.ReadWithoutDelivery` | Hubs/ChatHub.cs:266-278 | a Sent row read by its receiver becomes Read with delivered_at still NULL |
| `Presence.BuildRoster` | Hubs/ChatHub.cs:144-153 | the reader loop builds exactly the roster: one entry per table user, in table order, with the online flag from the registry |
| `Presence.Entry` | Hubs/ChatHub.cs:146-151 | an entry has the user's formatted id and name, and is online iff the registry holds a connection for that id |
| `Presence.Roster` | Hubs/ChatHub.cs:144-153 | the roster has one entry per table user; entry i has user i's formatted id and name, and is online iff that user has a connection |
| `Presence.RosterListsUserOnce` | Hubs/ChatHub.cs:144-153 | with distinct table ids, no two roster entries share an id, however many connections a user holds |
| `Presence.RosterAfterAttach` | Hubs/ChatHub.cs:131-156 | after attach an entry is online iff it was, or it is the attaching user with a new connection id |
| `Presence.RosterAfterDetach` | Hubs/ChatHub.cs:178-204 | after detach an entry is online iff its user holds a connection other than the detached one |
| `Presence.SecondConnectionKeepsUserOnline` | Hubs/ChatHub.cs:129-204 | a user who attaches a second connection and then drops the first is online in both rosters |
| `Outbox.FanOut` | Hubs/ChatHub.cs:76-79 | the push loop sends the event exactly once to each target connection and to nothing else |
| `Outbox.FanOutReachesEachOnce` | Hubs/ChatHub.cs:88-91 | a fan-out addresses each target connection once and every other connection zero times |
| `Outbox.DirectDeliveryCount` | Hubs/ChatHub.cs:69-91 | a delivered direct message reaches a connection once per role (receiver, sender), so twice for a message to oneself |
| `Hub.Participants` | Hubs/ChatHub.cs:43-48 | the insert's ids exist iff the sender id parses and, for a direct message, the receiver id parses; the receiver column is NULL iff the message is a broadcast |
| `Hub.Persisted` | Hubs/ChatHub.cs:30-57 | after the insert the message carries the returned id, status Sent and the insert time; every other field, and so its participants, is unchanged |
| `Hub.ChatHub.constructor` | Hubs/ChatHub.cs:14-20 | a hub starts with no connections, no messages and no pushes |
| `Hub.ChatHub.SendToEach` | Hubs/ChatHub.cs:88-91 | appends one fan-out of the event to the targets and keeps earlier pushes |
| `Hub.ChatHub.OnConnectedAsync` | Hubs/ChatHub.cs:119-167 | a caller with a user id is registered by `TryAdd`, then the roster of the new registry goes to All; with no user id nothing changes; a failed users query fails the call after registration and with no push |
| `Hub.ChatHub.OnDisconnectedAsync` | Hubs/ChatHub.cs:169-209 | a caller with a user id has its entry removed, then the roster of the new registry goes to All; with no user id nothing changes; a failed users query fails the call with no push |
| `Hub.ChatHub.UpdateMessageStatus` | Hubs/ChatHub.cs:307-327 | on the call SendMessage makes (Delivered on its fresh direct Sent row) the table becomes the status update of the old table, or is unchanged and the call fails; either way every row stays well formed and no status goes down |
| `Hub.ChatHub.SendMessage` | Hubs/ChatHub.cs:22-103 | empty content, a bad id or a failed insert fails with no write and no push. Otherwise a Sent row is inserted under a fresh id before any push. A broadcast goes once to All. An offline receiver leaves the row Sent and only the sender's connections get an echo. An online receiver makes the row and payload Delivered with deliveredAt, then the receiver's connections, then the sender's get it. A failed status update fails the send and leaves the Sent row. Row statuses never go down |
| `Hub.ChatHub.MarkMessageAsRead` | Hubs/ChatHub.cs:241-305 | the table changes only by the guarded read update, and only if the lookup, the parse of the reader id and the update succeed. Then, if the message exists, every sender connection gets a Read receipt whether or not the row matched. No failure escapes. Row statuses never go down |
| `Hub.ChatHub.UserTyping` | Hubs/ChatHub.cs:105-117 | one push of the caller's name, or "Someone", to everyone but the caller |
| `Hub.ChatHub.JoinChat` | Hubs/ChatHub.cs:211-224 | one push of the caller's name, or "Anonymous", to All |
| `Hub.ChatHub.LeaveChat` | Hubs/ChatHub.cs:226-239 | one push of the caller's name, or "Anonymous", to All |
| `Hub.ChatHub.InitiateCall` | Hubs/ChatHub.cs:330-371 | fails with no push when either id is empty or the receiver has no connection; otherwise one offer to each receiver connection; registry and table untouched |
| `Hub.ChatHub.SendCallSignal` | Hubs/ChatHub.cs:373-410 | fails with no push when either id is empty or the receiver has no connection; otherwise the unchanged signal goes once to each receiver connection |
| `Hub.ChatHub.AnswerCall` | Hubs/ChatHub.cs:412-453 | fails with no push when either id is empty or the caller being answered has no connection; otherwise one answer to each of that caller's connections |
| `Hub.ChatHub.EndCall` | Hubs/ChatHub.cs:455-492 | fails when either id is empty; an offline peer is a success with no push; otherwise one end notice to each peer connection |

## Left out

- SQL execution and opening connections: the table is a map. Every way a statement can
  fail collapses into one boolean parameter per statement.
- An `INSERT … RETURNING id` that yields NULL leaves the message id unchanged in the
  source. The model always gets an id.
- The transport: wire delivery, and a `SendAsync` that throws for one connection. The
  model assumes every push is handed over.
- Concurrency: the dictionary's thread safety and the interleaving of async hub calls.
  Each hub method is one atomic step.
- The clock: the source reads `DateTime.UtcNow` several times in one call, for example
  for the inserted row's timestamp and again for the payload's. The model uses one `now`
  per call.
- The enumeration order of the connection list. The fan-out's order is left open, and
  each target is reached once.
- `int.Parse` details beyond white space, sign, digits and 32-bit overflow: culture
  specific signs and trailing NUL characters. Null strings for parameters declared
  non-nullable are not modelled either.
- Console logging and exception message texts.
- Hub.ChatHub.UpdateMessageStatus: the private helper is specified only for the one call
  the hub makes to it, Delivered on the direct row just inserted as Sent. Called with
  other arguments, the status update could leave a row outside `Store.WellFormed` (for
  example Delivered on a Read row keeps read_at), which the hub never does.
- The users table: `directory` is one fixed snapshot in one fixed order. The roster query
  has no ORDER BY, so the database may return the rows in a different order on each
  call, and registrations may add rows. The lemmas that compare entry `i` across two
  rosters rely on that fixed order.
- Message ids: `nextId` is an unbounded integer. In the source the id returned by the
  insert is converted to a 32-bit `int`, so a serial past 2147483647 would throw; the
  model does not reach that limit.
- `base.OnConnectedAsync` and `base.OnDisconnectedAsync`, which do nothing here.
- Writes to the messages or users tables by anything other than the hub (the HTTP
  controllers, registration). The hub is the only writer, which is why row
  well-formedness is an invariant. Controllers/AuthController.cs,
  Controllers/UsersController.cs, Controllers/MessagesController.cs,
  Controllers/TestController.cs, Program.cs and Services/DatabaseService.cs are not part
  of this model.
