# WebSocket chat relay core, modelled in Dafny

This project models the core of `server.js`, a single-process WebSocket chat
relay. Clients join a room named by a `url`, and chat messages are relayed to
the room's members. The model covers four parts:

- **`sanitize`** (`Sanitizer`). It replaces every `<` with `&lt;` and every
  `>` with `&gt;`. The two chained `replace` calls are a recursive `ReplaceAll`.
  The model proves that this is a one-pass, per-character escape. It proves
  that no angle bracket survives, that the plain texts are exactly its fixed
  points, that it inverts on texts without `&`, and that it is not injective.
- **`TokenBucket`** (`RateLimit`). This is the per-connection bucket: capacity
  5, one token per second. There is a value-level specification (`Refilled`,
  `Consumed`). The `TokenBucket` class updates `tokens` and `lastRefill` in
  place, and each method is proved against that specification. The lemmas
  cover the burst of five, the answer at one instant, and the rate bound over
  any forward-moving series of calls.
- **Room registry** (`Rooms`). The global `rooms` object maps a room key to a
  JavaScript `Set` of sockets. A `Set` iterates in insertion order without
  repeats, so a member set is a duplicate-free sequence.
- **Handlers** (`Relay`, `Handlers`, `Scenarios`).
  - `Relay` states the `connection`, `message` and `close` handlers as
    functions on the whole relay state. It also gives the state invariant
    they keep.
  - `Handlers.ChatServer` is the imperative server. It holds `rooms`,
    `rateLimiters` (bucket objects) and each connection's `room` closure
    variable as fields. Each handler is a method proved to move that state
    exactly as `Relay` says.
  - `Handlers.Broadcast` is the `for` loop over the room's members.
  - `Scenarios` drives the relay with a sequence of transport events and
    works out several runs in full.

Some environment reads become parameters:

- `Date.now()` is a `now` parameter in milliseconds.
- A socket's `readyState === OPEN` is membership in an `open` set, fixed for
  the handling of one message.
- A connection is a `ConnId` handle.
- `ws.send` appends a `(recipient, frame)` pair to the handler's output, in
  sending order.

The relay reproduces several behaviours of the code faithfully:

- A chat is broadcast to every OPEN member of the room, **the sender
  included** (server.js:90-97).
- `server.js` has no penalty levels and no credential check; the only
  limiter is the fixed-rate token bucket.
- `room` is the raw `message.url`:
  - A join without `url` files the connection under the property key
    `"undefined"`, the same entry as a join with the string `"undefined"`
    (`SameRoomEntry`).
  - After such a join, or one with an empty `url`, `room` is falsy. Chats
    are then ignored, and close does not leave that room.
- A second join does not leave the previous room, and close leaves only the
  current one. A connection can therefore stay a member of an earlier room
  after it closes (`RejoinThenCloseLeavesStaleMember`).
- `Date.now()` is a wall clock and may go backwards. `tokens <= 5` always
  holds. `tokens >= 0` is proved only for a clock that did not go back: a
  backward step lowers the count.

## Model

| member | source | states |
|---|---|---|
| Sanitizer.ReplaceAll | server.js:48 | A global `replace` of one character: the result lacks the character when the replacement does, is the input when the input lacks it, and gains no other character that neither the input nor the replacement has |
| Sanitizer.ReplaceAllAppend | server.js:48 | Replacing all occurrences distributes over concatenation |
| Sanitizer.SanitizeEscapesEachChar | server.js:46-49 | The two chained replacements equal a one-pass escape of each character (`<` to `&lt;`, `>` to `&gt;`, every other character kept, in order) |
| Sanitizer.SanitizeRemovesBrackets | server.js:46-49 | The sanitized text contains no `<` and no `>` |
| Sanitizer.EscapeEachRemovesBrackets | server.js:46-49 | The one-pass escape leaves no angle bracket |
| Sanitizer.EscapeEachAppend | server.js:46-49 | The one-pass escape distributes over concatenation |
| Sanitizer.SanitizeFixedPoint | server.js:46-49 | `sanitize(s) == s` exactly when `s` has no `<` and no `>` (both directions) |
| Sanitizer.SanitizeKeepsPlain | server.js:46-49 | `sanitize("plain") == "plain"` |
| Sanitizer.UnescapeSanitize | server.js:46-49 | Decoding `&lt;` and `&gt;` recovers any text without `&` from its sanitized form |
| Sanitizer.UnescapeEscapeEach | server.js:46-49 | The same round trip for the one-pass escape |
| Sanitizer.SanitizeNotInjective | server.js:46-49 | `"<"` and `"&lt;"` sanitize to the same text, so the escape cannot be undone on texts with `&` |
| Sanitizer.Sanitize | server.js:46-49 | The sanitized text contains neither `<` nor `>`, and a text with no angle bracket is returned unchanged |
| Sanitizer.EscapeEachOne | server.js:48 | Escaping a one-character text is escaping that character |
| Sanitizer.EscapeEachKeepsPlain | server.js:46-49 | The one-pass escape keeps a text without angle brackets unchanged |
| Sanitizer.EscapeOpenTag | server.js:48 | An opening tag `<t>` becomes `&lt;t&gt;` |
| Sanitizer.EscapeCloseTag | server.js:48 | A closing tag `</t>` becomes `&lt;/t&gt;` |
| Sanitizer.SanitizeElement | server.js:46-49 | A markup element `<t>body</t>` is delivered as the literal text `&lt;t&gt;body&lt;/t&gt;` |
| RateLimit.Elapsed | server.js:25 | The elapsed seconds times 1000 are the milliseconds since `lastRefill`, and they are non-negative exactly when the clock did not go back |
| RateLimit.Refilled | server.js:23-31 | After `refill`: `lastRefill == now`; tokens at most 5; tokens are the cap or the old count plus elapsed seconds times the rate; a forward clock never lowers the count; a backward clock lowers it |
| RateLimit.Consumed | server.js:33-40 | `tryConsume` succeeds exactly when the refilled count is at least 1; it takes exactly 1 on success and leaves the refilled count on failure; the result is at most 5, and at least 0 when the clock moved forward from a non-negative count |
| RateLimit.ConsumeRun | server.js:33-40 | The outcomes of `n` consecutive `tryConsume` calls at one time, one per call (its meaning is stated by `RunAtInstant`) |
| RateLimit.RunAtInstant | server.js:33-40 | With no time passing, call `i` succeeds exactly when the bucket held at least `i + 1` tokens |
| RateLimit.FreshBucketBurst | server.js:12-40 | From a full bucket at one instant: five successes, then a failure |
| RateLimit.SuccessesBounded | server.js:23-40 | Over calls at non-decreasing times, successes never exceed the starting tokens plus one per elapsed second |
| RateLimit.TokenBucket.constructor | server.js:18-21 | A new bucket holds `BUCKET_CAPACITY` tokens with `lastRefill == now` |
| RateLimit.TokenBucket.Refill | server.js:23-31 | The fields become exactly `Refilled` of their old values |
| RateLimit.TokenBucket.TryConsume | server.js:33-40 | The answer and the new fields are exactly `Consumed` of the old fields |
| RateLimit.BurstFromFreshBucket | server.js:17-41 | Six calls on a new bucket object at one instant answer true five times, then false |
| Rooms.AddMember | server.js:63 | `Set.add`: the members are the old ones plus the newcomer, without repeats, old order kept, at most one longer |
| Rooms.RemoveMember | server.js:104 | `Set.delete`: exactly the others remain, without repeats, one fewer when present, unchanged when absent |
| Rooms.RemoveMemberAt | server.js:104 | `Set.delete` keeps insertion order: the members after a leave are the old sequence with that one position cut out |
| Rooms.AddToRoom | server.js:62-63 | The entry is created if missing and holds the connection and the old members; other rooms are unchanged; well-formedness is kept |
| Rooms.RemoveFromRoom | server.js:104-105 | The connection leaves the room; the entry is dropped exactly when nobody else was in it; other rooms are unchanged; no empty entry appears |
| Rooms.AddToRoomIdempotent | server.js:62-63 | Adding the same connection to the same room twice equals adding it once |
| Rooms.AddThenRemoveRestores | server.js:62-63 | Joining a new room and leaving it restores the registry |
| Relay.RoomOfUrl | server.js:61 | After a join, `room` is never `null` |
| Relay.DisplayName | server.js:73 | `message.user \|\| 'Anonymous'`: the user if non-empty, otherwise "Anonymous"; never empty |
| Relay.SameRoomEntry | server.js:61-62 | Two joins share one `rooms` entry exactly when their urls are equal, or one has no url and the other is the string "undefined"; only the string leaves `room` truthy |
| Relay.Truthy | server.js:67 | `room` (also tested at line 103) is truthy only for a url that is a non-empty string, which is then its own key; `null` and a missing url are falsy |
| Relay.AcceptedByLength | server.js:69 | The length check depends on the length alone: a text is accepted up to 500 characters and refused at 501, shortening an accepted text keeps it accepted, and a missing or empty text is refused |
| Relay.Deliveries | server.js:89-98 | The broadcast sends only the given frame, only to open members of the room, to every one of them, never more frames than members, and no recipient twice when the members are distinct |
| Relay.DeliveriesAllOpen | server.js:90-97 | When every member is open, each gets the frame once, in membership order |
| Relay.Connected | server.js:51-55 | The `connection` handler leaves the rooms alone, adds the connection to both tables, with `room == null` and a full bucket stamped `now` |
| Relay.ConnectLeavesOthers | server.js:51-55 | A new connection leaves every other connection's `room` and bucket as they were |
| Relay.Received | server.js:57-100 | The `message` handler keeps the set of live connections; only a join moves rooms or `room`; only a chat sends frames or touches a bucket; every error frame goes to the sender alone |
| Relay.ChatReceived | server.js:67-98 | A chat moves no room and no `room`, touches only the sender's bucket, answers a refused text with exactly one frame and no state change, sends errors to the sender only, and labels every chat frame with the display name |
| Relay.Closed | server.js:102-109 | The `close` handler removes the connection from both tables, creates no room, and leaves the rooms alone when `room` is falsy |
| Relay.InitialInv | server.js:9 | The empty relay satisfies the invariant |
| Relay.ConnectedPreservesInv | server.js:51-55 | A new connection (room `null`, full bucket) keeps the invariant |
| Relay.ReceivedPreservesInv | server.js:57-100 | Every inbound message keeps the invariant |
| Relay.ConsumedKeepsInv | server.js:79-80 | Spending a token keeps the invariant |
| Relay.ClosedPreservesInv | server.js:102-109 | Close keeps the invariant; no room entry is ever left empty |
| Relay.JoinEnters | server.js:60-64 | A join sends nothing, sets `room` to the url, adds the room key, makes the room's members exactly the connection plus the old members, and changes no other room and no bucket |
| Relay.JoinIdempotent | server.js:60-64 | A second identical join changes nothing and sends nothing |
| Relay.ChatWithoutRoomIgnored | server.js:67 | A chat while `room` is falsy sends nothing and changes nothing |
| Relay.RejectedTextIsFree | server.js:69-76 | A missing, empty or over-500 text sends one MESSAGE_TOO_LONG frame to the sender only and leaves all state, its bucket included, unchanged |
| Relay.RateLimitedReply | server.js:79-87 | With no token after the refill, only the sender gets RATE_LIMIT_EXCEEDED and only its bucket changes, by its refill |
| Relay.AcceptedChatReachesOpenMembers | server.js:89-98 | With a token, an open connection gets `{chat, name, sanitize(text)}` exactly when it is an open member of the sender's room (the sender included when open), nobody twice, and the sender's bucket loses one token after the refill |
| Relay.CloseLeavesCurrentRoom | server.js:102-109 | Close drops the connection's bucket and `room` and nothing else from either table; it leaves the rooms alone when `room` is falsy; otherwise it removes the connection from its current room, whose other members all stay, and whose entry goes exactly when it was the last member; every other room is kept as it was |
| Scenarios.Step | server.js:51-109 | One transport event keeps the invariant |
| Scenarios.Run | server.js:51-109 | Any series of events keeps the invariant |
| Scenarios.RunAppend | server.js:51-109 | Running `a` then `b` ends where running `a + b` does, and sends the frames of `a` followed by those of `b` |
| Scenarios.ReachableStatesKeepInv | server.js:102-109 | No state reachable from the empty relay has an empty room entry |
| Scenarios.RejoinThenCloseLeavesStaleMember | server.js:60-109 | Join "a", join "b", close: the connection stays a member of "a" with no live connection left |
| Scenarios.ChatsAtOneInstant | server.js:67-98 | At one instant, a sender holding `k` tokens gets its first `k` messages broadcast and every later one refused |
| Scenarios.OversizedMessageIsFree | server.js:69-87 | After an oversized message is refused, a full bucket still lets five messages through at that instant and refuses the sixth |
| Scenarios.FullBucketReplies | server.js:79-98 | A joined sender with a full bucket sends six identical valid chats at one instant: the relay run broadcasts the first five to the room and answers the sixth with RATE_LIMIT_EXCEEDED to the sender |
| Scenarios.StepRejectedText | server.js:69-76 | A refused text as an event changes nothing and answers the sender only |
| Scenarios.LobbyConversation | server.js:51-98 | Three connections; two join "lobby", one joins "other"; "hi" from the first reaches both lobby members, the sender first, and nobody else |
| Handlers.Broadcast | server.js:89-98 | The loop's output is exactly `Deliveries`: an open member receives the frame exactly when it is in the room |
| Handlers.ChatServer.constructor | server.js:44 | The `rooms` object (line 9) and `rateLimiters` map start empty; the state is valid |
| Handlers.ChatServer.OnConnect | server.js:51-55 | The state becomes `Connected` of the old state with a fresh bucket object; validity is kept |
| Handlers.ChatServer.OnMessage | server.js:57-100 | State and frames become exactly `Received` of the old state; validity is kept; the bucket table is unchanged |
| Handlers.ChatServer.Join | server.js:60-64 | `rooms` gains the connection under the url's key and `room` becomes the url |
| Handlers.ChatServer.Chat | server.js:67-98 | State and frames become exactly the chat branch of `Received` |
| Handlers.ChatServer.Admit | server.js:78-98 | After the length check: state and frames become exactly the chat branch of `Received` (rate check, then the broadcast of the sanitized text) |
| Handlers.ChatServer.Spend | server.js:79-80 | The sender's bucket steps by `Consumed`, and every other bucket is unchanged |
| Handlers.ChatServer.OnClose | server.js:102-109 | The state becomes `Closed` of the old state; validity is kept |

## Left out

- `Message.js` is not part of this model. It is a schema declaration with no logic.
- The transport and bootstrap (server.js:1-7, 112-114) are not modelled: `ws`, `express`, `http` and `server.listen`. Sending is appending to the output sequence.
- `JSON.parse` and `JSON.stringify` are not modelled. Inbound messages and outbound frames are datatypes.
  - A malformed frame, where `JSON.parse` throws, is not modelled.
  - A `type` other than `join` or `chat` is `Unrecognised` and does nothing.
  - Fields that are present but are not strings (numbers, objects, `null` as a url) are not modelled.
- `Date.now()` is a parameter. Each socket's `readyState` is the `open` set. Both are environment reads.
- Floating point is not modelled. Token counts are exact reals, so rounding in `timePassed * REFILL_RATE` and in the subtraction is absent.
- String length is the number of Dafny characters. JavaScript's `.length` counts UTF-16 code units, so a text with characters outside the Basic Multilingual Plane measures differently.
- Room keys that collide with `Object.prototype` properties are not modelled. Examples are `"constructor"` and `"__proto__"`: `rooms[room] || new Set()` would find an inherited value for them.
- The unused `REFILL_INTERVAL` constant (server.js:14) is not modelled.
- Concurrency is not modelled. Node runs each handler to completion, so handlers are atomic steps.
- RateLimit.Consumed: `tokens >= 0` is stated only for a clock that did not move backwards, because the code does not guard against a wall clock going back.
- RateLimit.TokenBucket.TryConsume: the same conditional lower bound, through `Consumed`.
- Events on a socket after its `close` are not modelled, because the transport delivers none. The handler methods require a live connection, and `Scenarios.Step` ignores such events.
- A connection handle opened again after its close is not modelled, because the transport gives every connection a new socket object. `Scenarios.Step` ignores an `Open` of a live handle but does not rule out reopening a closed one.
