/**
 * The message relay of server.js as a state machine over values: the
 * `connection`, `message` and `close` handlers each take the registry, the
 * limiter table and the connections' current rooms to their next values and
 * produce the frames sent, as (recipient, frame) pairs in sending order.
 * Handlers run to completion one at a time, as Node's event loop runs them.
 */
module Relay {
  import opened Wrappers
  import opened Sanitizer
  import opened RateLimit
  import opened Rooms

  const MAX_MESSAGE_LENGTH: nat := 500
  const ANONYMOUS: string := "Anonymous"

  /** An inbound JSON message, by its `type` field. */
  datatype Inbound =
    | JoinRequest(url: Option<string>)
    | ChatRequest(user: Option<string>, text: Option<string>)
    | Unrecognised

  datatype ErrorCode = MessageTooLong | RateLimitExceeded

  /** An outbound JSON frame. */
  datatype Frame =
    | ChatFrame(user: string, text: string)
    | ErrorFrame(code: ErrorCode, user: string)

  type Delivery = (ConnId, Frame)

  /** The value of a connection's `room` variable: `null` before any join,
      `undefined` after a join without `url`, the url string otherwise. */
  datatype RoomRef = Null | Undefined | Named(id: string)

  /** JavaScript truthiness of `room`: only a non-empty string is true. */
  predicate Truthy(room: RoomRef): (truthy: bool)
    ensures truthy ==> room.Named? && RoomKey(room) == room.id && RoomKey(room) != ""
    ensures room.Null? || room.Undefined? ==> !truthy
  {
    room.Named? && room.id != ""
  }

  /** The property key `rooms[room]` uses: `undefined` becomes "undefined". */
  function RoomKey(room: RoomRef): (key: string)
    requires !room.Null?
    ensures room.Named? ==> key == room.id
    ensures room.Undefined? ==> key == "undefined"
  {
    if room.Undefined? then "undefined" else room.id
  }

  function RoomOfUrl(url: Option<string>): (room: RoomRef)
    ensures !room.Null?
  {
    if url.None? then Undefined else Named(url.value)
  }

  /** `message.user || 'Anonymous'`. */
  function DisplayName(user: Option<string>): (name: string)
    ensures name != ""
    ensures user.Some? && user.value != "" ==> name == user.value
    ensures user.None? || user.value == "" ==> name == ANONYMOUS
  {
    if user.Some? && user.value != "" then user.value else ANONYMOUS
  }

  /** `!message.text || message.text.length > MAX_MESSAGE_LENGTH`. */
  predicate TextRejected(text: Option<string>): (rejected: bool)
    ensures !rejected <==> text.Some? && 0 < |text.value| <= MAX_MESSAGE_LENGTH
  {
    text.None? || text.value == "" || |text.value| > MAX_MESSAGE_LENGTH
  }

  /** Two joins file a connection under the same `rooms` entry exactly when
      their urls are equal, or one has no url and the other is the string
      "undefined"; of those two only the string leaves `room` truthy, so the
      url-less joiner shares the entry but cannot chat in it. */
  lemma SameRoomEntry(u: Option<string>, v: Option<string>)
    ensures RoomKey(RoomOfUrl(u)) == RoomKey(RoomOfUrl(v))
        <==> u == v || (u == None && v == Some("undefined")) || (u == Some("undefined") && v == None)
    ensures !Truthy(RoomOfUrl(None)) && Truthy(RoomOfUrl(Some("undefined")))
  {
  }

  /** The length check depends on the length alone: a present text is
      accepted exactly up to 500 characters, so shortening an accepted text
      keeps it accepted; a missing or empty text is always refused. */
  lemma AcceptedByLength(t: string, u: string)
    ensures !TextRejected(Some(u)) && 0 < |t| <= |u| ==> !TextRejected(Some(t))
    ensures |t| == |u| ==> TextRejected(Some(t)) == TextRejected(Some(u))
    ensures |t| == MAX_MESSAGE_LENGTH ==> !TextRejected(Some(t))
    ensures |t| == MAX_MESSAGE_LENGTH + 1 ==> TextRejected(Some(t))
    ensures TextRejected(None) && TextRejected(Some(""))
  {
  }

  /** The broadcast loop: `frame` to each member whose socket is open, in membership order. */
  function Deliveries(members: seq<ConnId>, open: set<ConnId>, frame: Frame): (out: seq<Delivery>)
    ensures forall d :: d in out ==> d.1 == frame && d.0 in open && d.0 in members
    ensures forall m :: m in members && m in open ==> (m, frame) in out
    ensures NoDup(members) ==> forall i, j :: 0 <= i < j < |out| ==> out[i].0 != out[j].0
    ensures |out| <= |members|
    decreases |members|
  {
    if members == [] then []
    else
      var last := members[|members| - 1];
      var init := members[..|members| - 1];
      assert forall m :: m in members ==> m in init || m == last;
      assert NoDup(members) ==> NoDup(init) && last !in init;
      Deliveries(init, open, frame) + (if last in open then [(last, frame)] else [])
  }

  /** When every member's socket is open, each member gets the frame once, in membership order. */
  lemma {:induction false} DeliveriesAllOpen(members: seq<ConnId>, open: set<ConnId>, frame: Frame)
    requires forall i :: 0 <= i < |members| ==> members[i] in open
    ensures |Deliveries(members, open, frame)| == |members|
    ensures forall i :: 0 <= i < |members| ==> Deliveries(members, open, frame)[i] == (members[i], frame)
    decreases |members|
  {
    if members != [] {
      var init := members[..|members| - 1];
      var last := members[|members| - 1];
      assert members == init + [last];
      DeliveriesAllOpen(init, open, frame);
      assert Deliveries(members, open, frame) == Deliveries(init, open, frame) + [(last, frame)];
      PairsSnoc(Deliveries(init, open, frame), init, last, frame);
    }
  }

  /** Appending one pair to a list that pairs `init` with `frame` pairs `init + [last]` with it. */
  lemma PairsSnoc(rest: seq<Delivery>, init: seq<ConnId>, last: ConnId, frame: Frame)
    requires |rest| == |init|
    requires forall i :: 0 <= i < |init| ==> rest[i] == (init[i], frame)
    ensures forall i :: 0 <= i < |init| + 1 ==> (rest + [(last, frame)])[i] == ((init + [last])[i], frame)
  {
  }

  /** The whole relay state. `roomOf` holds the `room` variable of each live connection. */
  datatype Server = Server(
    rooms: Registry,
    limiters: map<ConnId, Bucket>,
    roomOf: map<ConnId, RoomRef>)

  /** What every reachable state satisfies: no empty or repeating room entry, a
      limiter for exactly the live connections, no limiter over capacity, and
      every live connection that has joined is a member of its current room. */
  predicate Inv(s: Server)
  {
    && WellFormed(s.rooms)
    && s.roomOf.Keys == s.limiters.Keys
    && (forall c :: c in s.limiters ==> s.limiters[c].tokens <= BUCKET_CAPACITY)
    && (forall c :: c in s.roomOf && !s.roomOf[c].Null? ==>
          RoomKey(s.roomOf[c]) in s.rooms && c in s.rooms[RoomKey(s.roomOf[c])])
  }

  const Initial: Server := Server(map[], map[], map[])

  /** The `connection` handler: `room = null`, and a new full bucket. */
  function Connected(s: Server, c: ConnId, now: int): (r: Server)
    ensures r.rooms == s.rooms
    ensures r.roomOf.Keys == s.roomOf.Keys + {c} && r.limiters.Keys == s.limiters.Keys + {c}
    ensures r.roomOf[c] == Null && r.limiters[c] == Bucket(BUCKET_CAPACITY, now)
  {
    Server(s.rooms, s.limiters[c := Bucket(BUCKET_CAPACITY, now)], s.roomOf[c := Null])
  }

  /** The `message` handler for connection `c`; `open` is the set of sockets
      whose `readyState` is OPEN when the message is handled. */
  function Received(s: Server, c: ConnId, msg: Inbound, now: int, open: set<ConnId>)
    : (res: (Server, seq<Delivery>))
    requires Inv(s) && c in s.roomOf
    ensures res.0.roomOf.Keys == s.roomOf.Keys && res.0.limiters.Keys == s.limiters.Keys
    ensures !msg.JoinRequest? ==> res.0.rooms == s.rooms && res.0.roomOf == s.roomOf
    ensures !msg.ChatRequest? ==> res.1 == [] && res.0.limiters == s.limiters
    ensures forall d :: d in res.1 && d.1.ErrorFrame? ==> d.0 == c
  {
    match msg
    case JoinRequest(url) =>
      var room := RoomOfUrl(url);
      (s.(rooms := AddToRoom(s.rooms, RoomKey(room), c), roomOf := s.roomOf[c := room]), [])
    case ChatRequest(user, text) =>
      if Truthy(s.roomOf[c]) then ChatReceived(s, c, user, text, now, open) else (s, [])
    case Unrecognised =>
      (s, [])
  }

  /** A chat message from a connection whose `room` is truthy. */
  function ChatReceived(s: Server, c: ConnId, user: Option<string>, text: Option<string>,
                        now: int, open: set<ConnId>): (res: (Server, seq<Delivery>))
    requires Inv(s) && c in s.roomOf && Truthy(s.roomOf[c])
    ensures res.0.rooms == s.rooms && res.0.roomOf == s.roomOf
    ensures res.0.limiters.Keys == s.limiters.Keys
    ensures forall d :: d in s.limiters && d != c ==> res.0.limiters[d] == s.limiters[d]
    ensures TextRejected(text) ==> res.0 == s && |res.1| == 1
    ensures forall d :: d in res.1 && d.1.ErrorFrame? ==> d.0 == c
    ensures forall d :: d in res.1 && d.1.ChatFrame? ==> d.1.user == DisplayName(user)
  {
    var name := DisplayName(user);
    if TextRejected(text) then
      (s, [(c, ErrorFrame(MessageTooLong, name))])
    else
      var (ok, bucket) := Consumed(s.limiters[c], now);
      var s' := s.(limiters := s.limiters[c := bucket]);
      if !ok then
        (s', [(c, ErrorFrame(RateLimitExceeded, name))])
      else
        (s', Deliveries(s.rooms[RoomKey(s.roomOf[c])], open, ChatFrame(name, Sanitize(text.value))))
  }

  /** The `close` handler: leave the current room if `room` is truthy, then drop the limiter. */
  function Closed(s: Server, c: ConnId): (r: Server)
    requires c in s.roomOf
    ensures r.roomOf == s.roomOf - {c} && r.limiters == s.limiters - {c}
    ensures r.rooms.Keys <= s.rooms.Keys
    ensures !Truthy(s.roomOf[c]) ==> r.rooms == s.rooms
  {
    var room := s.roomOf[c];
    var rooms := if Truthy(room) && room.id in s.rooms then RemoveFromRoom(s.rooms, room.id, c) else s.rooms;
    Server(rooms, s.limiters - {c}, s.roomOf - {c})
  }

  lemma InitialInv()
    ensures Inv(Initial)
  {
  }

  /** A new connection keeps the invariant. */
  lemma ConnectedPreservesInv(s: Server, c: ConnId, now: int)
    requires Inv(s)
    ensures Inv(Connected(s, c, now))
  {
  }

  /** A new connection leaves every other connection's `room` and bucket as they were. */
  lemma ConnectLeavesOthers(s: Server, c: ConnId, now: int, d: ConnId)
    requires d != c
    ensures d in Connected(s, c, now).roomOf <==> d in s.roomOf
    ensures d in s.roomOf ==> Connected(s, c, now).roomOf[d] == s.roomOf[d]
    ensures d in s.limiters ==> Connected(s, c, now).limiters[d] == s.limiters[d]
  {
  }

  /** Every message keeps the invariant. */
  lemma ReceivedPreservesInv(s: Server, c: ConnId, msg: Inbound, now: int, open: set<ConnId>)
    requires Inv(s) && c in s.roomOf
    ensures Inv(Received(s, c, msg, now, open).0)
  {
    var r := Received(s, c, msg, now, open).0;
    match msg
    case JoinRequest(url) =>
      var key := RoomKey(RoomOfUrl(url));
      forall d | d in r.roomOf && !r.roomOf[d].Null?
        ensures RoomKey(r.roomOf[d]) in r.rooms && d in r.rooms[RoomKey(r.roomOf[d])]
      {
        if d != c {
          assert r.roomOf[d] == s.roomOf[d];
        }
      }
    case ChatRequest(user, text) =>
      assert r.rooms == s.rooms && r.roomOf == s.roomOf;
    case Unrecognised =>
  }

  /** Spending a token keeps the invariant: the bucket stays within capacity. */
  lemma ConsumedKeepsInv(s: Server, c: ConnId, now: int)
    requires Inv(s) && c in s.roomOf
    ensures Inv(s.(limiters := s.limiters[c := Consumed(s.limiters[c], now).1]))
  {
  }

  /** Closing keeps the invariant: in particular no room entry is left empty. */
  lemma ClosedPreservesInv(s: Server, c: ConnId)
    requires Inv(s) && c in s.roomOf
    ensures Inv(Closed(s, c))
  {
    var r := Closed(s, c);
    var room := s.roomOf[c];
    forall d | d in r.roomOf && !r.roomOf[d].Null?
      ensures RoomKey(r.roomOf[d]) in r.rooms && d in r.rooms[RoomKey(r.roomOf[d])]
    {
      var key := RoomKey(s.roomOf[d]);
      assert d != c && r.roomOf[d] == s.roomOf[d];
      if Truthy(room) && room.id in s.rooms && key == room.id {
        assert d in s.rooms[key] && d != c;
      }
    }
  }

  /** A join makes the url the connection's current room and a member of it,
      sends nothing, and changes no other room and no limiter. */
  lemma JoinEnters(s: Server, c: ConnId, url: Option<string>, now: int, open: set<ConnId>)
    requires Inv(s) && c in s.roomOf
    ensures var (r, out) := Received(s, c, JoinRequest(url), now, open);
      && out == []
      && r.roomOf == s.roomOf[c := RoomOfUrl(url)]
      && r.limiters == s.limiters
      && r.rooms.Keys == s.rooms.Keys + {RoomKey(RoomOfUrl(url))}
      && (forall x :: x in r.rooms[RoomKey(RoomOfUrl(url))] <==>
            x == c || (RoomKey(RoomOfUrl(url)) in s.rooms && x in s.rooms[RoomKey(RoomOfUrl(url))]))
      && (forall k :: k in s.rooms && k != RoomKey(RoomOfUrl(url)) ==> r.rooms[k] == s.rooms[k])
  {
  }

  /** Joining the same room a second time changes nothing. */
  lemma {:induction false} JoinIdempotent(s: Server, c: ConnId, url: Option<string>, now: int, open: set<ConnId>)
    requires Inv(s) && c in s.roomOf
    ensures var once := Received(s, c, JoinRequest(url), now, open).0;
      Inv(once) && c in once.roomOf &&
      Received(once, c, JoinRequest(url), now, open) == (once, [])
  {
    var once := Received(s, c, JoinRequest(url), now, open).0;
    ReceivedPreservesInv(s, c, JoinRequest(url), now, open);
    var key := RoomKey(RoomOfUrl(url));
    AddToRoomIdempotent(s.rooms, key, c);
    assert once.roomOf[c := RoomOfUrl(url)] == once.roomOf;
  }

  /** A chat before any join, or after a join whose url was absent or empty,
      sends nothing and changes nothing. */
  lemma ChatWithoutRoomIgnored(s: Server, c: ConnId, user: Option<string>, text: Option<string>,
                               now: int, open: set<ConnId>)
    requires Inv(s) && c in s.roomOf && !Truthy(s.roomOf[c])
    ensures Received(s, c, ChatRequest(user, text), now, open) == (s, [])
  {
  }

  /** A missing, empty or over-long text gets one MESSAGE_TOO_LONG frame back to
      the sender and leaves the state, the sender's bucket included, as it was. */
  lemma RejectedTextIsFree(s: Server, c: ConnId, user: Option<string>, text: Option<string>,
                           now: int, open: set<ConnId>)
    requires Inv(s) && c in s.roomOf && Truthy(s.roomOf[c]) && TextRejected(text)
    ensures Received(s, c, ChatRequest(user, text), now, open)
         == (s, [(c, ErrorFrame(MessageTooLong, DisplayName(user)))])
  {
  }

  /** With an acceptable text and no token after refilling, the sender alone gets
      RATE_LIMIT_EXCEEDED; only the sender's bucket changes, by its refill. */
  lemma RateLimitedReply(s: Server, c: ConnId, user: Option<string>, text: Option<string>,
                         now: int, open: set<ConnId>)
    requires Inv(s) && c in s.roomOf && Truthy(s.roomOf[c]) && !TextRejected(text)
    requires Refilled(s.limiters[c], now).tokens < 1.0
    ensures Received(s, c, ChatRequest(user, text), now, open)
         == (s.(limiters := s.limiters[c := Refilled(s.limiters[c], now)]),
             [(c, ErrorFrame(RateLimitExceeded, DisplayName(user)))])
  {
  }

  /** With an acceptable text and a token to spend, every open member of the
      sender's room, the sender included, gets the chat frame exactly once, with
      the display name and the sanitized text; nobody else gets anything, and
      the sender's bucket loses one token after refilling. */
  lemma AcceptedChatReachesOpenMembers(s: Server, c: ConnId, user: Option<string>, text: Option<string>,
                                       now: int, open: set<ConnId>)
    requires Inv(s) && c in s.roomOf && Truthy(s.roomOf[c]) && !TextRejected(text)
    requires Refilled(s.limiters[c], now).tokens >= 1.0
    ensures var (r, out) := Received(s, c, ChatRequest(user, text), now, open);
      var members := s.rooms[s.roomOf[c].id];
      var frame := ChatFrame(DisplayName(user), Sanitize(text.value));
      && r.rooms == s.rooms && r.roomOf == s.roomOf
      && r.limiters == s.limiters[c := Bucket(Refilled(s.limiters[c], now).tokens - 1.0, now)]
      && (forall m :: (m, frame) in out <==> m in members && m in open)
      && (forall d :: d in out ==> d.1 == frame)
      && (forall i, j :: 0 <= i < j < |out| ==> out[i].0 != out[j].0)
      && (c in open ==> (c, frame) in out)
  {
    var members := s.rooms[s.roomOf[c].id];
    var frame := ChatFrame(DisplayName(user), Sanitize(text.value));
    var bucket := Bucket(Refilled(s.limiters[c], now).tokens - 1.0, now);
    assert Consumed(s.limiters[c], now) == (true, bucket);
    assert Received(s, c, ChatRequest(user, text), now, open)
        == (s.(limiters := s.limiters[c := bucket]), Deliveries(members, open, frame));
    assert NoDup(members);
  }

  /** The current room is left on close (and its entry dropped if that was its
      last member), and the connection's limiter is released. */
  lemma CloseLeavesCurrentRoom(s: Server, c: ConnId)
    requires Inv(s) && c in s.roomOf
    ensures var r := Closed(s, c);
      && r.limiters == s.limiters - {c}
      && r.roomOf == s.roomOf - {c}
      && (forall d :: d in s.limiters && d != c ==> d in r.limiters && r.limiters[d] == s.limiters[d])
      && (!Truthy(s.roomOf[c]) ==> r.rooms == s.rooms)
      && (Truthy(s.roomOf[c]) ==>
            forall k :: k in s.rooms && k != s.roomOf[c].id ==> k in r.rooms && r.rooms[k] == s.rooms[k])
      && (Truthy(s.roomOf[c]) ==>
            var key := s.roomOf[c].id;
            && (key in r.rooms ==> c !in r.rooms[key] && r.rooms[key] != [])
            && (key in r.rooms ==> forall x :: x in r.rooms[key] <==> x in s.rooms[key] && x != c)
            && (key !in r.rooms <==> s.rooms[key] == [c]))
  {
    var room := s.roomOf[c];
    if Truthy(room) {
      var key := room.id;
      var rest := RemoveMember(s.rooms[key], c);
      if rest == [] {
        assert c in s.rooms[key] && |s.rooms[key]| == 1;
        assert s.rooms[key] == [s.rooms[key][0]];
      } else {
        assert s.rooms[key] != [c];
      }
    }
  }
}
