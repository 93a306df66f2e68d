/**
 * The relay driven by a sequence of transport events, as Node's event loop
 * delivers them one at a time, and a few runs worked out in full.
 */
module Scenarios {
  import opened Wrappers
  import opened Sanitizer
  import opened RateLimit
  import opened Rooms
  import opened Relay

  /** A transport event: a socket accepted, a message on it, or its close. */
  datatype Event =
    | Open(c: ConnId, now: int)
    | Message(c: ConnId, msg: Inbound, now: int, open: set<ConnId>)
    | Close(c: ConnId)

  /** One event handled. Every accepted socket is a new object, and messages and
      closes arrive only on live sockets: an `Open` of a live handle, or a message
      or close naming a handle that is not live, leaves everything as it is. */
  function Step(s: Server, e: Event): (res: (Server, seq<Delivery>))
    requires Inv(s)
    ensures Inv(res.0)
  {
    match e
    case Open(c, now) =>
      if c in s.roomOf then (s, [])
      else
        ConnectedPreservesInv(s, c, now);
        (Connected(s, c, now), [])
    case Message(c, msg, now, open) =>
      if c in s.roomOf then
        ReceivedPreservesInv(s, c, msg, now, open);
        Received(s, c, msg, now, open)
      else (s, [])
    case Close(c) =>
      if c in s.roomOf then
        ClosedPreservesInv(s, c);
        (Closed(s, c), [])
      else (s, [])
  }

  /** A series of events handled in order: the final state and every frame sent. */
  function Run(s: Server, events: seq<Event>): (res: (Server, seq<Delivery>))
    requires Inv(s)
    ensures Inv(res.0)
    decreases |events|
  {
    if events == [] then (s, [])
    else
      var (next, sent) := Step(s, events[0]);
      var (last, later) := Run(next, events[1..]);
      (last, sent + later)
  }

  lemma RunCons(s: Server, e: Event, rest: seq<Event>)
    requires Inv(s)
    ensures Run(s, [e] + rest)
         == (Run(Step(s, e).0, rest).0, Step(s, e).1 + Run(Step(s, e).0, rest).1)
  {
    assert ([e] + rest)[0] == e && ([e] + rest)[1..] == rest;
  }

  lemma Associative<T>(x: seq<T>, y: seq<T>, z: seq<T>)
    ensures x + (y + z) == (x + y) + z
  {
  }

  lemma AppendEmpty<T>(x: seq<T>)
    ensures x + [] == x
  {
  }

  lemma RunEmptyThen(s: Server, b: seq<Event>)
    requires Inv(s)
    ensures Run(s, [] + b) == (Run(Run(s, []).0, b).0, Run(s, []).1 + Run(Run(s, []).0, b).1)
  {
    assert [] + b == b;
    assert [] + Run(s, b).1 == Run(s, b).1;
  }

  /** The inductive step of `RunAppend`: composing after the first event. */
  lemma RunConsThen(s: Server, e: Event, rest: seq<Event>, b: seq<Event>)
    requires Inv(s)
    requires var next := Step(s, e).0;
      Run(next, rest + b) == (Run(Run(next, rest).0, b).0, Run(next, rest).1 + Run(Run(next, rest).0, b).1)
    ensures Run(s, [e] + rest + b)
         == (Run(Run(s, [e] + rest).0, b).0, Run(s, [e] + rest).1 + Run(Run(s, [e] + rest).0, b).1)
  {
    RunCons(s, e, rest);
    Associative([e], rest, b);
    RunCons(s, e, rest + b);
    var mid := Run(Step(s, e).0, rest);
    Associative(Step(s, e).1, mid.1, Run(mid.0, b).1);
  }

  /** Runs compose: running `a` then `b` is running `a + b`, and the frames
      sent are those of the first part followed by those of the second. */
  lemma {:induction false} RunAppend(s: Server, a: seq<Event>, b: seq<Event>)
    requires Inv(s)
    ensures Run(s, a + b) == (Run(Run(s, a).0, b).0, Run(s, a).1 + Run(Run(s, a).0, b).1)
    decreases |a|
  {
    if a == [] {
      RunEmptyThen(s, b);
    } else {
      assert a == [a[0]] + a[1..];
      RunAppend(Step(s, a[0]).0, a[1..], b);
      RunConsThen(s, a[0], a[1..], b);
    }
  }

  /** A run of one event is that event's step. */
  lemma RunOne(s: Server, e: Event)
    requires Inv(s)
    ensures Run(s, [e]) == Step(s, e)
  {
    AppendEmpty([e]);
    RunCons(s, e, []);
    AppendEmpty(Step(s, e).1);
  }

  lemma SplitThree<T>(a: T, b: T, c: T)
    ensures [a, b, c] == [a] + ([b] + [c])
  {
  }

  /** A run of three events, given the state and frames of each step. */
  lemma RunThree(s: Server, a: Event, b: Event, c: Event, s1: Server, s2: Server, s3: Server,
                 o1: seq<Delivery>, o2: seq<Delivery>, o3: seq<Delivery>)
    requires Inv(s) && Step(s, a) == (s1, o1) && Step(s1, b) == (s2, o2) && Step(s2, c) == (s3, o3)
    ensures Run(s, [a, b, c]) == (s3, o1 + o2 + o3)
  {
    SplitThree(a, b, c);
    RunOne(s2, c);
    RunCons(s1, b, [c]);
    RunCons(s, a, [b] + [c]);
    Associative(o1, o2, o3);
  }

  /** Every state reached from the empty relay satisfies the invariant; in
      particular no room entry is ever an empty set. */
  lemma ReachableStatesKeepInv(events: seq<Event>)
    ensures Inv(Run(Initial, events).0)
    ensures forall k :: k in Run(Initial, events).0.rooms ==> Run(Initial, events).0.rooms[k] != []
  {
    InitialInv();
  }

  /** A connection that joins "a", then "b", then closes stays a member of "a":
      a join does not leave the previous room and close leaves only the current one. */
  lemma RejoinThenCloseLeavesStaleMember(now: int)
    ensures Run(Initial, RejoinEvents(now)).0 == Server(map["a" := [1]], map[], map[])
  {
    var joinA := Message(1, JoinRequest(Some("a")), now, {});
    var joinB := Message(1, JoinRequest(Some("b")), now, {});
    FirstOpen(now);
    RejoinStep2(now);
    RejoinStep3(now);
    RejoinStep4(now);
    RunThree(Initial, Open(1, now), joinA, joinB, OneConnection(now), InRoomA(now), InRoomsAB(now), [], [], []);
    RunOne(InRoomsAB(now), Close(1));
    RunAppend(Initial, [Open(1, now), joinA, joinB], [Close(1)]);
  }

  /** Connection 1 opens, joins "a", joins "b" and closes. */
  function RejoinEvents(now: int): seq<Event>
  {
    [Open(1, now), Message(1, JoinRequest(Some("a")), now, {}), Message(1, JoinRequest(Some("b")), now, {})]
    + [Close(1)]
  }

  lemma RejoinStep2(now: int)
    ensures var s := OneConnection(now);
      Inv(s) && Step(s, Message(1, JoinRequest(Some("a")), now, {}))
                == (Server(map["a" := [1]], s.limiters, map[1 := Named("a")]), [])
  {
    var s := OneConnection(now);
    assert AddMember([], 1) == [1];
    assert AddToRoom(s.rooms, "a", 1) == map["a" := [1]];
    assert s.roomOf[1 := Named("a")] == map[1 := Named("a")];
  }

  lemma RejoinStep3(now: int)
    ensures var s := InRoomA(now);
      Inv(s) && Step(s, Message(1, JoinRequest(Some("b")), now, {}))
                == (Server(map["a" := [1], "b" := [1]], s.limiters, map[1 := Named("b")]), [])
  {
    var s := InRoomA(now);
    assert AddMember([], 1) == [1];
    assert AddToRoom(s.rooms, "b", 1) == map["a" := [1], "b" := [1]];
    assert s.roomOf[1 := Named("b")] == map[1 := Named("b")];
  }

  lemma RejoinStep4(now: int)
    ensures var s := InRoomsAB(now);
      Inv(s) && Step(s, Close(1)) == (Server(map["a" := [1]], map[], map[]), [])
  {
    assert RemoveMember([1], 1) == [] + RemoveMember([], 1);
    assert map["a" := [1], "b" := [1]] - {"b"} == map["a" := [1]];
    assert map[1 := Bucket(BUCKET_CAPACITY, now)] - {1} == map[];
    assert map[1 := Named("b")] - {1} == map[];
  }

  function Repeat(e: Event, n: nat): (events: seq<Event>)
    ensures |events| == n
  {
    if n == 0 then [] else [e] + Repeat(e, n - 1)
  }

  /** The frames expected from `n` identical chats sent at one instant by a
      sender holding `k` tokens: a broadcast while tokens last, then the error. */
  function BurstReplies(c: ConnId, members: seq<ConnId>, open: set<ConnId>, frame: Frame,
                        k: nat, n: nat): seq<Delivery>
    requires frame.ChatFrame?
  {
    if n == 0 then []
    else if k > 0 then Deliveries(members, open, frame) + BurstReplies(c, members, open, frame, k - 1, n - 1)
    else [(c, ErrorFrame(RateLimitExceeded, frame.user))] + BurstReplies(c, members, open, frame, 0, n - 1)
  }

  /** At one instant a joined sender holding `k` whole tokens gets exactly its
      first `k` messages broadcast; every later one is refused. */
  lemma {:induction false} ChatsAtOneInstant(s: Server, c: ConnId, user: Option<string>, text: string,
                                             now: int, open: set<ConnId>, k: nat, n: nat)
    requires Inv(s) && c in s.roomOf && Truthy(s.roomOf[c]) && !TextRejected(Some(text))
    requires s.limiters[c] == Bucket(k as real, now)
    ensures Run(s, Repeat(Message(c, ChatRequest(user, Some(text)), now, open), n)).1
         == BurstReplies(c, s.rooms[s.roomOf[c].id], open, ChatFrame(DisplayName(user), Sanitize(text)), k, n)
    decreases n
  {
    if n > 0 {
      var e := Message(c, ChatRequest(user, Some(text)), now, open);
      var (next, sent) := Step(s, e);
      assert Refilled(s.limiters[c], now).tokens == k as real;
      var k' := if k > 0 then k - 1 else 0;
      assert next.rooms == s.rooms && next.roomOf == s.roomOf;
      assert next.limiters[c] == Bucket(k' as real, now);
      ChatsAtOneInstant(next, c, user, text, now, open, k', n - 1);
      RunCons(s, e, Repeat(e, n - 1));
    }
  }

  /** An oversized message costs no token: from a full bucket, after it is
      refused, five messages at the same instant are still broadcast and only
      the sixth is refused for the rate. */
  lemma OversizedMessageIsFree(s: Server, c: ConnId, user: Option<string>, long: string, text: string,
                               now: int, open: set<ConnId>)
    requires Inv(s) && c in s.roomOf && Truthy(s.roomOf[c])
    requires |long| > MAX_MESSAGE_LENGTH && !TextRejected(Some(text))
    requires s.limiters[c] == Bucket(BUCKET_CAPACITY, now)
    ensures var broadcast := Deliveries(s.rooms[s.roomOf[c].id], open, ChatFrame(DisplayName(user), Sanitize(text)));
      Run(s, [Message(c, ChatRequest(user, Some(long)), now, open)]
             + Repeat(Message(c, ChatRequest(user, Some(text)), now, open), 6)).1
      == [(c, ErrorFrame(MessageTooLong, DisplayName(user)))]
         + (broadcast + broadcast + broadcast + broadcast + broadcast
            + [(c, ErrorFrame(RateLimitExceeded, DisplayName(user)))])
  {
    var e := Message(c, ChatRequest(user, Some(long)), now, open);
    var valid := Repeat(Message(c, ChatRequest(user, Some(text)), now, open), 6);
    var frame := ChatFrame(DisplayName(user), Sanitize(text));
    var members := s.rooms[s.roomOf[c].id];
    var tooLong := [(c, ErrorFrame(MessageTooLong, DisplayName(user)))];
    StepRejectedText(s, c, user, Some(long), now, open);
    FullBucketReplies(s, c, user, text, now, open);
    RunCons(s, e, valid);
  }

  /** From a full bucket at one instant, six identical chats: the first five
      are broadcast to the room and the sixth is refused for the rate. */
  lemma FullBucketReplies(s: Server, c: ConnId, user: Option<string>, text: string,
                          now: int, open: set<ConnId>)
    requires Inv(s) && c in s.roomOf && Truthy(s.roomOf[c]) && !TextRejected(Some(text))
    requires s.limiters[c] == Bucket(BUCKET_CAPACITY, now)
    ensures var b := Deliveries(s.rooms[s.roomOf[c].id], open, ChatFrame(DisplayName(user), Sanitize(text)));
      Run(s, Repeat(Message(c, ChatRequest(user, Some(text)), now, open), 6)).1
      == b + b + b + b + b + [(c, ErrorFrame(RateLimitExceeded, DisplayName(user)))]
  {
    var frame := ChatFrame(DisplayName(user), Sanitize(text));
    ChatsAtOneInstant(s, c, user, text, now, open, 5, 6);
    FiveThenRefusal(c, s.rooms[s.roomOf[c].id], open, frame);
  }

  /** The expected replies for five tokens and six messages, written out. */
  lemma FiveThenRefusal(c: ConnId, members: seq<ConnId>, open: set<ConnId>, frame: Frame)
    requires frame.ChatFrame?
    ensures var b := Deliveries(members, open, frame);
      BurstReplies(c, members, open, frame, 5, 6)
      == b + b + b + b + b + [(c, ErrorFrame(RateLimitExceeded, frame.user))]
  {
    var b := Deliveries(members, open, frame);
    var refused := [(c, ErrorFrame(RateLimitExceeded, frame.user))];
    assert BurstReplies(c, members, open, frame, 0, 0) == [];
    assert BurstReplies(c, members, open, frame, 0, 1) == refused;
    assert BurstReplies(c, members, open, frame, 1, 2) == b + refused;
    assert BurstReplies(c, members, open, frame, 2, 3) == b + (b + refused);
    assert BurstReplies(c, members, open, frame, 3, 4) == b + (b + (b + refused));
    assert BurstReplies(c, members, open, frame, 4, 5) == b + (b + (b + (b + refused)));
    assert BurstReplies(c, members, open, frame, 5, 6) == b + (b + (b + (b + (b + refused))));
  }

  lemma StepRejectedText(s: Server, c: ConnId, user: Option<string>, text: Option<string>,
                         now: int, open: set<ConnId>)
    requires Inv(s) && c in s.roomOf && Truthy(s.roomOf[c]) && TextRejected(text)
    ensures Step(s, Message(c, ChatRequest(user, text), now, open))
         == (s, [(c, ErrorFrame(MessageTooLong, DisplayName(user)))])
  {
    RejectedTextIsFree(s, c, user, text, now, open);
  }

  /** Two connections join "lobby" and a third joins "other"; when the first
      sends "hi" as "alice", the two lobby members, the sender included, get
      the chat frame and the third connection gets nothing. */
  lemma LobbyConversation(now: int)
    ensures Run(Initial, LobbyEvents(now)).1
         == [(1, ChatFrame("alice", "hi")), (2, ChatFrame("alice", "hi"))]
  {
    var chat := Message(1, ChatRequest(Some("alice"), Some("hi")), now, {1, 2, 3});
    var frames := [(1, ChatFrame("alice", "hi")), (2, ChatFrame("alice", "hi"))];
    LobbySetup(now);
    LobbyStep7(now);
    RunOne(LobbyState6(now), chat);
    RunAppend(Initial, LobbyOpens(now) + LobbyJoins(now), [chat]);
    NoFramesThen(frames);
  }

  lemma NoFramesThen(frames: seq<Delivery>)
    ensures [] + frames == frames
  {
  }

  /** The lobby run up to the chat: the three connections are open and have joined, and nothing was sent. */
  lemma LobbySetup(now: int)
    ensures Run(Initial, LobbyOpens(now) + LobbyJoins(now)) == (LobbyState6(now), [])
  {
    LobbyOpened(now);
    LobbyJoined(now);
    RunAppend(Initial, LobbyOpens(now), LobbyJoins(now));
    NoFramesThen([]);
  }

  lemma LobbyOpened(now: int)
    ensures Inv(LobbyState3(now))
    ensures Run(Initial, LobbyOpens(now)) == (LobbyState3(now), [])
  {
    FirstOpen(now);
    LobbyStep2(now);
    LobbyStep3(now);
    RunThree(Initial, Open(1, now), Open(2, now), Open(3, now),
             OneConnection(now), LobbyState2(now), LobbyState3(now), [], [], []);
    var none: seq<Delivery> := [];
    assert none + none + none == none;
  }

  lemma LobbyJoined(now: int)
    ensures Inv(LobbyState3(now))
    ensures Run(LobbyState3(now), LobbyJoins(now)) == (LobbyState6(now), [])
  {
    LobbyStep4(now);
    LobbyStep5(now);
    LobbyStep6(now);
    RunThree(LobbyState3(now), Message(1, JoinRequest(Some("lobby")), now, {1, 2, 3}),
             Message(2, JoinRequest(Some("lobby")), now, {1, 2, 3}), Message(3, JoinRequest(Some("other")), now, {1, 2, 3}),
             LobbyState4(now), LobbyState5(now), LobbyState6(now), [], [], []);
    var none: seq<Delivery> := [];
    assert none + none + none == none;
  }

  /** The lobby run: three connections open, join "lobby", "lobby" and
      "other", then the first one sends "hi" as "alice". */
  function LobbyEvents(now: int): seq<Event>
  {
    LobbyOpens(now) + LobbyJoins(now) + [Message(1, ChatRequest(Some("alice"), Some("hi")), now, {1, 2, 3})]
  }

  function LobbyOpens(now: int): seq<Event>
  {
    [Open(1, now), Open(2, now), Open(3, now)]
  }

  function LobbyJoins(now: int): seq<Event>
  {
    [Message(1, JoinRequest(Some("lobby")), now, {1, 2, 3}),
     Message(2, JoinRequest(Some("lobby")), now, {1, 2, 3}),
     Message(3, JoinRequest(Some("other")), now, {1, 2, 3})]
  }

  /** The first connection of an empty relay. */
  lemma FirstOpen(now: int)
    ensures Inv(Initial)
    ensures Step(Initial,
                 Open(1, now))
         == (OneConnection(now),
             [])
  {
  }

  lemma LobbyStep2(now: int)
    ensures Inv(OneConnection(now))
    ensures Step(OneConnection(now),
                 Open(2, now))
         == (LobbyState2(now),
             [])
  {
    assert map[1 := Bucket(BUCKET_CAPACITY, now)][2 := Bucket(BUCKET_CAPACITY, now)] == map[1 := Bucket(BUCKET_CAPACITY, now), 2 := Bucket(BUCKET_CAPACITY, now)];
    assert map[1 := Null][2 := Null] == map[1 := Null, 2 := Null];
  }

  lemma LobbyStep3(now: int)
    ensures Inv(LobbyState2(now))
    ensures Step(LobbyState2(now),
                 Open(3, now))
         == (LobbyState3(now),
             [])
  {
    assert map[1 := Bucket(BUCKET_CAPACITY, now), 2 := Bucket(BUCKET_CAPACITY, now)][3 := Bucket(BUCKET_CAPACITY, now)] == map[1 := Bucket(BUCKET_CAPACITY, now), 2 := Bucket(BUCKET_CAPACITY, now), 3 := Bucket(BUCKET_CAPACITY, now)];
    assert map[1 := Null, 2 := Null][3 := Null] == map[1 := Null, 2 := Null, 3 := Null];
  }

  lemma LobbyStep4(now: int)
    ensures Inv(LobbyState3(now))
    ensures Step(LobbyState3(now),
                 Message(1, JoinRequest(Some("lobby")), now, {1, 2, 3}))
         == (LobbyState4(now),
             [])
  {
    assert AddMember([], 1) == [1];
    assert AddToRoom(map[], "lobby", 1) == map["lobby" := [1]];
    assert map[1 := Null, 2 := Null, 3 := Null][1 := Named("lobby")] == map[1 := Named("lobby"), 2 := Null, 3 := Null];
  }

  lemma LobbyStep5(now: int)
    ensures Inv(LobbyState4(now))
    ensures Step(LobbyState4(now),
                 Message(2, JoinRequest(Some("lobby")), now, {1, 2, 3}))
         == (LobbyState5(now),
             [])
  {
    assert AddMember([1], 2) == [1, 2];
    assert AddToRoom(map["lobby" := [1]], "lobby", 2) == map["lobby" := [1, 2]];
    assert map[1 := Named("lobby"), 2 := Null, 3 := Null][2 := Named("lobby")] == map[1 := Named("lobby"), 2 := Named("lobby"), 3 := Null];
  }

  lemma LobbyStep6(now: int)
    ensures Inv(LobbyState5(now))
    ensures Step(LobbyState5(now),
                 Message(3, JoinRequest(Some("other")), now, {1, 2, 3}))
         == (LobbyState6(now),
             [])
  {
    assert AddMember([], 3) == [3];
    assert AddToRoom(map["lobby" := [1, 2]], "other", 3) == map["lobby" := [1, 2], "other" := [3]];
    assert map[1 := Named("lobby"), 2 := Named("lobby"), 3 := Null][3 := Named("other")] == map[1 := Named("lobby"), 2 := Named("lobby"), 3 := Named("other")];
  }

  lemma LobbyStep7(now: int)
    ensures Inv(LobbyState6(now))
    ensures Step(LobbyState6(now),
                 Message(1, ChatRequest(Some("alice"), Some("hi")), now, {1, 2, 3}))
         == (LobbyState7(now),
             [(1, ChatFrame("alice", "hi")), (2, ChatFrame("alice", "hi"))])
  {
    var s := LobbyState6(now);
    var msg := ChatRequest(Some("alice"), Some("hi"));
    LobbyInv6(now);
    assert s.roomOf[1] == Named("lobby");
    assert Step(s, Message(1, msg, now, {1, 2, 3})) == Received(s, 1, msg, now, {1, 2, 3});
    LobbyChat(now);
  }

  /** The chat step of the lobby run, before `Step` and `Received` dispatch to it. */
  lemma LobbyChat(now: int)
    ensures Inv(LobbyState6(now))
    ensures ChatReceived(LobbyState6(now), 1, Some("alice"), Some("hi"), now, {1, 2, 3})
         == (LobbyState7(now),
             [(1, ChatFrame("alice", "hi")), (2, ChatFrame("alice", "hi"))])
  {
    LobbyInv6(now);
    LobbySender6(now);
    var s := LobbyState6(now);
    var frame := ChatFrame("alice", "hi");
    assert DisplayName(Some("alice")) == "alice";
    HiIsPlain("hi");
    LobbyConsume(now);
    LobbyDeliveries(frame);
    ChatAccepted(s, 1, Some("alice"), Some("hi"), now, {1, 2, 3}, Bucket(4.0, now));
  }

  /** The sender of the lobby chat: in "lobby" with [1, 2], holding a full bucket. */
  lemma LobbySender6(now: int)
    ensures var s := LobbyState6(now);
      && 1 in s.roomOf && Truthy(s.roomOf[1]) && RoomKey(s.roomOf[1]) == "lobby"
      && "lobby" in s.rooms && s.rooms["lobby"] == [1, 2]
      && s.limiters[1] == Bucket(BUCKET_CAPACITY, now)
  {
  }

  /** A chat that passes both checks: the sender's bucket is the spent one and
      the frames are the broadcast of the sanitized text. */
  lemma ChatAccepted(s: Server, c: ConnId, user: Option<string>, text: Option<string>,
                     now: int, open: set<ConnId>, bucket: Bucket)
    requires Inv(s) && c in s.roomOf && Truthy(s.roomOf[c])
    requires text.Some? && 0 < |text.value| <= MAX_MESSAGE_LENGTH
    requires Consumed(s.limiters[c], now) == (true, bucket)
    ensures ChatReceived(s, c, user, text, now, open)
         == (s.(limiters := s.limiters[c := bucket]),
             Deliveries(s.rooms[RoomKey(s.roomOf[c])], open, ChatFrame(DisplayName(user), Sanitize(text.value))))
  {
  }

  lemma LobbyInv6(now: int)
    ensures Inv(LobbyState6(now))
  {
    var s := LobbyState6(now);
    assert NoDup([1, 2]) && NoDup([3]);
    assert s.roomOf.Keys == {1, 2, 3} == s.limiters.Keys;
  }

  lemma HiIsPlain(t: string)
    requires t == "hi"
    ensures Sanitize(t) == t
  {
    SanitizeFixedPoint(t);
  }

  lemma LobbyConsume(now: int)
    ensures Consumed(Bucket(BUCKET_CAPACITY, now), now) == (true, Bucket(4.0, now))
    ensures LobbyState6(now).limiters[1 := Bucket(4.0, now)] == LobbyState7(now).limiters
  {
  }

  lemma LobbyDeliveries(frame: Frame)
    ensures Deliveries([1, 2], {1, 2, 3}, frame) == [(1, frame), (2, frame)]
  {
    var members: seq<ConnId> := [1, 2];
    DeliveriesAllOpen(members, {1, 2, 3}, frame);
    var out := Deliveries(members, {1, 2, 3}, frame);
    assert |out| == 2 && out[0] == (1, frame) && out[1] == (2, frame);
  }

  /** Connection 1 has joined "a". */
  function InRoomA(now: int): Server
  {
    Server(map["a" := [1]], map[1 := Bucket(BUCKET_CAPACITY, now)], map[1 := Named("a")])
  }

  /** Connection 1 has joined "a", then "b". */
  function InRoomsAB(now: int): Server
  {
    Server(map["a" := [1], "b" := [1]], map[1 := Bucket(BUCKET_CAPACITY, now)], map[1 := Named("b")])
  }

  /** Connection 1 is open and has joined nothing. */
  function OneConnection(now: int): Server
  {
    Server(map[], map[1 := Bucket(BUCKET_CAPACITY, now)], map[1 := Null])
  }

  function LobbyState2(now: int): Server
  {
    Server(map[], map[1 := Bucket(BUCKET_CAPACITY, now), 2 := Bucket(BUCKET_CAPACITY, now)], map[1 := Null, 2 := Null])
  }

  function LobbyState3(now: int): Server
  {
    Server(map[], map[1 := Bucket(BUCKET_CAPACITY, now), 2 := Bucket(BUCKET_CAPACITY, now), 3 := Bucket(BUCKET_CAPACITY, now)], map[1 := Null, 2 := Null, 3 := Null])
  }

  function LobbyState4(now: int): Server
  {
    Server(map["lobby" := [1]], map[1 := Bucket(BUCKET_CAPACITY, now), 2 := Bucket(BUCKET_CAPACITY, now), 3 := Bucket(BUCKET_CAPACITY, now)], map[1 := Named("lobby"), 2 := Null, 3 := Null])
  }

  function LobbyState5(now: int): Server
  {
    Server(map["lobby" := [1, 2]], map[1 := Bucket(BUCKET_CAPACITY, now), 2 := Bucket(BUCKET_CAPACITY, now), 3 := Bucket(BUCKET_CAPACITY, now)], map[1 := Named("lobby"), 2 := Named("lobby"), 3 := Null])
  }

  function LobbyState6(now: int): Server
  {
    Server(map["lobby" := [1, 2], "other" := [3]], map[1 := Bucket(BUCKET_CAPACITY, now), 2 := Bucket(BUCKET_CAPACITY, now), 3 := Bucket(BUCKET_CAPACITY, now)], map[1 := Named("lobby"), 2 := Named("lobby"), 3 := Named("other")])
  }

  function LobbyState7(now: int): Server
  {
    Server(map["lobby" := [1, 2], "other" := [3]], map[1 := Bucket(4.0, now), 2 := Bucket(BUCKET_CAPACITY, now), 3 := Bucket(BUCKET_CAPACITY, now)], map[1 := Named("lobby"), 2 := Named("lobby"), 3 := Named("other")])
  }
}
