/** The relay as the server process holds it: the `rooms` object, the
    `rateLimiters` map of `TokenBucket` objects and each connection's `room`
    variable, updated in place by the `connection`, `message` and `close`
    handlers. Each handler is proved to move the state exactly as the
    functions of the `Relay` module say. */
module Handlers {
  import opened Wrappers
  import opened Sanitizer
  import opened RateLimit
  import opened Rooms
  import opened Relay

  /** The broadcast loop: send `frame` to each member whose socket is open. */
  method Broadcast(members: seq<ConnId>, open: set<ConnId>, frame: Frame) returns (out: seq<Delivery>)
    ensures out == Deliveries(members, open, frame)
    ensures forall m :: (m, frame) in out <==> m in members && m in open
  {
    out := [];
    for i := 0 to |members|
      invariant out == Deliveries(members[..i], open, frame)
    {
      assert members[..i + 1][..i] == members[..i];
      if members[i] in open {
        out := out + [(members[i], frame)];
      }
    }
    assert members[..|members|] == members;
  }

  class ChatServer {
    /** The `rooms` object: room key to member set. */
    var rooms: Registry
    /** The `rateLimiters` map: one bucket per live connection. */
    var rateLimiters: map<ConnId, TokenBucket>
    /** The `room` variable of each live connection's handler closure. */
    var roomOf: map<ConnId, RoomRef>

    ghost function Limiters(): map<ConnId, Bucket>
      reads this, rateLimiters.Values
    {
      map c | c in rateLimiters :: rateLimiters[c].State()
    }

    /** The relay state this object holds. */
    ghost function Abs(): Server
      reads this, rateLimiters.Values
    {
      Server(rooms, Limiters(), roomOf)
    }

    /** The state invariant, and no two connections sharing one bucket. */
    ghost predicate Valid()
      reads this, rateLimiters.Values
    {
      && Inv(Abs())
      && (forall c, d :: c in rateLimiters && d in rateLimiters && c != d ==>
            rateLimiters[c] != rateLimiters[d])
    }

    constructor ()
      ensures Valid() && Abs() == Initial
    {
      rooms := map[];
      rateLimiters := map[];
      roomOf := map[];
      InitialInv();
    }

    /** The `connection` handler: `room` starts as `null` and the connection
        gets a new full bucket. */
    method OnConnect(c: ConnId, now: int)
      requires Valid()
      modifies this
      ensures Valid()
      ensures Abs() == Connected(old(Abs()), c, now)
      ensures c in rateLimiters && fresh(rateLimiters[c])
    {
      ghost var before := Abs();
      var limiter := new TokenBucket(now);
      rateLimiters := rateLimiters[c := limiter];
      roomOf := roomOf[c := Null];
      assert Limiters() == before.limiters[c := Bucket(BUCKET_CAPACITY, now)];
      assert Abs() == Connected(before, c, now);
      ConnectedPreservesInv(before, c, now);
      forall x, y | x in rateLimiters && y in rateLimiters && x != y
        ensures rateLimiters[x] != rateLimiters[y]
      {
        if x != c && y != c {
          assert rateLimiters[x] == old(rateLimiters)[x] && rateLimiters[y] == old(rateLimiters)[y];
        }
      }
    }

    /** The `message` handler: join a room, or relay a chat message after the
        length and rate checks. */
    method OnMessage(c: ConnId, msg: Inbound, now: int, open: set<ConnId>) returns (out: seq<Delivery>)
      requires Valid() && c in roomOf
      modifies this, rateLimiters.Values
      ensures Valid()
      ensures rateLimiters == old(rateLimiters)
      ensures (Abs(), out) == Received(old(Abs()), c, msg, now, open)
    {
      match msg
      case JoinRequest(url) =>
        Join(c, url);
        out := [];
      case ChatRequest(user, text) =>
        if Truthy(roomOf[c]) {
          out := Chat(c, user, text, now, open);
        } else {
          out := [];
        }
      case Unrecognised =>
        out := [];
    }

    /** A `join` message: `room` becomes the url and the connection is added
        to that room, created if missing. */
    method Join(c: ConnId, url: Option<string>)
      requires Valid() && c in roomOf
      modifies this
      ensures Valid()
      ensures rateLimiters == old(rateLimiters)
      ensures Abs() == old(Abs()).(rooms := AddToRoom(old(rooms), RoomKey(RoomOfUrl(url)), c),
                                    roomOf := old(roomOf)[c := RoomOfUrl(url)])
    {
      ghost var before := Abs();
      ReceivedPreservesInv(before, c, JoinRequest(url), 0, {});
      var room := RoomOfUrl(url);
      rooms := AddToRoom(rooms, RoomKey(room), c);
      roomOf := roomOf[c := room];
      assert Limiters() == before.limiters;
    }

    /** A `chat` message from a connection whose `room` is truthy. */
    method Chat(c: ConnId, user: Option<string>, text: Option<string>, now: int, open: set<ConnId>)
      returns (out: seq<Delivery>)
      requires Valid() && c in roomOf && Truthy(roomOf[c])
      modifies this, rateLimiters.Values
      ensures Valid()
      ensures rateLimiters == old(rateLimiters)
      ensures (Abs(), out) == ChatReceived(old(Abs()), c, user, text, now, open)
    {
      ghost var before := Abs();
      var name := DisplayName(user);
      if TextRejected(text) {
        assert ChatReceived(before, c, user, text, now, open) == (before, [(c, ErrorFrame(MessageTooLong, name))]);
        return [(c, ErrorFrame(MessageTooLong, name))];
      }
      out := Admit(c, user, text, now, open);
    }

    /** A chat message whose text passed the length check: the rate check,
        then the broadcast of the sanitized text. */
    method Admit(c: ConnId, user: Option<string>, text: Option<string>, now: int, open: set<ConnId>)
      returns (out: seq<Delivery>)
      requires Valid() && c in roomOf && Truthy(roomOf[c]) && !TextRejected(text)
      modifies rateLimiters.Values
      ensures Valid()
      ensures rateLimiters == old(rateLimiters)
      ensures (Abs(), out) == ChatReceived(old(Abs()), c, user, text, now, open)
    {
      ghost var before := Abs();
      var name := DisplayName(user);
      var ok := Spend(c, now);
      ghost var (spent, bucket) := Consumed(before.limiters[c], now);
      ghost var after := before.(limiters := before.limiters[c := bucket]);
      assert ok == spent && Abs() == after;
      if !ok {
        return [(c, ErrorFrame(RateLimitExceeded, name))];
      }
      var safeText := Sanitize(text.value);
      var members := rooms[RoomKey(roomOf[c])];
      out := Broadcast(members, open, ChatFrame(name, safeText));
    }

    /** The rate check of a chat message: `tryConsume` on the connection's
        own bucket, leaving every other bucket as it was. */
    method Spend(c: ConnId, now: int) returns (ok: bool)
      requires Valid() && c in roomOf
      modifies rateLimiters.Values
      ensures Valid()
      ensures rateLimiters == old(rateLimiters) && rooms == old(rooms) && roomOf == old(roomOf)
      ensures (ok, Limiters()[c]) == Consumed(old(Limiters())[c], now)
      ensures Limiters() == old(Limiters())[c := Consumed(old(Limiters())[c], now).1]
    {
      ghost var before := Abs();
      var limiter := rateLimiters[c];
      ok := limiter.TryConsume(now);
      assert Limiters() == before.limiters[c := limiter.State()];
      assert Abs() == before.(limiters := before.limiters[c := limiter.State()]);
      ConsumedKeepsInv(before, c, now);
    }

    /** The `close` handler: leave the current room when `room` is truthy and
        the room still exists, then drop the connection's bucket. */
    method OnClose(c: ConnId)
      requires Valid() && c in roomOf
      modifies this
      ensures Valid()
      ensures Abs() == Closed(old(Abs()), c)
    {
      ghost var before := Abs();
      var room := roomOf[c];
      if Truthy(room) && room.id in rooms {
        rooms := RemoveFromRoom(rooms, room.id, c);
      }
      rateLimiters := rateLimiters - {c};
      roomOf := roomOf - {c};
      assert Limiters() == before.limiters - {c};
      ClosedPreservesInv(before, c);
    }
  }
}
