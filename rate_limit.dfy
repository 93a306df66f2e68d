/**
 * The per-connection fixed-rate token bucket of server.js (`TokenBucket`).
 * Times are milliseconds, as `Date.now()` returns them; the clock is a
 * parameter of each operation. Token counts are exact reals.
 */
module RateLimit {

  /** Maximum tokens a connection can hold. */
  const BUCKET_CAPACITY: real := 5.0
  /** Tokens regained per second. */
  const REFILL_RATE: real := 1.0

  /** A snapshot of a bucket's two fields. */
  datatype Bucket = Bucket(tokens: real, lastRefill: int)

  function Min(a: real, b: real): real
  {
    if a <= b then a else b
  }

  /** Seconds since the last refill; negative if the clock went back. */
  function Elapsed(b: Bucket, now: int): (seconds: real)
    ensures seconds * 1000.0 == (now - b.lastRefill) as real
    ensures b.lastRefill <= now <==> 0.0 <= seconds
  {
    (now - b.lastRefill) as real / 1000.0
  }

  /** The bucket after `refill()` at time `now`. */
  function Refilled(b: Bucket, now: int): (r: Bucket)
    ensures r.lastRefill == now
    ensures r.tokens <= BUCKET_CAPACITY
    ensures r.tokens <= b.tokens + Elapsed(b, now) * REFILL_RATE
    ensures r.tokens == BUCKET_CAPACITY || r.tokens == b.tokens + Elapsed(b, now) * REFILL_RATE
    ensures b.lastRefill <= now && b.tokens <= BUCKET_CAPACITY ==> b.tokens <= r.tokens
    ensures now < b.lastRefill && b.tokens <= BUCKET_CAPACITY ==> r.tokens < b.tokens
  {
    Bucket(Min(BUCKET_CAPACITY, b.tokens + Elapsed(b, now) * REFILL_RATE), now)
  }

  /** `tryConsume()` at time `now`: whether a token was taken, and the bucket after. */
  function Consumed(b: Bucket, now: int): (res: (bool, Bucket))
    ensures res.0 <==> Refilled(b, now).tokens >= 1.0
    ensures res.1.lastRefill == now
    ensures res.1.tokens == Refilled(b, now).tokens - (if res.0 then 1.0 else 0.0)
    ensures res.1.tokens <= BUCKET_CAPACITY
    ensures 0.0 <= b.tokens && b.lastRefill <= now ==> 0.0 <= res.1.tokens
  {
    var r := Refilled(b, now);
    if r.tokens >= 1.0 then (true, Bucket(r.tokens - 1.0, now)) else (false, r)
  }

  /** The outcomes of `n` consecutive `tryConsume()` calls, all at time `now`. */
  function ConsumeRun(b: Bucket, now: int, n: nat): (oks: seq<bool>)
    ensures |oks| == n
    decreases n
  {
    if n == 0 then []
    else
      var (ok, next) := Consumed(b, now);
      [ok] + ConsumeRun(next, now, n - 1)
  }

  /** With no time passing, call number `i` (from 0) succeeds exactly when the
      bucket held at least `i + 1` tokens: at most that many calls get through. */
  lemma {:induction false} RunAtInstant(b: Bucket, n: nat)
    requires b.tokens <= BUCKET_CAPACITY
    ensures forall i :: 0 <= i < n ==> ConsumeRun(b, b.lastRefill, n)[i] == (b.tokens >= (i + 1) as real)
    decreases n
  {
    if n > 0 {
      var now := b.lastRefill;
      var (ok, next) := Consumed(b, now);
      assert Refilled(b, now).tokens == b.tokens;
      RunAtInstant(next, n - 1);
      var run := ConsumeRun(b, now, n);
      assert run == [ok] + ConsumeRun(next, now, n - 1);
      forall i | 0 <= i < n
        ensures run[i] == (b.tokens >= (i + 1) as real)
      {
        if i > 0 {
          assert run[i] == ConsumeRun(next, now, n - 1)[i - 1];
        }
      }
    }
  }

  /** A new bucket lets exactly five messages through at one instant, then refuses the sixth. */
  lemma FreshBucketBurst(now: int)
    ensures ConsumeRun(Bucket(BUCKET_CAPACITY, now), now, 6) == [true, true, true, true, true, false]
  {
    var run := ConsumeRun(Bucket(BUCKET_CAPACITY, now), now, 6);
    RunAtInstant(Bucket(BUCKET_CAPACITY, now), 6);
    assert run[0] && run[1] && run[2] && run[3] && run[4] && !run[5];
  }

  /** How many of a series of `tryConsume()` calls, at the given times, succeed. */
  function Successes(b: Bucket, times: seq<int>): nat
    decreases |times|
  {
    if times == [] then 0
    else
      var (ok, next) := Consumed(b, times[0]);
      (if ok then 1 else 0) + Successes(next, times[1..])
  }

  /** The rate bound: over any series of calls made as the clock moves forward,
      the successes never exceed the tokens held at the start plus one per
      second up to the last call. */
  lemma {:induction false} SuccessesBounded(b: Bucket, times: seq<int>)
    requires |times| > 0 && 0.0 <= b.tokens && b.lastRefill <= times[0]
    requires forall i, j :: 0 <= i < j < |times| ==> times[i] <= times[j]
    ensures Successes(b, times) as real
         <= b.tokens + Elapsed(b, times[|times| - 1]) * REFILL_RATE
    decreases |times|
  {
    var (ok, next) := Consumed(b, times[0]);
    var here: real := if ok then 1.0 else 0.0;
    assert here + next.tokens <= b.tokens + Elapsed(b, times[0]) * REFILL_RATE;
    assert Successes(b, times) as real == here + Successes(next, times[1..]) as real;
    if |times| > 1 {
      var last := times[|times| - 1];
      SuccessesBounded(next, times[1..]);
      assert times[1..][|times| - 2] == last;
      assert Elapsed(b, times[0]) + Elapsed(next, last) == Elapsed(b, last);
    } else {
      assert Successes(next, times[1..]) == 0;
    }
  }

  /** The bucket object one connection owns. */
  class TokenBucket {
    var tokens: real
    var lastRefill: int

    function State(): Bucket
      reads this
    {
      Bucket(tokens, lastRefill)
    }

    constructor (now: int)
      ensures tokens == BUCKET_CAPACITY && lastRefill == now
    {
      tokens := BUCKET_CAPACITY;
      lastRefill := now;
    }

    method Refill(now: int)
      modifies this
      ensures State() == Refilled(old(State()), now)
    {
      var timePassed := (now - lastRefill) as real / 1000.0;
      tokens := Min(BUCKET_CAPACITY, tokens + timePassed * REFILL_RATE);
      lastRefill := now;
    }

    method TryConsume(now: int) returns (ok: bool)
      modifies this
      ensures ok <==> Refilled(old(State()), now).tokens >= 1.0
      ensures lastRefill == now
      ensures tokens == Refilled(old(State()), now).tokens - (if ok then 1.0 else 0.0)
      ensures (ok, State()) == Consumed(old(State()), now)
    {
      Refill(now);
      if tokens >= 1.0 {
        tokens := tokens - 1.0;
        return true;
      }
      return false;
    }
  }

  /** Six calls on a new bucket without time passing: five succeed, the sixth fails. */
  method BurstFromFreshBucket(now: int) returns (oks: seq<bool>)
    ensures oks == [true, true, true, true, true, false]
  {
    var bucket := new TokenBucket(now);
    var ok1 := bucket.TryConsume(now);
    var ok2 := bucket.TryConsume(now);
    var ok3 := bucket.TryConsume(now);
    var ok4 := bucket.TryConsume(now);
    var ok5 := bucket.TryConsume(now);
    var ok6 := bucket.TryConsume(now);
    oks := [ok1, ok2, ok3, ok4, ok5, ok6];
  }
}
