/** `TokenBucketRateLimiter`: a bucket of at most `burst` tokens refilled at
    `rpm` tokens a minute; each request takes one token, waiting for it when
    the bucket is empty. The monotonic clock is a parameter (`now`), and
    sleeping advances it by exactly the time slept. Neither `rpm` nor `burst`
    is checked by the limiter or by the configuration it is built from, so
    both are plain integers here; only `rpm = 0` is excluded. */
module RateLimiter {

  /** The part of the limiter's state that `acquire` changes. */
  datatype Bucket = Bucket(tokens: real, lastRefill: real)

  function Min(a: real, b: real): real {
    if a <= b then a else b
  }

  /** `asyncio.sleep(d)`: a delay that is not positive returns at once. */
  function Slept(d: real): (s: real)
    ensures s >= 0.0 && (d > 0.0 ==> s == d) && (d <= 0.0 ==> s == 0.0)
  {
    if d > 0.0 then d else 0.0
  }

  /** The tokens after refilling at `now`: the elapsed time earns one token
      per `interval` seconds (loses them when `interval` is negative), capped
      at `burst`. */
  function Refilled(b: Bucket, now: real, interval: real, burst: int): (t: real)
    requires interval != 0.0
    ensures t <= burst as real
    ensures t == burst as real || t == b.tokens + (now - b.lastRefill) / interval
    ensures interval > 0.0 && burst >= 0 && 0.0 <= b.tokens && b.lastRefill <= now ==> t >= 0.0
  {
    Min(burst as real, b.tokens + (now - b.lastRefill) / interval)
  }

  /** The end of an acquire once the refill has left `t` tokens: a whole
      token is taken at once; otherwise the caller sleeps for
      `(1 - t) * interval` (not at all when that is not positive), and the
      bucket is left empty, refilled as of the moment the sleep ends. Gives
      the new bucket and the time slept. */
  function Settle(t: real, now: real, interval: real): (r: (Bucket, real))
    ensures r.1 >= 0.0 && r.0.lastRefill == now + r.1
    ensures t >= 1.0 ==> r.0.tokens == t - 1.0 && r.1 == 0.0
    ensures t < 1.0 ==> r.0.tokens == 0.0 && (r.1 > 0.0 <==> interval > 0.0)
    ensures t < 1.0 && interval > 0.0 ==> r.1 == (1.0 - t) * interval
  {
    if t >= 1.0 then (Bucket(t - 1.0, now), 0.0)
    else
      var slept := Slept((1.0 - t) * interval);
      (Bucket(0.0, now + slept), slept)
  }

  /** One `acquire` at time `now`: refill, then settle. */
  function Take(b: Bucket, now: real, interval: real, burst: int): (r: (Bucket, real))
    requires interval != 0.0
    ensures var t := Refilled(b, now, interval, burst);
      && r.1 >= 0.0 && r.0.lastRefill == now + r.1
      && (t >= 1.0 ==> r.0.tokens == t - 1.0 && r.1 == 0.0)
      && (t < 1.0 ==> r.0.tokens == 0.0 && (r.1 > 0.0 <==> interval > 0.0))
  {
    Settle(Refilled(b, now, interval, burst), now, interval)
  }

  /** With a non-negative `burst` the tokens stay within `[0, burst]` across
      every acquire, however much or little time has passed, and the clock
      never runs back. */
  lemma TakeKeepsBounds(b: Bucket, now: real, interval: real, burst: int)
    requires interval != 0.0 && 0.0 <= b.tokens <= burst as real && b.lastRefill <= now
    ensures var (b', slept) := Take(b, now, interval, burst);
      0.0 <= b'.tokens <= burst as real && slept >= 0.0 && b'.lastRefill >= now
  {
  }

  /** A negative `rpm` makes the interval negative: the bucket drains as
      time passes, the computed wait is never positive, and so no acquire
      ever sleeps; the limiter does not limit. */
  lemma NegativeRateNeverSleeps(b: Bucket, now: real, interval: real, burst: int)
    requires interval < 0.0
    ensures Take(b, now, interval, burst).1 == 0.0
  {
  }

  /** A `burst` below 1 never holds a whole token, so with a positive rate
      every acquire sleeps. */
  lemma SmallBurstAlwaysSleeps(b: Bucket, now: real, interval: real, burst: int)
    requires interval > 0.0 && burst < 1
    ensures Take(b, now, interval, burst).1 > 0.0
    ensures Take(b, now, interval, burst).0.tokens == 0.0
  {
  }

  /** The waits of `n` acquires made one after another at the same instant
      `now`, and the bucket they leave. */
  function Burst(b: Bucket, now: real, interval: real, burst: int, n: nat): (Bucket, seq<real>)
    requires interval != 0.0
  {
    if n == 0 then (b, [])
    else
      var (b1, waits) := Burst(b, now, interval, burst, n - 1);
      var (b2, w) := Take(b1, now, interval, burst);
      (b2, waits + [w])
  }

  /** From a full bucket refilled at `now`, `n <= burst` acquires at that
      same instant never wait and leave `burst - n` tokens. */
  lemma {:induction false} FullBucketServesBurst(now: real, interval: real, burst: nat, n: nat)
    requires interval > 0.0 && n <= burst
    ensures var (b, waits) := Burst(Bucket(burst as real, now), now, interval, burst, n);
      && b == Bucket((burst - n) as real, now)
      && |waits| == n && forall k :: 0 <= k < n ==> waits[k] == 0.0
  {
    if n > 0 {
      FullBucketServesBurst(now, interval, burst, n - 1);
      var (b1, waits) := Burst(Bucket(burst as real, now), now, interval, burst, n - 1);
      assert Refilled(b1, now, interval, burst) == (burst - n + 1) as real;
    }
  }

  /** The acquire after the first `burst` at the same instant waits a whole
      interval. */
  lemma NextAcquireWaits(now: real, interval: real, burst: nat)
    requires interval > 0.0
    ensures var (b, waits) := Burst(Bucket(burst as real, now), now, interval, burst, burst + 1);
      |waits| == burst + 1 && waits[burst] == interval
  {
    FullBucketServesBurst(now, interval, burst, burst);
    var (b1, _) := Burst(Bucket(burst as real, now), now, interval, burst, burst);
    assert Refilled(b1, now, interval, burst) == 0.0;
  }

  /** The limiter itself. */
  class TokenBucket {
    const rpm: int
    const interval: real
    const burst: int
    var tokens: real
    var lastRefill: real

    /** The interval is `60 / rpm` (so never zero), and with a non-negative `burst` the
        tokens lie within `[0, burst]`. */
    predicate Valid()
      reads this
    {
      rpm != 0 && interval == 60.0 / (rpm as real) && interval != 0.0 && (burst >= 0 ==> 0.0 <= tokens <= burst as real)
    }

    function State(): Bucket
      reads this
    {
      Bucket(tokens, lastRefill)
    }

    /** `TokenBucketRateLimiter(rpm, burst)` created at time `now`: a full
        bucket. */
    constructor (rpm: int, burst: int, now: real)
      requires rpm != 0
      ensures Valid()
      ensures this.rpm == rpm && this.burst == burst && interval == 60.0 / (rpm as real)
      ensures tokens == burst as real && lastRefill == now
    {
      this.rpm := rpm;
      this.interval := 60.0 / (rpm as real);
      assert (60.0 / (rpm as real)) * (rpm as real) == 60.0;
      this.burst := burst;
      this.tokens := burst as real;
      this.lastRefill := now;
    }

    /** `acquire()` at time `now`, giving the time slept. */
    method Acquire(now: real) returns (slept: real)
      requires Valid() && lastRefill <= now
      modifies this
      ensures Valid()
      ensures (State(), slept) == Take(old(State()), now, interval, burst)
    {
      ghost var before := State();
      var elapsed := now - lastRefill;
      var t := Min(burst as real, tokens + elapsed / interval);
      assert t == Refilled(before, now, interval, burst);
      if t >= 1.0 {
        tokens, lastRefill := t - 1.0, now;
        slept := 0.0;
      } else {
        var waitTime := (1.0 - t) * interval;
        slept := if waitTime > 0.0 then waitTime else 0.0;
        tokens, lastRefill := 0.0, now + slept;
      }
      assert (State(), slept) == Settle(t, now, interval);
      if burst >= 0 {
        TakeKeepsBounds(before, now, interval, burst);
      }
    }
  }
}
