/** The rate limiter's bucket: at most one burst plus the refill, over every interval
    of every run. */
module TokenBucket {
  /** `capacity` tokens, refilled at `capacity` a second. */
  datatype Bucket = Bucket(tokens: real, refilled: real)

  function Min(a: real, b: real): real { if a <= b then a else b }

  /** What `d` seconds bring: `d * qps`, as a sum. */
  function Earned(qps: nat, d: real): real { if qps == 0 then 0.0 else d + Earned(qps - 1, d) }

  lemma {:induction false} EarnedIsProduct(qps: nat, d: real)
    ensures Earned(qps, d) == d * qps as real
  {
    if qps > 0 { EarnedIsProduct(qps - 1, d); }
  }

  lemma {:induction false} EarnedAdds(qps: nat, x: real, y: real)
    ensures Earned(qps, x + y) == Earned(qps, x) + Earned(qps, y)
  {
    if qps > 0 { EarnedAdds(qps - 1, x, y); }
  }

  lemma {:induction false} EarnedGrows(qps: nat, x: real, y: real)
    requires x <= y
    ensures Earned(qps, x) <= Earned(qps, y) && Earned(qps, 0.0) == 0.0
  {
    if qps > 0 { EarnedGrows(qps - 1, x, y); }
  }

  function Full(qps: nat, now: real): Bucket { Bucket(qps as real, now) }

  function Refilled(qps: nat, b: Bucket, now: real): Bucket {
    Bucket(Min(qps as real, b.tokens + Earned(qps, now - b.refilled)), now)
  }

  /** One pass through the locked section at `now`. */
  function Tried(qps: nat, b: Bucket, now: real): (r: (Bucket, bool)) {
    var f := Refilled(qps, b, now);
    if f.tokens >= 1.0 then (Bucket(f.tokens - 1.0, now), true) else (f, false)
  }

  predicate Valid(qps: nat, b: Bucket) { 0.0 <= b.tokens <= qps as real }

  predicate InOrder(from: real, times: seq<real>)
    decreases |times|
  {
    times != [] ==> from <= times[0] && InOrder(times[0], times[1..])
  }

  /** The bucket after attempts at these times, whoever makes them, and how many succeed. */
  function After(qps: nat, b: Bucket, times: seq<real>): Bucket
    decreases |times|
  {
    if times == [] then b else After(qps, Tried(qps, b, times[0]).0, times[1..])
  }

  function Successes(qps: nat, b: Bucket, times: seq<real>): nat
    decreases |times|
  {
    if times == [] then 0
    else
      var r := Tried(qps, b, times[0]);
      (if r.1 then 1 else 0) + Successes(qps, r.0, times[1..])
  }

  function Last(from: real, times: seq<real>): real { if times == [] then from else times[|times| - 1] }

  lemma TriedKeeps(qps: nat, b: Bucket, now: real)
    requires Valid(qps, b) && b.refilled <= now
    ensures var r := Tried(qps, b, now);
      && Valid(qps, r.0) && r.0.refilled == now
      && r.0.tokens + (if r.1 then 1.0 else 0.0) <= b.tokens + Earned(qps, now - b.refilled)
      && r.0.tokens + (if r.1 then 1.0 else 0.0) <= qps as real
  {
    EarnedGrows(qps, 0.0, now - b.refilled);
  }

  /** What is taken never exceeds what was there plus what time brought: the tokens left
      are a potential that every attempt pays from. From the first attempt on, what was
      there is at most one full bucket. */
  lemma {:induction false} Potential(qps: nat, b: Bucket, times: seq<real>)
    requires Valid(qps, b) && InOrder(b.refilled, times)
    ensures var a := After(qps, b, times);
      && Valid(qps, a) && a.refilled == Last(b.refilled, times) >= b.refilled
      && Successes(qps, b, times) as real + a.tokens <= b.tokens + Earned(qps, a.refilled - b.refilled)
      && (times != [] ==> Successes(qps, b, times) as real <= qps as real + Earned(qps, a.refilled - times[0]))
    decreases |times|
  {
    if times == [] {
      EarnedGrows(qps, 0.0, 0.0);
    } else {
      var r := Tried(qps, b, times[0]);
      TriedKeeps(qps, b, times[0]);
      Potential(qps, r.0, times[1..]);
      var a := After(qps, b, times);
      assert Last(r.0.refilled, times[1..]) == Last(b.refilled, times);
      EarnedAdds(qps, a.refilled - times[0], times[0] - b.refilled);
      assert (a.refilled - times[0]) + (times[0] - b.refilled) == a.refilled - b.refilled;
    }
  }

  lemma {:induction false} OrderSplits(from: real, before: seq<real>, times: seq<real>)
    requires InOrder(from, before + times)
    ensures InOrder(from, before) && InOrder(Last(from, before), times)
    decreases |before|
  {
    if before == [] {
      assert before + times == times;
    } else {
      assert (before + times)[0] == before[0] && (before + times)[1..] == before[1..] + times;
      OrderSplits(before[0], before[1..], times);
      assert Last(before[0], before[1..]) == Last(from, before);
    }
  }

  lemma Reached(qps: nat, start: real, before: seq<real>, times: seq<real>)
    requires InOrder(start, before + times)
    ensures var b := After(qps, Full(qps, start), before); Valid(qps, b) && InOrder(b.refilled, times)
  {
    OrderSplits(start, before, times);
    Potential(qps, Full(qps, start), before);
  }

  lemma RunBound(qps: nat, b: Bucket, times: seq<real>, d: real)
    requires Valid(qps, b) && InOrder(b.refilled, times) && 0.0 <= d
    requires times != [] ==> times[|times| - 1] - times[0] <= d
    ensures Successes(qps, b, times) as real <= qps as real + Earned(qps, d)
  {
    if times == [] {
      EarnedGrows(qps, 0.0, d);
    } else {
      Potential(qps, b, times);
      EarnedGrows(qps, times[|times| - 1] - times[0], d);
    }
  }

  /** In every run, over every interval of `d` seconds: among the attempts that lie in
      it, at most qps + qps * d succeed, whatever happened before. */
  lemma RateBound(qps: nat, start: real, before: seq<real>, times: seq<real>, d: real)
    requires InOrder(start, before + times) && 0.0 <= d
    requires times != [] ==> times[|times| - 1] - times[0] <= d
    ensures var b := After(qps, Full(qps, start), before);
      Valid(qps, b) && Successes(qps, b, times) as real <= qps as real + d * qps as real
  {
    Reached(qps, start, before, times);
    var b := After(qps, Full(qps, start), before);
    RunBound(qps, b, times, d);
    EarnedIsProduct(qps, d);
  }

  const SLEEP: real := 0.05

  /** The limiter object. */
  class TokenBucketRateLimiter {
    const qps: nat
    var tokens: real
    var refilled: real

    ghost function View(): Bucket
      reads this
    {
      Bucket(tokens, refilled)
    }

    constructor (qps: nat, now: real)
      ensures this.qps == qps && View() == Full(qps, now)
    {
      this.qps, tokens, refilled := qps, qps as real, now;
    }

    method Refill(now: real)
      modifies this
      ensures View() == Refilled(qps, old(View()), now)
    {
      var elapsed := now - refilled;
      EarnedIsProduct(qps, elapsed);
      tokens := Min(qps as real, tokens + elapsed * qps as real);
      refilled := now;
    }

    /** The locked section. */
    method TryOnce(now: real) returns (ok: bool)
      modifies this
      ensures (View(), ok) == Tried(qps, old(View()), now)
    {
      Refill(now);
      ok := tokens >= 1.0;
      if ok { tokens := tokens - 1.0; }
    }

    /** Other callers take their turns while this one sleeps. */
    method OthersTry(times: seq<real>)
      modifies this
      ensures View() == After(qps, old(View()), times)
    {
      var i := 0;
      while i < |times|
        invariant 0 <= i <= |times| && After(qps, old(View()), times) == After(qps, View(), times[i..])
      {
        assert times[i..][0] == times[i] && times[i..][1..] == times[i + 1..];
        var _ := TryOnce(times[i]);
        i := i + 1;
      }
    }

    /** One turn of the retry loop after a failed look. */
    method LookAgain(others: seq<real>, now: real) returns (ok: bool)
      modifies this
      ensures (View(), ok) == Tried(qps, After(qps, old(View()), others), now)
    {
      OthersTry(others);
      ok := TryOnce(now);
    }

    /** The retry loop: `clock(i)` is the clock at the i-th look, `others(i)` the other
        callers' looks before the next one. It succeeds at the first look that finds a
        token, gives up at the first look at or past the timeout that finds none, and
        one of the two happens within timeout / SLEEP + 1 looks. */
    method Acquire(clock: nat -> real, others: nat -> seq<real>, timeout: real) returns (ok: bool, looks: nat)
      requires forall i: nat, j: nat :: j == i + 1 ==> clock(i) + SLEEP <= clock(j)
      modifies this
      ensures View() == Looked(qps, old(View()), clock, others, looks).0
      ensures ok == Looked(qps, old(View()), clock, others, looks).1
      ensures AllFailed(qps, old(View()), clock, others, timeout, looks)
      ensures !ok ==> clock(looks) - clock(0) >= timeout
      ensures looks as real * SLEEP <= clock(looks) - clock(0) && (looks > 0 ==> (looks - 1) as real * SLEEP < timeout)
    {
      looks := 0;
      ok := TryOnce(clock(0));
      while !ok && clock(looks) - clock(0) < timeout
        invariant (View(), ok) == Looked(qps, old(View()), clock, others, looks)
        invariant AllFailed(qps, old(View()), clock, others, timeout, looks)
        invariant looks as real * SLEEP <= clock(looks) - clock(0) && (looks > 0 ==> (looks - 1) as real * SLEEP < timeout)
        decreases (timeout * 20.0).Floor + 1 - looks
      {
        assert clock(looks) + SLEEP <= clock(looks + 1);
        ok := LookAgain(others(looks), clock(looks + 1));
        looks := looks + 1;
      }
    }
  }

  /** The state and outcome of a caller's k-th look. */
  function Looked(qps: nat, b: Bucket, clock: nat -> real, others: nat -> seq<real>, k: nat): (Bucket, bool) {
    if k == 0 then Tried(qps, b, clock(0))
    else Tried(qps, After(qps, Looked(qps, b, clock, others, k - 1).0, others(k - 1)), clock(k))
  }

  /** The first `k` looks found no token, all before the timeout. */
  predicate AllFailed(qps: nat, b: Bucket, clock: nat -> real, others: nat -> seq<real>, timeout: real, k: nat) {
    k > 0 ==>
      && !Looked(qps, b, clock, others, k - 1).1 && clock(k - 1) - clock(0) < timeout
      && AllFailed(qps, b, clock, others, timeout, k - 1)
  }
}
