/** Retry delays, in nanoseconds held in 64 bits. */
module Backoff {
  import opened Values

  newtype int64 = x: int | -0x8000_0000_0000_0000 <= x < 0x8000_0000_0000_0000

  const DEFAULT_BASE: int64 := 2_000_000_000
  const DEFAULT_MAX: int64 := 3_600_000_000_000

  function Min(a: int, b: int): int {
    if a < b then a else b
  }

  /** The delay the documentation promises: doubled once per retry, up to a cap. */
  function Delay(retryCount: int, base: int, max: int): int {
    var n := if retryCount < 0 then 0 else retryCount;
    var b := if base <= 0 then DEFAULT_BASE as int else base;
    var m := if max <= 0 then DEFAULT_MAX as int else max;
    Min(b * Pow2(n), m)
  }

  /** b doubled n times. */
  function Doubled(b: int, n: nat): int {
    if n == 0 then b else 2 * Doubled(b, n - 1)
  }

  lemma {:induction false} DoubledIsPower(b: int, n: nat)
    ensures Doubled(b, n) == b * Pow2(n)
  {
    if n > 0 {
      DoubledIsPower(b, n - 1);
    }
  }

  lemma {:induction false} DoublingGrows(b: int, i: nat, n: nat)
    requires b > 0 && i <= n
    ensures 0 < Doubled(b, i) <= Doubled(b, n)
    decreases n
  {
    if i < n {
      DoublingGrows(b, i, n - 1);
    } else if n > 0 {
      DoublingGrows(b, n - 1, n - 1);
    }
  }

  /** Where the caller gives no base or cap, two seconds and one hour stand in. */
  lemma DelayDefaults(n: nat, base: int, max: int)
    requires base > 0 && max > 0
    ensures Delay(n, base, max) == Min(base * Pow2(n), max)
    ensures Delay(n, 0, max) == Min(2_000_000_000 * Pow2(n), max)
    ensures Delay(n, base, 0) == Min(base * Pow2(n), 3_600_000_000_000)
    ensures Delay(n, 0, 0) == Min(2_000_000_000 * Pow2(n), 3_600_000_000_000)
    ensures Delay(-1 - n, base, max) == Min(base, max)
  {
    assert Pow2(0) == 1;
  }

  /** Delays never shrink as retries mount up, and lie between the smaller bound and the cap. */
  lemma DelayMonotone(i: int, n: int, base: int, max: int)
    requires i <= n
    ensures Delay(i, base, max) <= Delay(n, base, max)
    ensures base > 0 && max > 0 ==> Min(base, max) <= Delay(n, base, max) <= max
  {
    var b := if base <= 0 then DEFAULT_BASE as int else base;
    var i', n' := if i < 0 then 0 else i, if n < 0 then 0 else n;
    DoublingGrows(b, i', n');
    DoublingGrows(b, 0, n');
    DoubledIsPower(b, i');
    DoubledIsPower(b, n');
  }

  /** Doubling stops before it can overflow, so the loop computes the capped power exactly. */
  method ExponentialBackoff(retryCount: int64, base: int64, max: int64) returns (delay: int64)
    ensures delay as int == Delay(retryCount as int, base as int, max as int)
  {
    var n := if retryCount < 0 then 0 else retryCount;
    var b := if base <= 0 then DEFAULT_BASE else base;
    var m := if max <= 0 then DEFAULT_MAX else max;
    DoubledIsPower(b as int, n as int);
    hide Pow2;
    delay := b;
    var i: int64 := 0;
    while i < n && delay < m
      invariant 0 <= i <= n && delay > 0
      invariant delay as int == Doubled(b as int, i as int)
    {
      DoublingGrows(b as int, i as int + 1, n as int);
      if delay > m / 2 {
        return m;
      }
      delay := delay * 2;
      i := i + 1;
    }
    DoublingGrows(b as int, i as int, n as int);
    if delay > m {
      return m;
    }
  }

  function Scale(d: real, f: real): real {
    d * f
  }

  /** The point a fraction u of the way from lower to upper. */
  function Draw(lower: real, upper: real, u: real): real {
    lower + Scale(u, upper - lower)
  }

  /** The jittered delay over the reals; u is the random number drawn. */
  function Jittered(delay: int, max: int, jitter: real, u: real): int {
    if jitter <= 0.0 then delay else
    var j := if jitter > 1.0 then 1.0 else jitter;
    var lower := Scale(delay as real, 1.0 - j);
    var spread := Scale(delay as real, 1.0 + j);
    var upper := if spread > max as real then max as real else spread;
    if upper <= lower then delay else
    var raw := Draw(lower, upper, u);
    (if raw < 1.0 then 1.0 else raw).Floor
  }

  /** The draw is the lower end for 0 and moves in proportion to the random number. */
  lemma DrawIsLinear(lower: real, upper: real, u: real, v: real)
    ensures Draw(lower, upper, 0.0) == lower && Draw(lower, upper, 1.0) == upper
    ensures Draw(lower, upper, u) - Draw(lower, upper, v) == Scale(u - v, upper - lower)
  {
    var w := upper - lower;
    assert u * w - v * w == (u - v) * w;
  }

  /** Without a cap in the way, the two ends of the band are reached by the draws 0 and 1, up to truncation. */
  lemma JitterEnds(delay: int, max: int, jitter: real)
    requires 1 <= delay && 0.0 < jitter <= 1.0 && Scale(delay as real, 1.0 + jitter) <= max as real
    ensures
      var lower, upper := Scale(delay as real, 1.0 - jitter), Scale(delay as real, 1.0 + jitter);
      && Jittered(delay, max, jitter, 0.0) == (if lower < 1.0 then 1 else lower.Floor)
      && Jittered(delay, max, jitter, 1.0) == upper.Floor
  {
    var d := delay as real;
    Spread(d, jitter);
    DrawIsLinear(Scale(d, 1.0 - jitter), Scale(d, 1.0 + jitter), 0.0, 1.0);
    hide Scale, Draw;
  }

  /** Between delay*(1-jitter) and delay*(1+jitter) up to truncation, at least 1ns and at most max. */
  lemma JitterStaysInBounds(delay: int, max: int, jitter: real, u: real)
    requires 1 <= delay <= max && 0.0 < jitter && 0.0 <= u < 1.0
    ensures
      var j := if jitter > 1.0 then 1.0 else jitter;
      var r := Jittered(delay, max, jitter, u);
      && 1 <= r <= max
      && delay as real * (1.0 - j) - 1.0 < r as real <= delay as real * (1.0 + j)
  {
    var j := if jitter > 1.0 then 1.0 else jitter;
    var d := delay as real;
    Spread(d, j);
    assert Scale(d, 1.0 - j) == d * (1.0 - j) && Scale(d, 1.0 + j) == d * (1.0 + j);
    hide Scale, Draw;
    var lower, spread := Scale(d, 1.0 - j), Scale(d, 1.0 + j);
    var upper := if spread > max as real then max as real else spread;
    Between(lower, upper, u);
  }

  /** With no jitter asked for, or no cap given, the delay is left as it is. */
  lemma NoJitter(delay: int, max: int, jitter: real, u: real)
    requires 1 <= delay && (jitter <= 0.0 || max <= 0)
    ensures Jittered(delay, max, jitter, u) == delay
  {
    if jitter > 0.0 {
      Spread(delay as real, if jitter > 1.0 then 1.0 else jitter);
    }
  }

  method ExponentialBackoffWithJitter(retryCount: int64, base: int64, max: int64, jitter: real, u: real)
    returns (result: int64)
    requires 0.0 <= u < 1.0
    ensures result as int == Jittered(Delay(retryCount as int, base as int, max as int), max as int, jitter, u)
    ensures 1 <= result && (max > 0 ==> result <= max)
  {
    var delay := ExponentialBackoff(retryCount, base, max);
    DelayPositive(retryCount as int, base as int, max as int);
    if jitter <= 0.0 || max <= 0 {
      NoJitter(delay as int, max as int, jitter, u);
    } else {
      JitterStaysInBounds(delay as int, max as int, jitter, u);
    }
    hide Delay, Scale, Draw;
    if jitter <= 0.0 { return delay; }
    var j := jitter;
    if j > 1.0 { j := 1.0; }
    var lower := Scale(delay as real, 1.0 - j);
    var upper := Scale(delay as real, 1.0 + j);
    if upper > max as real { upper := max as real; }
    if upper <= lower { return delay; }
    var drawn := Draw(lower, upper, u);
    if drawn < 1.0 { drawn := 1.0; }
    result := drawn.Floor as int64;
  }

  lemma DelayPositive(retryCount: int, base: int, max: int)
    ensures Delay(retryCount, base, max) >= 1
    ensures max > 0 ==> Delay(retryCount, base, max) <= max
  {
    var b := if base <= 0 then DEFAULT_BASE as int else base;
    var n := if retryCount < 0 then 0 else retryCount;
    DoublingGrows(b, 0, n);
    DoubledIsPower(b, n);
  }

  lemma Positive(a: real, b: real)
    requires a > 0.0 && b > 0.0
    ensures a * b > 0.0
  {
  }

  lemma Distribute(u: real, w: real)
    ensures (1.0 - u) * w == w - u * w
  {
  }

  lemma Fraction(u: real, w: real)
    requires w > 0.0 && 0.0 <= u < 1.0
    ensures 0.0 <= Scale(u, w) < w
  {
    Distribute(u, w);
    Positive(1.0 - u, w);
    if u > 0.0 {
      Positive(u, w);
    }
  }

  lemma Between(lower: real, upper: real, u: real)
    requires lower < upper && 0.0 <= u < 1.0
    ensures lower <= Draw(lower, upper, u) < upper
  {
    hide Scale;
    Fraction(u, upper - lower);
  }

  lemma Spread(d: real, j: real)
    requires d > 0.0 && 0.0 < j <= 1.0
    ensures 0.0 <= Scale(d, 1.0 - j) < d < Scale(d, 1.0 + j)
  {
    Positive(d, j);
    assert d * (1.0 - j) == d - d * j && d * (1.0 + j) == d + d * j;
    if j < 1.0 {
      Positive(d, 1.0 - j);
    }
  }
}
