/** The score that orders pending tasks: priority first, then creation time. */
module Ranks {
  import opened Values
  import Float64

  /** Scores step by more than any creation time in milliseconds (which ends beyond the year 33000). */
  const STEP: int := 1_000_000_000_000_000

  const EXACT: int := Float64.EXACT

  /** What conversion to float64 guarantees of integers: it never inverts an order, keeps integers up
      to 2^53 and multiples of 2^15 up to 2^68, and is symmetric. */
  ghost predicate IsRounding(fl: int -> int) {
    && (forall x, y | x <= y :: fl(x) <= fl(y))
    && (forall x | -EXACT <= x <= EXACT :: fl(x) == x)
    && (forall x | -EXACT <= x <= EXACT :: fl(x * 0x8000) == x * 0x8000)
  }

  /** taskRank: the priority and the product and the sum are each rounded. */
  function Rank(fl: int -> int, priority: int, createdMs: int): int {
    fl(fl(-fl(priority) * STEP) + fl(createdMs))
  }

  /** The rank before any rounding. */
  function ExactRank(priority: int, createdMs: int): int {
    -priority * STEP + createdMs
  }

  /** Higher priority sorts first, whatever the creation times; equal priority sorts by creation time. */
  lemma ExactOrder(p: nat, s: int, q: nat, t: int)
    requires 0 <= s < STEP && 0 <= t < STEP
    ensures ExactRank(p, s) < ExactRank(q, t) <==> p > q || (p == q && s < t)
    ensures ExactRank(p, s) == ExactRank(q, t) <==> p == q && s == t
  {
  }

  /** 5^15, so that STEP is 2^15 times it. */
  const ODD: int := 30_517_578_125

  lemma ProductIsExact(fl: int -> int, priority: nat)
    requires IsRounding(fl) && priority * ODD <= EXACT
    ensures fl(priority) == priority && fl(-fl(priority) * STEP) == 0 - priority * STEP
  {
    var x := 0 - priority * ODD;
    assert fl(x * 0x8000) == x * 0x8000;
    assert x * 0x8000 == 0 - priority * STEP;
  }

  /** Up to priority 9 the stored score is the exact rank. */
  lemma RankIsExact(fl: int -> int, priority: nat, createdMs: int)
    requires IsRounding(fl) && priority <= 9 && 0 <= createdMs < STEP
    ensures Rank(fl, priority, createdMs) == ExactRank(priority, createdMs)
  {
    ProductIsExact(fl, priority);
    assert -EXACT <= createdMs - priority * STEP <= EXACT;
  }

  /** As long as the product is exact (priorities up to 295147) rounding never inverts an order:
      a higher priority, or an equal one created earlier, never gets the larger score. */
  lemma RankNeverInverts(fl: int -> int, p: nat, s: int, q: nat, t: int)
    requires IsRounding(fl) && p * ODD <= EXACT && q * ODD <= EXACT
    requires 0 <= s < STEP && 0 <= t < STEP
    requires p > q || (p == q && s <= t)
    ensures Rank(fl, p, s) <= Rank(fl, q, t)
  {
    ProductIsExact(fl, p);
    ProductIsExact(fl, q);
    ExactOrder(p, s, q, t);
    assert fl(s) == s && fl(t) == t;
    assert s - p * STEP <= t - q * STEP;
  }

  function Float(): int -> int {
    x => Float64.Round(x)
  }

  /** The laws above hold of float64 arithmetic. */
  lemma FloatIsRounding()
    ensures IsRounding(Float())
  {
    hide Float64.Round;
    forall x, y | x <= y
      ensures Float64.Round(x) <= Float64.Round(y)
    {
      Float64.RoundGrows(x, y);
    }
    forall x | -EXACT <= x <= EXACT
      ensures Float64.Round(x) == x && Float64.Round(x * 0x8000) == x * 0x8000
    {
      var k := if x >= 0 then x else -x;
      Float64.ShiftedIsExact(k, 0);
      Float64.ShiftedIsExact(k, 15);
      assert Pow2(0) == 1;
      Powers();
      assert k * Pow2(15) == k * 0x8000;
    }
  }

  lemma Powers()
    ensures Pow2(15) == 0x8000 && Pow2(49) == 0x2_0000_0000_0000 && Pow2(50) == 0x4_0000_0000_0000
    ensures Pow2(68) == 0x10_0000_0000_0000_0000
  {
    assert Pow2(10) == 1024;
    assert Pow2(20) == 1024 * 1024;
    assert Pow2(30) == 1024 * 1024 * 1024;
    assert Pow2(40) == 1024 * 1024 * 1024 * 1024;
    assert Pow2(50) == 1024 * 1024 * 1024 * 1024 * 1024;
    assert Pow2(60) == 1024 * 1024 * 1024 * 1024 * 1024 * 1024;
  }

  // ---- float64, every priority ----

  /** Creation times below 2^48 milliseconds, which ends in the year 10889. */
  const TIMES: int := 0x1_0000_0000_0000

  /** The rounded priority times the step, not yet rounded. */
  function RawProduct(priority: nat): (x: nat)
  {
    Float64.RoundGrows(0, priority);
    Float64.ShiftedIsExact(0, 0);
    Float64.Round(priority) * STEP
  }

  lemma RankByProduct(priority: nat, createdMs: int)
    requires 0 <= createdMs <= EXACT
    ensures Rank(Float(), priority, createdMs) == Float64.Round(createdMs - Float64.Round(RawProduct(priority)))
  {
    hide Float64.Round;
    var x := RawProduct(priority);
    assert Float64.Round(createdMs) == createdMs by { FloatIsRounding(); assert Float()(createdMs) == createdMs; }
    Negated(Float64.Round(priority));
    Float64.RoundIsOdd(x);
  }

  lemma Negated(n: int)
    ensures -n * STEP == -(n * STEP)
  {
  }

  lemma LargeSpacing(x: nat)
    requires x >= EXACT * STEP
    ensures Float64.Ulp(x) > 2 * TIMES
  {
    var u := Float64.Ulp(x);
    hide Float64.Ulp;
    assert x == x / u * u + x % u;
    assert x < (x / u + 1) * u <= EXACT * u by { Float64.Times(x / u + 1, EXACT, u); }
  }

  lemma ApartOrSpaced(x: nat, y: nat)
    requires x >= y + STEP && Float64.Round(x) - Float64.Round(y) < TIMES
    ensures Float64.Ulp(x) > 2 * TIMES
  {
    hide Float64.Ulp, Float64.Nearest;
    Float64.UlpGrows(y, x);
    Float64.NearestIsClose(x, Float64.Ulp(x));
    Float64.NearestIsClose(y, Float64.Ulp(y));
  }

  /** Products of different priorities come close to each other only where they are so large that their
      spacing swallows every creation time. */
  lemma CloseIsSpaced(p: nat, q: nat)
    requires p > q && Float64.Round(RawProduct(p)) - Float64.Round(RawProduct(q)) < TIMES
    ensures Float64.Ulp(RawProduct(p)) > 2 * TIMES
  {
    hide Float64.Round, Float64.Ulp;
    FloatIsRounding();
    var fl := Float();
    assert fl(p) >= fl(q);
    if fl(p) == fl(q) {
      assert p <= EXACT ==> fl(p) == p && fl(q) == q;
      assert fl(p) >= fl(EXACT) == EXACT;
      LargeSpacing(RawProduct(p));
    } else {
      ApartOrSpaced(RawProduct(p), RawProduct(q));
    }
  }

  /** There the rounded sum is the rounded product. */
  lemma TimeIsSwallowed(x: nat, s: nat)
    requires Float64.Ulp(x) > 2 * TIMES && s < TIMES
    ensures Float64.Round(s - Float64.Round(x)) == -Float64.Round(x)
  {
    assert x >= Float64.EXACT;
    var j := Float64.UlpIsPower(x);
    var k := Float64.NearestIsMultiple(x);
    assert Float64.Round(x) == k * Pow2(j);
    hide Float64.Ulp, Float64.Nearest, Float64.Round, Pow2;
    Powers();
    if j < 50 {
      Float64.PowersGrow(j, 49);
    } else {
      Float64.PowersGrow(50, j);
    }
    Float64.Absorbed(k, j, s);
    Float64.RoundIsOdd(k * Pow2(j) - s);
  }

  /** For every pair of priorities, whatever their size, and all creation times until the year 10889,
      float64 rounding never puts a higher priority, or an equal one created earlier, behind. */
  lemma RealTimesNeverInvert(p: nat, s: int, q: nat, t: int)
    requires 0 <= s < TIMES && 0 <= t < TIMES && (p > q || (p == q && s <= t))
    ensures Rank(Float(), p, s) <= Rank(Float(), q, t)
  {
    hide Float64.Round, Float64.Ulp, Rank;
    RankByProduct(p, s);
    RankByProduct(q, t);
    var x, y := Float64.Round(RawProduct(p)), Float64.Round(RawProduct(q));
    if s - x <= t - y {
      Float64.RoundGrows(s - x, t - y);
    } else {
      CloseIsSpaced(p, q);
      TimeIsSwallowed(RawProduct(p), s);
      TimeIsSwallowed(RawProduct(p), 0);
      ProductsGrow(q, p);
      Float64.RoundGrows(-x, t - y);
    }
  }

  lemma ProductsGrow(q: nat, p: nat)
    requires q <= p
    ensures Float64.Round(RawProduct(q)) <= Float64.Round(RawProduct(p))
  {
    hide Float64.Round;
    Float64.RoundGrows(q, p);
    Float64.RoundGrows(RawProduct(q), RawProduct(p));
  }
}
