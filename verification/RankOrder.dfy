/** For which priorities the float64 score keeps the order of tasks: exact bounds. */
module RankOrder {
  import opened Values
  import opened Ranks
  import Float64

  /** The rounded product: the score of a task of this priority created at time 0, but for its sign. */
  function Score(priority: nat): int {
    Float64.Round(RawProduct(priority))
  }

  lemma Shifts()
    ensures Pow2(15) == 0x8000 && Pow2(16) == 0x1_0000 && Pow2(17) == 0x2_0000 && Pow2(18) == 0x4_0000
    ensures Pow2(47) == 0x8000_0000_0000 && Pow2(48) == 0x1_0000_0000_0000
    ensures Pow2(49) == 0x2_0000_0000_0000 && Pow2(50) == 0x4_0000_0000_0000
  {
    assert Pow2(10) == 1024;
    assert Pow2(20) == 1024 * 1024;
    assert Pow2(30) == 1024 * 1024 * 1024;
    assert Pow2(40) == 1024 * 1024 * 1024 * 1024;
  }

  /** Priorities of 53 bits are not rounded themselves. */
  lemma SmallProduct(p: nat)
    requires p <= EXACT
    ensures RawProduct(p) == p * STEP
  {
    Float64.ShiftedIsExact(p, 0);
    assert Pow2(0) == 1;
    hide Float64.Round;
  }

  // ---- all creation times below 10^15 ----

  /** Priority p created last does not fall behind priority p - 1 created first. */
  ghost predicate Keeps(p: nat)
    requires p > 0
  {
    Float64.Round(Score(p) - (STEP - 1)) >= Score(p - 1)
  }

  lemma KeepsExactly(p: nat)
    requires 0 < p && p * ODD <= EXACT
    ensures Keeps(p)
  {
    hide Float64.Round, Pow2, RawProduct;
    Shifts();
    SmallProduct(p);
    SmallProduct(p - 1);
    Float64.ShiftedIsExact(p * ODD, 15);
    Float64.ShiftedIsExact((p - 1) * ODD, 15);
    assert p * ODD * 0x8000 == p * STEP && (p - 1) * ODD * 0x8000 == (p - 1) * STEP;
    Float64.RoundGrows((p - 1) * STEP, Score(p) - (STEP - 1));
  }

  /** Rounding commutes with scaling. */
  lemma NearestScales(n: nat, w: nat, h: nat)
    requires w > 0 && h > 0
    ensures w * h > 0 && Float64.Nearest(n * h, w * h) == Float64.Nearest(n, w) * h
  {
    var q, r := n / w, n % w;
    Float64.Times(1, w, h);
    assert n * h == q * (w * h) + r * h by { assert n == q * w + r; }
    assert 0 <= r * h < w * h by { Float64.Times(0, r, h); Float64.Times(r + 1, w, h); }
    Float64.Divided(n * h, w * h, q, r * h);
    ScaledHalf(r, w, h);
    assert q * (w * h) == q * w * h && (q + 1) * (w * h) == (q + 1) * w * h;
  }

  lemma ScaledHalf(r: nat, w: nat, h: nat)
    requires h > 0
    ensures 2 * (r * h) < w * h <==> 2 * r < w
    ensures 2 * (r * h) == w * h <==> 2 * r == w
  {
    if 2 * r < w {
      Float64.Times(2 * r + 1, w, h);
    } else if 2 * r > w {
      Float64.Times(w + 1, 2 * r, h);
    }
  }

  lemma NearestByTwo(n: nat)
    ensures Float64.Nearest(n, 2) % 2 == 0 && n - 1 <= Float64.Nearest(n, 2) <= n + 1
  {
  }

  lemma NearestByFour(n: nat)
    ensures Float64.Nearest(n, 4) % 4 == 0 && n - 2 <= Float64.Nearest(n, 4) <= n + 2
  {
  }

  /** In units of 2^15 a priority is worth ODD, which leaves remainder 1 by 2 and by 4. Rounded to multiples
      of 2 or 4, neighbours are never more than one unit too close. */
  lemma NeighboursInUnits(n: nat, w: nat)
    requires (w == 2 || w == 4) && n >= ODD
    ensures Float64.Nearest(n, w) - ODD >= Float64.Nearest(n - ODD, w) - 1
    ensures Float64.Nearest(n - ODD, w) % w == 0
  {
    hide Float64.Nearest;
    if w == 2 {
      NearestByTwo(n);
      NearestByTwo(n - ODD);
    } else {
      NearestByFour(n);
      NearestByFour(n - ODD);
    }
  }

  lemma JustBelow(q: nat, u: nat, h: nat)
    requires q > 0 && h > 1 && 2 * h <= u
    ensures q * u - h + 1 >= 0 && Float64.Nearest(q * u - h + 1, u) == q * u
  {
    assert q * u == (q - 1) * u + u;
    Float64.Times(0, q - 1, u);
    Float64.RoundsUp(q * u - h + 1, u, q - 1, u - h + 1);
  }

  /** At most a unit short of a float, and less than half a spacing, rounds to it or above. */
  lemma OneUnitBelow(k: int, m: nat, w: nat, h: nat)
    requires w >= 2 && h > 1 && m > 0 && m % w == 0 && k >= m - 1
    ensures k * h + 1 >= 0 && w * h > 0 && Float64.Nearest(k * h + 1, w * h) >= m * h
  {
    hide Float64.Nearest;
    Float64.Times(0, k, h);
    Float64.Times(2, w, h);
    if k >= m {
      Float64.Times(m, k, h);
      NearestScales(m, w, h);
      Float64.NearestOfMultiple(m, w);
      Float64.NearestGrows(m * h, k * h + 1, w * h);
    } else {
      var q := m / w;
      assert m == q * w;
      assert m * h == q * (w * h);
      assert k * h + 1 == m * h - h + 1;
      JustBelow(q, w * h, h);
    }
  }

  const UNIT: nat := 0x8000

  /** Where the spacing is w units on both sides, the neighbour is kept. */
  lemma KeepsBySpacing(p: nat, j: nat, w: nat)
    requires (w == 2 && j == 16) || (w == 4 && j == 17)
    requires p > 1 && Float64.EXACT / 2 * Pow2(j) <= (p - 1) * STEP - 0x4_0000 && p * STEP < Float64.EXACT * Pow2(j)
    requires p <= EXACT
    ensures Keeps(p)
  {
    hide Float64.Round, Float64.Nearest, Float64.Ulp, Pow2, RawProduct;
    Shifts();
    SmallProduct(p);
    SmallProduct(p - 1);
    var n := p * ODD;
    var N, M := Float64.Nearest(n, w), Float64.Nearest(n - ODD, w);
    RoundsBySpacing(n, j, w);
    RoundsBySpacing(n - ODD, j, w);
    NeighboursInUnits(n, w);
    Float64.NearestIsClose(n, w);
    Float64.NearestIsClose(n - ODD, w);
    OneUnitBelow(N - ODD, M, w, UNIT);
    var v := (N - ODD) * UNIT + 1;
    assert v == Score(p) - (STEP - 1);
    Float64.UlpIs(v, j);
    RoundOf(v, w * UNIT);
  }

  lemma RoundOf(x: nat, u: nat)
    requires Float64.Ulp(x) == u
    ensures u > 0 && Float64.Round(x) == Float64.Nearest(x, u)
  {
  }

  lemma RoundsBySpacing(n: nat, j: nat, w: nat)
    requires w > 0 && Pow2(j) == w * UNIT
    requires Float64.EXACT / 2 * Pow2(j) <= n * UNIT < Float64.EXACT * Pow2(j)
    ensures Float64.Round(n * UNIT) == Float64.Nearest(n, w) * UNIT
  {
    hide Float64.Nearest, Float64.Ulp, Pow2;
    Float64.UlpIs(n * UNIT, j);
    NearestScales(n, w, UNIT);
  }

  /** A rounding worked out: x lies between 2^52 and 2^53 times u, and r is the nearest multiple of u. */
  lemma WorkedOut(x: nat, j: nat, u: nat, r: nat)
    requires Pow2(j) == u && Float64.EXACT / 2 * u <= x < Float64.EXACT * u
    requires Float64.Nearest(x, u) == r
    ensures Float64.Round(x) == r
  {
    hide Pow2, Float64.Ulp, Float64.Nearest;
    Float64.UlpIs(x, j);
  }

  lemma KeepsBy(p: nat, x: int, y: int, z: int)
    requires p > 0 && Score(p) == x && Score(p - 1) == y && Float64.Round(x - (STEP - 1)) == z && z >= y
    ensures Keeps(p)
  {
    hide Score, Float64.Round;
  }

  /** The first priority of each spacing, and the two that are left before the order breaks. */
  lemma KeepsAtEdges()
    ensures Keeps(295148) && Keeps(590296) && Keeps(1180592) && Keeps(1180593)
  {
    hide Pow2, Float64.Round, Score, Keeps;
    Shifts();
    ScoreIs(295147, 15, 0x8000, 295_147_000_000_000_000_000);
    ScoreIs(295148, 16, 0x1_0000, 295_148_000_000_000_000_000);
    WorkedOut(295_147_000_000_000_000_001, 15, 0x8000, 295_147_000_000_000_000_000);
    KeepsBy(295148, 295_148_000_000_000_000_000, 295_147_000_000_000_000_000, 295_147_000_000_000_000_000);
    ScoreIs(590295, 16, 0x1_0000, 590_295_000_000_000_032_768);
    ScoreIs(590296, 17, 0x2_0000, 590_296_000_000_000_000_000);
    WorkedOut(590_295_000_000_000_000_001, 16, 0x1_0000, 590_295_000_000_000_032_768);
    KeepsBy(590296, 590_296_000_000_000_000_000, 590_295_000_000_000_032_768, 590_295_000_000_000_032_768);
    ScoreIs(1180591, 17, 0x2_0000, 1_180_591_000_000_000_032_768);
    ScoreIs(1180592, 18, 0x4_0000, 1_180_592_000_000_000_000_000);
    WorkedOut(1_180_591_000_000_000_000_001, 17, 0x2_0000, 1_180_591_000_000_000_032_768);
    KeepsBy(1180592, 1_180_592_000_000_000_000_000, 1_180_591_000_000_000_032_768, 1_180_591_000_000_000_032_768);
    ScoreIs(1180593, 18, 0x4_0000, 1_180_593_000_000_000_098_304);
    WorkedOut(1_180_592_000_000_000_098_305, 18, 0x4_0000, 1_180_592_000_000_000_000_000);
    KeepsBy(1180593, 1_180_593_000_000_000_098_304, 1_180_592_000_000_000_000_000, 1_180_592_000_000_000_000_000);
  }

  lemma KeepsUpTo(p: nat)
    requires 0 < p <= LAST_KEPT
    ensures Keeps(p)
  {
    hide Keeps, Pow2;
    Shifts();
    KeepsAtEdges();
    if p <= 295147 {
      KeepsExactly(p);
    } else if 295149 <= p <= 590295 {
      KeepsBySpacing(p, 16, 2);
    } else if 590297 <= p <= 1180591 {
      KeepsBySpacing(p, 17, 4);
    }
  }

  /** The highest priority up to which the order holds for all creation times below 10^15. */
  const LAST_KEPT: nat := 1_180_593

  lemma RoundTwice(x: nat)
    ensures Float64.Round(Float64.Round(x)) == Float64.Round(x)
  {
    if x < Float64.EXACT {
      Float64.ShiftedIsExact(x, 0);
      assert Pow2(0) == 1;
    } else {
      var j := Float64.UlpIsPower(x);
      var k := Float64.NearestIsMultiple(x);
      assert Float64.Round(x) == k * Pow2(j);
      Float64.ShiftedIsExact(k, j);
    }
    hide Float64.Ulp, Float64.Nearest, Pow2;
  }

  /** What is kept between neighbours is kept between all. */
  lemma KeptBehind(p: nat, s: int, q: nat, t: int)
    requires p > q && 0 <= s < STEP && 0 <= t < STEP && Keeps(p)
    ensures Rank(Float(), p, s) <= Rank(Float(), q, t)
  {
    hide Float64.Round, Rank, RawProduct;
    RankByProduct(p, s);
    RankByProduct(q, t);
    var x, y := Score(p), Score(q);
    Float64.RoundGrows(s - x, STEP - 1 - x);
    Float64.RoundIsOdd(x - (STEP - 1));
    assert -(x - (STEP - 1)) == STEP - 1 - x;
    ProductsGrow(q, p - 1);
    RoundTwice(RawProduct(q));
    Float64.RoundIsOdd(y);
    Float64.RoundGrows(-y, t - y);
  }

  /** A score worked out. */
  lemma ScoreIs(p: nat, j: nat, u: nat, r: nat)
    requires p <= EXACT && Pow2(j) == u && Float64.EXACT / 2 * u <= p * STEP < Float64.EXACT * u
    requires Float64.Nearest(p * STEP, u) == r
    ensures Score(p) == r
  {
    hide Pow2, Float64.Round, Float64.Nearest, RawProduct;
    SmallProduct(p);
    WorkedOut(p * STEP, j, u, r);
  }

  lemma ScoresOfFirst()
    ensures Score(LAST_KEPT) == 1_180_593_000_000_000_098_304
    ensures Score(LAST_KEPT + 1) == 1_180_593_999_999_999_934_464
  {
    hide Pow2, Score;
    Shifts();
    ScoreIs(LAST_KEPT, 18, 0x4_0000, 1_180_593_000_000_000_098_304);
    ScoreIs(LAST_KEPT + 1, 18, 0x4_0000, 1_180_593_999_999_999_934_464);
  }

  lemma SumOfFirst()
    ensures Float64.Round(1_180_592_999_999_999_934_465) == 1_180_592_999_999_999_836_160
  {
    hide Pow2, Float64.Round;
    Shifts();
    WorkedOut(1_180_592_999_999_999_934_465, 18, 0x4_0000, 1_180_592_999_999_999_836_160);
  }

  /** The first pair that breaks: one priority higher, created last, loses to the lower one, created first. */
  lemma FirstInversion()
    ensures Rank(Float(), LAST_KEPT + 1, STEP - 1) > Rank(Float(), LAST_KEPT, 0)
  {
    hide Float64.Round, RawProduct, Rank;
    ScoresOfFirst();
    SumOfFirst();
    RankByProduct(LAST_KEPT + 1, STEP - 1);
    RankByProduct(LAST_KEPT, 0);
    Float64.RoundIsOdd(1_180_592_999_999_999_934_465);
    Float64.RoundIsOdd(Score(LAST_KEPT));
    RoundTwice(RawProduct(LAST_KEPT));
  }

  /** Higher priority first, for all creation times below 10^15 milliseconds, holds among the priorities up to
      a limit if and only if the limit is at most 1180593. */
  lemma OrderHoldsIff(limit: nat)
    ensures
      (forall p: nat, s, q: nat, t | q < p <= limit && 0 <= s < STEP && 0 <= t < STEP ::
         Rank(Float(), p, s) <= Rank(Float(), q, t))
      <==> limit <= LAST_KEPT
  {
    hide Rank, Keeps;
    if limit <= LAST_KEPT {
      forall p: nat, s, q: nat, t | q < p <= limit && 0 <= s < STEP && 0 <= t < STEP
        ensures Rank(Float(), p, s) <= Rank(Float(), q, t)
      {
        KeepsUpTo(p);
        KeptBehind(p, s, q, t);
      }
    } else {
      FirstInversion();
      assert !(Rank(Float(), LAST_KEPT + 1, STEP - 1) <= Rank(Float(), LAST_KEPT, 0));
    }
  }

  // ---- creation times until the year 10889 ----

  /** Priority p created last stays ahead of priority p - 1 created first. */
  ghost predicate Clears(p: nat)
    requires p > 0
  {
    Float64.Round(Score(p) - (TIMES - 1)) > Score(p - 1)
  }

  lemma SpacingBelow(x: nat)
    requires x < Float64.EXACT * 0x1_0000_0000_0000
    ensures Float64.Ulp(x) <= 0x1_0000_0000_0000
  {
    hide Pow2, Float64.Ulp;
    Shifts();
    Float64.UlpIs(Float64.EXACT * 0x1_0000_0000_0000 - 1, 48);
    Float64.UlpGrows(x, Float64.EXACT * 0x1_0000_0000_0000 - 1);
  }

  lemma CloseTo(x: nat)
    requires x < Float64.EXACT * 0x1_0000_0000_0000
    ensures x - 0x8000_0000_0000 <= Float64.Round(x) <= x + 0x8000_0000_0000
  {
    hide Float64.Nearest, Float64.Ulp;
    SpacingBelow(x);
    Float64.NearestIsClose(x, Float64.Ulp(x));
  }

  /** Below 2^101 the rounding errors are too small to matter. */
  lemma ClearsByGap(p: nat)
    requires 0 < p && p * STEP < Float64.EXACT * 0x1_0000_0000_0000
    ensures Clears(p)
  {
    hide Float64.Round, RawProduct;
    SmallProduct(p);
    SmallProduct(p - 1);
    CloseTo(p * STEP);
    CloseTo((p - 1) * STEP);
    CloseTo(Score(p) - (TIMES - 1));
  }

  /** Above it the creation time is swallowed, and only the products matter. */
  lemma ClearsBySwallowing(p: nat, j: nat, k: nat)
    requires p > 0 && Score(p) == k * Pow2(j) && Score(p) > Score(p - 1)
    requires (j == 49 && Float64.EXACT / 2 < k <= Float64.EXACT) || (j == 50 && Float64.EXACT / 2 <= k <= Float64.EXACT)
    ensures Clears(p)
  {
    hide Pow2, Float64.Round, Score;
    Shifts();
    if j == 49 {
      Float64.AbsorbedInside(k, j, TIMES - 1);
    } else {
      Float64.Absorbed(k, j, TIMES - 1);
    }
  }

  /** The last priorities whose products lie below 2^101 and 2^102. */
  const BELOW_101: nat := 2_535_301_200_456_458
  const BELOW_102: nat := 5_070_602_400_912_917

  /** The highest priority up to which scores of different priorities differ. */
  const LAST_STRICT: nat := 5_070_602_400_912_925

  lemma ClearsMidway(p: nat)
    requires BELOW_101 + 2 <= p <= BELOW_102
    ensures Clears(p)
  {
    hide Pow2, Float64.Round, Float64.Nearest, Float64.Ulp, RawProduct;
    Shifts();
    var u := 0x2_0000_0000_0000;
    var x, y := p * STEP, (p - 1) * STEP;
    SmallProduct(p);
    SmallProduct(p - 1);
    WorkedOut(x, 49, u, Float64.Nearest(x, u));
    WorkedOut(y, 49, u, Float64.Nearest(y, u));
    Float64.NearestIsClose(x, u);
    Float64.NearestIsClose(y, u);
    Float64.UlpIs(x, 49);
    var k := Float64.NearestIsMultiple(x);
    ClearsBySwallowing(p, 49, k);
  }

  /** The first priority beyond 2^101: its score is that power of two. */
  lemma ClearsAtEdge()
    ensures Clears(BELOW_101 + 1)
  {
    hide Pow2, Float64.Round, RawProduct;
    Shifts();
    var y := BELOW_101 * STEP;
    var top := 0x20_0000_0000_0000 * 0x1_0000_0000_0000;
    SmallProduct(BELOW_101);
    SmallProduct(BELOW_101 + 1);
    WorkedOut(y + STEP, 49, 0x2_0000_0000_0000, top);
    CloseTo(y);
    CloseTo(top - (TIMES - 1));
  }

  /** The eight priorities beyond 2^102 before two scores fall together. */
  lemma ClearsAtEnd(p: nat)
    requires BELOW_102 < p <= LAST_STRICT
    ensures Clears(p)
  {
    hide Pow2, Float64.Round, Float64.Ulp, RawProduct;
    Shifts();
    var u := 0x4_0000_0000_0000;
    var x, y := p * STEP, (p - 1) * STEP;
    SmallProduct(p);
    SmallProduct(p - 1);
    WorkedOut(x, 50, u, Float64.Nearest(x, u));
    if p == BELOW_102 + 1 {
      WorkedOut(y, 49, 0x2_0000_0000_0000, Float64.Nearest(y, 0x2_0000_0000_0000));
    } else {
      WorkedOut(y, 50, u, Float64.Nearest(y, u));
    }
    Float64.UlpIs(x, 50);
    var k := Float64.NearestIsMultiple(x);
    ProductsApart(p);
    ClearsBySwallowing(p, 50, k);
  }

  lemma ProductsApart(p: nat)
    requires BELOW_102 < p <= LAST_STRICT
    ensures
      var u := if p == BELOW_102 + 1 then 0x2_0000_0000_0000 else 0x4_0000_0000_0000;
      Float64.Nearest(p * STEP, 0x4_0000_0000_0000) > Float64.Nearest((p - 1) * STEP, u)
  {
    var u, q := 0x4_0000_0000_0000, 0x10_0000_0000_0000;
    var i := p - BELOW_102;
    var quotient := if i <= 4 then q + i - 1 else q + i - 2;
    assert Float64.Nearest(p * STEP, u) == (q + i - 1) * u by {
      Float64.Divided(p * STEP, u, quotient, p * STEP - quotient * u);
    }
  }

  lemma ClearsUpTo(p: nat)
    requires 0 < p <= LAST_STRICT
    ensures Clears(p)
  {
    hide Clears;
    if p <= BELOW_101 {
      ClearsByGap(p);
    } else if p == BELOW_101 + 1 {
      ClearsAtEdge();
    } else if p <= BELOW_102 {
      ClearsMidway(p);
    } else {
      ClearsAtEnd(p);
    }
  }

  lemma ClearedAhead(p: nat, s: int, q: nat, t: int)
    requires p > q && 0 <= s < TIMES && 0 <= t < TIMES && Clears(p)
    ensures Rank(Float(), p, s) < Rank(Float(), q, t)
  {
    hide Float64.Round, Rank, RawProduct;
    RankByProduct(p, s);
    RankByProduct(q, t);
    var x, y := Score(p), Score(q);
    Float64.RoundGrows(s - x, TIMES - 1 - x);
    Float64.RoundIsOdd(x - (TIMES - 1));
    assert -(x - (TIMES - 1)) == TIMES - 1 - x;
    ProductsGrow(q, p - 1);
    RoundTwice(RawProduct(q));
    Float64.RoundIsOdd(y);
    Float64.RoundGrows(-y, t - y);
  }

  /** The first priorities whose scores are the same. */
  lemma FirstTie()
    ensures Rank(Float(), LAST_STRICT + 1, 0) == Rank(Float(), LAST_STRICT, 0)
  {
    hide Pow2, Float64.Round, RawProduct, Rank;
    Shifts();
    var u := 0x4_0000_0000_0000;
    var x, y := (LAST_STRICT + 1) * STEP, LAST_STRICT * STEP;
    SmallProduct(LAST_STRICT);
    SmallProduct(LAST_STRICT + 1);
    WorkedOut(x, 50, u, Float64.Nearest(x, u));
    WorkedOut(y, 50, u, Float64.Nearest(x, u));
    RankByProduct(LAST_STRICT + 1, 0);
    RankByProduct(LAST_STRICT, 0);
  }

  /** With creation times until the year 10889, a higher priority has the strictly smaller score, and so is
      served first, among the priorities up to a limit if and only if the limit is at most LAST_STRICT. */
  lemma StrictOrderIff(limit: nat)
    ensures
      (forall p: nat, s, q: nat, t | q < p <= limit && 0 <= s < TIMES && 0 <= t < TIMES ::
         Rank(Float(), p, s) < Rank(Float(), q, t))
      <==> limit <= LAST_STRICT
  {
    hide Rank, Clears;
    if limit <= LAST_STRICT {
      forall p: nat, s, q: nat, t | q < p <= limit && 0 <= s < TIMES && 0 <= t < TIMES
        ensures Rank(Float(), p, s) < Rank(Float(), q, t)
      {
        ClearsUpTo(p);
        ClearedAhead(p, s, q, t);
      }
    } else {
      FirstTie();
      assert !(Rank(Float(), LAST_STRICT + 1, 0) < Rank(Float(), LAST_STRICT, 0));
    }
  }

  // ---- the sum with a fused multiplication ----

  /** The score where the compiler fuses the product into the sum, so that only the result is rounded. */
  function FusedRank(priority: nat, createdMs: int): int {
    Float64.Round(createdMs - RawProduct(priority))
  }

  lemma FusedKeeps(p: nat, s: int, q: nat, t: int)
    requires q < p <= EXACT && 0 <= s < STEP && 0 <= t < STEP
    ensures FusedRank(p, s) <= FusedRank(q, t)
  {
    hide Float64.Round, RawProduct;
    SmallProduct(p);
    SmallProduct(q);
    ExactOrder(p, s, q, t);
    Float64.RoundGrows(s - p * STEP, t - q * STEP);
  }

  const FUSED_PRODUCT: int := 9_007_199_254_740_992_000_000_000_000_000 // EXACT * STEP

  lemma FusedCollapse()
    ensures RawProduct(EXACT) == FUSED_PRODUCT && RawProduct(EXACT + 1) == FUSED_PRODUCT
  {
    assert Pow2(1) == 2;
    Float64.UlpIs(EXACT, 1);
    Float64.UlpIs(EXACT + 1, 1);
    hide Float64.Ulp, Pow2;
  }

  /** 2^53 and the next priority are one number in float64, and creation times decide between them. */
  lemma FirstFusedInversion()
    ensures FusedRank(EXACT + 1, STEP - 1) > FusedRank(EXACT, 0)
  {
    hide Pow2, Float64.Round, RawProduct;
    FusedCollapse();
    Shifts();
    var x := FUSED_PRODUCT - (STEP - 1);
    var u := 0x4_0000_0000_0000;
    WorkedOut(x, 50, u, Float64.Nearest(x, u));
    WorkedOut(FUSED_PRODUCT, 50, u, FUSED_PRODUCT);
    Float64.RoundIsOdd(x);
    Float64.RoundIsOdd(FUSED_PRODUCT);
    assert STEP - 1 - FUSED_PRODUCT == -x && 0 - FUSED_PRODUCT == -FUSED_PRODUCT;
  }

  /** With the fused sum, higher priority first holds for all creation times below 10^15 milliseconds among the
      priorities up to a limit if and only if the limit is at most 2^53. */
  lemma FusedOrderHoldsIff(limit: nat)
    ensures
      (forall p: nat, s, q: nat, t | q < p <= limit && 0 <= s < STEP && 0 <= t < STEP ::
         FusedRank(p, s) <= FusedRank(q, t))
      <==> limit <= EXACT
  {
    hide FusedRank;
    if limit <= EXACT {
      forall p: nat, s, q: nat, t | q < p <= limit && 0 <= s < STEP && 0 <= t < STEP
        ensures FusedRank(p, s) <= FusedRank(q, t)
      {
        FusedKeeps(p, s, q, t);
      }
    } else {
      FirstFusedInversion();
      assert !(FusedRank(EXACT + 1, STEP - 1) <= FusedRank(EXACT, 0));
    }
  }
}
