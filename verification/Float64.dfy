/** Conversion of integers to float64: round to nearest, ties to even, 53 significant bits. */
module Float64 {
  import opened Values

  const EXACT: nat := 0x20_0000_0000_0000 // 2^53

  /** Spacing of float64 numbers around x. */
  function Ulp(x: nat): (u: nat)
    ensures u > 0 && x / u < EXACT
    ensures x >= EXACT ==> x / u >= EXACT / 2 && u % 2 == 0
  {
    if x < EXACT then 1 else
    var u := Ulp(x / 2);
    Halves(x, u);
    2 * u
  }

  lemma Halves(x: nat, u: nat)
    requires u > 0
    ensures x / (2 * u) == x / 2 / u
  {
    var q, r := x / 2 / u, x / 2 % u;
    assert x / 2 == q * u + r;
    var rest := x - q * (2 * u);
    assert rest == 2 * r + x % 2;
    Divided(x, 2 * u, q, rest);
  }

  lemma Divided(x: int, u: nat, q: int, r: int)
    requires u > 0 && x == q * u + r && 0 <= r < u
    ensures x / u == q && x % u == r
  {
    var q', r' := x / u, x % u;
    assert x == q' * u + r';
    if q < q' {
      assert (q' - q) * u >= u by { Times(1, q' - q, u); }
    } else if q > q' {
      assert (q - q') * u >= u by { Times(1, q - q', u); }
    }
  }

  lemma Times(a: int, b: int, u: nat)
    requires a <= b
    ensures a * u <= b * u
  {
  }

  function Nearest(x: nat, u: nat): nat
    requires u > 0
  {
    var q, r := x / u, x % u;
    if 2 * r < u || (2 * r == u && q % 2 == 0) then q * u else (q + 1) * u
  }

  function Round(x: int): int {
    if x >= 0 then Nearest(x, Ulp(x)) else 0 - Nearest(-x, Ulp(-x))
  }

  lemma NearestBounds(x: nat, u: nat)
    requires u > 0
    ensures x / u * u <= Nearest(x, u) <= (x / u + 1) * u
  {
  }

  lemma NearestGrows(x: nat, y: nat, u: nat)
    requires u > 0 && x <= y
    ensures Nearest(x, u) <= Nearest(y, u)
  {
    var p, q := x / u, y / u;
    assert x == p * u + x % u && y == q * u + y % u;
    if p > q {
      Times(q + 1, p, u);
      assert false;
    } else if p < q {
      NearestBounds(x, u);
      NearestBounds(y, u);
      Times(p + 1, q, u);
    }
  }

  lemma {:induction false} UlpGrows(x: nat, y: nat)
    requires x <= y
    ensures Ulp(x) == Ulp(y) || 2 * Ulp(x) <= Ulp(y)
    decreases y
  {
    if EXACT <= x {
      UlpGrows(x / 2, y / 2);
    } else if EXACT <= y {
      assert Ulp(x) == 1 && Ulp(y) % 2 == 0;
    }
  }

  lemma NonNegativeGrows(x: nat, y: nat)
    requires x <= y
    ensures Nearest(x, Ulp(x)) <= Nearest(y, Ulp(y))
  {
    var u, v := Ulp(x), Ulp(y);
    UlpGrows(x, y);
    if u == v {
      NearestGrows(x, y, u);
    } else {
      NearestBounds(x, u);
      NearestBounds(y, v);
      Times(x / u + 1, EXACT, u);
      Times(EXACT / 2, y / v, v);
      assert EXACT * u <= EXACT / 2 * v;
    }
  }

  /** Rounding never inverts an order. */
  lemma RoundGrows(x: int, y: int)
    requires x <= y
    ensures Round(x) <= Round(y)
  {
    hide Ulp, Nearest;
    if x >= 0 {
      NonNegativeGrows(x, y);
    } else if y < 0 {
      NonNegativeGrows(-y, -x);
    }
  }

  lemma PowerHalves(j: nat)
    requires j > 0
    ensures EXACT / 2 * Pow2(j) == EXACT * Pow2(j - 1) && EXACT * Pow2(j) == 2 * (EXACT * Pow2(j - 1))
    ensures EXACT <= EXACT * Pow2(j - 1) == 2 * (EXACT / 2 * Pow2(j - 1))
  {
    Times(1, Pow2(j - 1), EXACT);
  }

  lemma {:induction false} UlpIs(x: nat, j: nat)
    requires EXACT / 2 * Pow2(j) <= x < EXACT * Pow2(j)
    ensures Ulp(x) == Pow2(j)
  {
    if j > 0 {
      PowerHalves(j);
      UlpIs(x / 2, j - 1);
    }
  }

  lemma Doubled(x: nat, u: nat)
    requires u > 0 && x % u == 0
    ensures 2 * x % (2 * u) == 0
  {
    var q := x / u;
    assert x == q * u;
    assert 2 * x == q * (2 * u);
    Divided(2 * x, 2 * u, q, 0);
  }

  lemma UlpOfDouble(x: nat)
    requires 2 * x >= EXACT && x % Ulp(x) == 0
    ensures 2 * x % Ulp(2 * x) == 0
  {
    Doubled(x, Ulp(x));
  }

  lemma {:induction false} UlpDivides(k: nat, j: nat)
    requires k <= EXACT
    ensures k * Pow2(j) % Ulp(k * Pow2(j)) == 0
  {
    if j == 0 {
      assert k * Pow2(0) == k;
    } else {
      UlpDivides(k, j - 1);
      ShiftOnce(k, j);
      var half := k * Pow2(j - 1);
      if 2 * half >= EXACT {
        UlpOfDouble(half);
      }
    }
  }

  lemma ShiftOnce(k: nat, j: nat)
    requires j > 0
    ensures k * Pow2(j) == 2 * (k * Pow2(j - 1))
  {
  }

  lemma NearestOfMultiple(x: nat, u: nat)
    requires u > 0 && x % u == 0
    ensures Nearest(x, u) == x
  {
  }

  /** Integers of at most 53 bits, shifted by any number of bits, are represented exactly. */
  lemma ShiftedIsExact(k: nat, j: nat)
    requires k <= EXACT
    ensures Round(k * Pow2(j)) == k * Pow2(j) && Round(0 - k * Pow2(j)) == 0 - k * Pow2(j)
  {
    hide Ulp, Nearest, Pow2;
    UlpDivides(k, j);
    var x := k * Pow2(j);
    NearestOfMultiple(x, Ulp(x));
    assert -(0 - x) == x;
    assert x == 0 || 0 - x < 0;
  }

  // ---- how far rounding goes ----

  lemma RoundIsOdd(x: int)
    ensures Round(-x) == -Round(x)
  {
    hide Ulp, Nearest;
    if x == 0 {
      ShiftedIsExact(0, 0);
    }
  }

  lemma NearestIsClose(x: nat, u: nat)
    requires u > 0
    ensures 0 - u <= 2 * (Nearest(x, u) - x) <= u
  {
    var q, r := x / u, x % u;
    assert x == q * u + r;
    assert (q + 1) * u == q * u + u;
  }

  lemma {:induction false} UlpIsPower(x: nat) returns (j: nat)
    ensures Ulp(x) == Pow2(j)
    decreases x
  {
    if x < EXACT {
      j := 0;
    } else {
      j := UlpIsPower(x / 2);
      j := j + 1;
    }
  }

  lemma {:induction false} PowersGrow(i: nat, j: nat)
    requires i <= j
    ensures Pow2(i) <= Pow2(j)
    decreases j
  {
    if i < j {
      PowersGrow(i, j - 1);
    }
  }

  lemma InsideBounds(k: nat, u: nat, s: nat)
    requires EXACT / 2 < k <= EXACT && 0 < s && 2 * s < u
    ensures k * u == (k - 1) * u + u && EXACT / 2 * u <= (k - 1) * u && k * u <= EXACT * u
  {
    Times(EXACT / 2, k - 1, u);
    Times(k, EXACT, u);
  }

  /** Between b and b + u, nearer to the upper end. */
  lemma UpperHalf(b: nat, q: nat, u: nat, j: nat, s: nat)
    requires b == q * u && u == Pow2(j) && EXACT / 2 * u <= b && b + u <= EXACT * u
    requires 0 < s && 2 * s < u
    ensures Round(b + u - s) == b + u
  {
    hide Pow2, Ulp, Nearest;
    UlpIs(b + u - s, j);
    RoundsUp(b + u - s, u, q, u - s);
    assert (q + 1) * u == b + u;
  }

  lemma AbsorbedInside(k: nat, j: nat, s: nat)
    requires EXACT / 2 < k <= EXACT && 2 * s < Pow2(j)
    ensures k * Pow2(j) - s >= 0 && Round(k * Pow2(j) - s) == k * Pow2(j)
  {
    hide *;
    if s == 0 {
      ShiftedIsExact(k, j);
    } else {
      var u := Pow2(j);
      InsideBounds(k, u, s);
      UpperHalf((k - 1) * u, k - 1, u, j, s);
    }
  }

  lemma HalfSpacing(j: nat)
    requires Pow2(j) > 1
    ensures j > 0 && Pow2(j) == 2 * Pow2(j - 1) && EXACT / 2 * Pow2(j) == EXACT * Pow2(j - 1)
  {
  }

  /** Subtracting less than a quarter of the spacing from a float rounds back to it. */
  lemma Absorbed(k: nat, j: nat, s: nat)
    requires EXACT / 2 <= k <= EXACT && 4 * s < Pow2(j)
    ensures k * Pow2(j) - s >= 0 && Round(k * Pow2(j) - s) == k * Pow2(j)
  {
    hide Pow2, Round;
    if s == 0 {
      ShiftedIsExact(k, j);
    } else if k == EXACT / 2 {
      HalfSpacing(j);
      AbsorbedInside(EXACT, j - 1, s);
    } else {
      AbsorbedInside(k, j, s);
    }
  }

  lemma RoundsUp(x: nat, u: nat, q: nat, r: nat)
    requires x == q * u + r && u < 2 * r && r < u
    ensures Nearest(x, u) == (q + 1) * u
  {
    Divided(x, u, q, r);
  }

  /** A float is some k times its spacing, with k of 53 bits once it is beyond 2^53. */
  lemma NearestIsMultiple(x: nat) returns (k: nat)
    requires x >= EXACT
    ensures Nearest(x, Ulp(x)) == k * Ulp(x) && EXACT / 2 <= k <= EXACT
  {
    var u := Ulp(x);
    hide Ulp;
    k := if Nearest(x, u) == x / u * u then x / u else x / u + 1;
  }
}
