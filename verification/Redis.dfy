/** The Redis commands the scripts are made of, as functions on values. */
module Redis {
  import Lexical

  /** A sorted set: members with their scores. */
  type ZSet = map<string, int>

  /** The order in which ZRANGE and ZRANGEBYSCORE list members. */
  predicate Before(z: ZSet, a: string, b: string)
    requires a in z && b in z
  {
    z[a] < z[b] || (z[a] == z[b] && Lexical.Less(a, b))
  }

  predicate IsMin(z: ZSet, m: string) {
    m in z && forall k | k in z :: k == m || Before(z, m, k)
  }

  lemma BeforeTransitive(z: ZSet, a: string, b: string, c: string)
    requires a in z && b in z && c in z
    requires Before(z, a, b) && Before(z, b, c)
    ensures Before(z, a, c)
  {
    if z[a] == z[b] == z[c] {
      Lexical.Transitive(a, b, c);
    }
  }

  lemma BeforeAsymmetric(z: ZSet, a: string, b: string)
    requires a in z && b in z && Before(z, a, b)
    ensures a != b && !Before(z, b, a)
  {
    Lexical.Irreflexive(a);
    if Before(z, b, a) {
      Lexical.Transitive(a, b, a);
    }
  }

  lemma {:induction false} MinExists(z: ZSet) returns (m: string)
    requires z != map[]
    ensures IsMin(z, m)
    decreases |z|
  {
    var k :| k in z;
    var rest := z - {k};
    m := k;
    if rest != map[] {
      assert z.Keys == rest.Keys + {k};
      var r := MinExists(rest);
      Lexical.Total(k, r);
      m := if Before(z, k, r) then k else r;
      forall j | j in z
        ensures j == m || Before(z, m, j)
      {
        if j != k && j != r && m == k {
          assert j in rest;
          BeforeTransitive(z, k, r, j);
        }
      }
    } else {
      forall j | j in z
        ensures j == m
      {
        assert j in rest || j == k;
      }
    }
  }

  lemma MinUnique(z: ZSet, a: string, b: string)
    requires IsMin(z, a) && IsMin(z, b)
    ensures a == b
  {
    if a != b {
      BeforeAsymmetric(z, a, b);
    }
  }

  lemma MinDetermined(z: ZSet)
    requires z != map[]
    ensures exists m :: m in z && IsMin(z, m)
    ensures forall a, b | IsMin(z, a) && IsMin(z, b) :: a == b
  {
    var m := MinExists(z);
    forall a, b | IsMin(z, a) && IsMin(z, b)
      ensures a == b
    {
      MinUnique(z, a, b);
    }
  }

  /** ZRANGE key 0 0. */
  function Min(z: ZSet): (m: string)
    requires z != map[]
    ensures IsMin(z, m)
  {
    MinDetermined(z);
    var m :| m in z && IsMin(z, m);
    m
  }

  /** All members in listing order. */
  function Sorted(z: ZSet): (s: seq<string>)
    ensures |s| == |z|
    decreases |z|
  {
    if z == map[] then []
    else
      var k := Min(z);
      assert z.Keys == (z - {k}).Keys + {k};
      [k] + Sorted(z - {k})
  }

  predicate Ascending(z: ZSet, s: seq<string>)
    requires forall i | 0 <= i < |s| :: s[i] in z
  {
    forall i, j | 0 <= i < j < |s| :: Before(z, s[i], s[j])
  }

  lemma {:induction false} SortedMembers(z: ZSet, x: string)
    ensures x in Sorted(z) <==> x in z
    decreases |z|
  {
    if z != map[] {
      var k := Min(z);
      assert z.Keys == (z - {k}).Keys + {k};
      SortedMembers(z - {k}, x);
      assert x in Sorted(z) <==> x == k || x in Sorted(z - {k});
    }
  }

  lemma SortedUnfolds(z: ZSet, i: nat)
    requires 0 < i < |Sorted(z)|
    ensures z != map[] && i - 1 < |Sorted(z - {Min(z)})| && Sorted(z)[i] == Sorted(z - {Min(z)})[i - 1]
    ensures Sorted(z)[0] == Min(z) && |z - {Min(z)}| < |z|
  {
    hide Min, IsMin;
    assert z.Keys == (z - {Min(z)}).Keys + {Min(z)} by { MinIsMember(z); }
  }

  lemma MinIsMember(z: ZSet)
    requires z != map[]
    ensures Min(z) in z && forall x | x in z && x != Min(z) :: Before(z, Min(z), x)
  {
  }

  lemma {:induction false} SortedAscends(z: ZSet, i: nat, j: nat)
    requires i < j < |Sorted(z)|
    ensures Sorted(z)[i] in z && Sorted(z)[j] in z
    ensures Before(z, Sorted(z)[i], Sorted(z)[j])
    decreases |z|
  {
    hide Min, Sorted, IsMin;
    SortedUnfolds(z, j);
    MinIsMember(z);
    var rest := z - {Min(z)};
    SortedMembers(rest, Sorted(rest)[j - 1]);
    if i > 0 {
      SortedUnfolds(z, i);
      SortedAscends(rest, i - 1, j - 1);
    }
  }

  /** The listing holds each member once, in ascending order. */
  lemma SortedLists(z: ZSet)
    ensures forall k :: k in Sorted(z) <==> k in z
    ensures forall i | 0 <= i < |Sorted(z)| :: Sorted(z)[i] in z
    ensures Ascending(z, Sorted(z))
    ensures forall i, j | 0 <= i < j < |Sorted(z)| :: Sorted(z)[i] != Sorted(z)[j]
  {
    forall k
      ensures k in Sorted(z) <==> k in z
    {
      SortedMembers(z, k);
    }
    forall i, j | 0 <= i < j < |Sorted(z)|
      ensures Sorted(z)[i] in z && Sorted(z)[j] in z && Before(z, Sorted(z)[i], Sorted(z)[j])
      ensures Sorted(z)[i] != Sorted(z)[j]
    {
      SortedAscends(z, i, j);
      BeforeAsymmetric(z, Sorted(z)[i], Sorted(z)[j]);
    }
  }

  function UpTo(z: ZSet, max: int): ZSet {
    map k | k in z && z[k] <= max :: z[k]
  }

  /** ZRANGEBYSCORE key -inf max. */
  function RangeByScore(z: ZSet, max: int): seq<string> {
    Sorted(UpTo(z, max))
  }

  /** LREM key 1 x: drop the first occurrence. */
  function Remove1(s: seq<string>, x: string): seq<string> {
    if s == [] then []
    else if s[0] == x then s[1..]
    else [s[0]] + Remove1(s[1..], x)
  }

  lemma {:induction false} Remove1Multiset(s: seq<string>, x: string)
    ensures multiset(Remove1(s, x)) == multiset(s) - multiset{x}
  {
    if s != [] {
      assert s == [s[0]] + s[1..];
      if s[0] != x {
        Remove1Multiset(s[1..], x);
        assert multiset(Remove1(s, x)) == multiset{s[0]} + multiset(Remove1(s[1..], x));
      }
    }
  }
}
