/** The timer as a set of queued events, and the interleavings of its users with its one runner. */
module WheelMachine {

  datatype Ev = Ev(at: int, cancelled: bool)

  /** Queued events by sequence number. */
  type Queue = map<nat, Ev>

  /** Event a is due to come out before event b. */
  predicate Precedes(q: Queue, a: nat, b: nat)
    requires a in q && b in q
  {
    q[a].at < q[b].at || (q[a].at == q[b].at && a < b)
  }

  ghost predicate IsFirst(q: Queue, n: nat) {
    n in q && forall k | k in q :: k == n || Precedes(q, n, k)
  }

  lemma {:induction false} FirstExists(q: Queue) returns (n: nat)
    requires q != map[]
    ensures IsFirst(q, n)
    decreases |q|
  {
    var k :| k in q;
    var rest := q - {k};
    assert q.Keys == rest.Keys + {k};
    if rest == map[] {
      assert forall j | j in q :: j == k;
      return k;
    }
    var r := FirstExists(rest);
    n := if Precedes(q, k, r) then k else r;
    forall j | j in q
      ensures j == n || Precedes(q, n, j)
    {
      if j != k {
        assert j in rest;
      }
    }
  }

  ghost function FirstOf(q: Queue): (n: nat)
    requires q != map[]
    ensures IsFirst(q, n)
  {
    assert exists n :: IsFirst(q, n) by {
      var n := FirstExists(q);
    }
    var n :| IsFirst(q, n);
    n
  }

  lemma FirstUnique(q: Queue, a: nat, b: nat)
    requires IsFirst(q, a) && IsFirst(q, b)
    ensures a == b
  {
  }

  function Cancelled(q: Queue, n: nat): Queue {
    if n in q then q[n := q[n].(cancelled := true)] else q
  }

  /** Cancelled events at the head are thrown away. */
  ghost function Purged(q: Queue): Queue
    decreases |q|
  {
    if q != map[] && q[FirstOf(q)].cancelled then
      assert q.Keys == (q - {FirstOf(q)}).Keys + {FirstOf(q)};
      Purged(q - {FirstOf(q)})
    else q
  }
}
