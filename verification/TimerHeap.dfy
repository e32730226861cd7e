/** The timer's event heap: container/heap over a slice whose events know their position. */
module TimerHeap {

  class Event {
    const at: int
    const sequence: nat
    var cancelled: bool
    var index: int

    constructor (at: int, sequence: nat)
      ensures this.at == at && this.sequence == sequence && !cancelled && index == -1
    {
      this.at, this.sequence := at, sequence;
      cancelled, index := false, -1;
    }
  }

  /** Earlier time first; equal times in the order of scheduling. */
  predicate Less(a: Event, b: Event) {
    if a.at == b.at then a.sequence < b.sequence else a.at < b.at
  }

  predicate LessEq(a: Event, b: Event) {
    !Less(b, a)
  }

  function Parent(i: int): int
    requires i > 0
  {
    (i - 1) / 2
  }

  /** Heap order on the first n events. */
  ghost predicate Heap(s: seq<Event>, n: nat)
    requires n <= |s|
  {
    forall i | 0 < i < n :: LessEq(s[Parent(i)], s[i])
  }

  /** Heap order but for j, which may be too early for its place. */
  ghost predicate HeapAbove(s: seq<Event>, j: nat) {
    && (forall i | 0 < i < |s| && i != j :: LessEq(s[Parent(i)], s[i]))
    && (forall i | 0 < i < |s| && Parent(i) == j && j > 0 :: LessEq(s[Parent(j)], s[i]))
  }

  /** Heap order on the first n events but for i, which may be too late for its place. */
  ghost predicate HeapBelow(s: seq<Event>, n: nat, i: nat)
    requires n <= |s|
  {
    && (forall k | 0 < k < n && Parent(k) != i :: LessEq(s[Parent(k)], s[k]))
    && (forall k | 0 < k < n && Parent(k) == i && i > 0 :: LessEq(s[Parent(i)], s[k]))
  }

  function Swapped(s: seq<Event>, i: nat, j: nat): seq<Event>
    requires i < |s| && j < |s|
  {
    s[i := s[j]][j := s[i]]
  }

  ghost predicate SameEvents(s: seq<Event>, t: seq<Event>) {
    |s| == |t| && (forall e | e in s :: e in t) && (forall e | e in t :: e in s)
  }

  lemma SwapKeeps(s: seq<Event>, i: nat, j: nat)
    requires i < |s| && j < |s|
    ensures SameEvents(Swapped(s, i, j), s)
  {
    var t := Swapped(s, i, j);
    forall e | e in s
      ensures e in t
    {
      var k :| 0 <= k < |s| && s[k] == e;
      assert t[if k == i then j else if k == j then i else k] == e;
    }
  }

  lemma UpStep(s: seq<Event>, j: nat)
    requires 0 < j < |s| && HeapAbove(s, j) && Less(s[j], s[Parent(j)])
    ensures HeapAbove(Swapped(s, Parent(j), j), Parent(j))
  {
    var p := Parent(j);
    var t := Swapped(s, p, j);
    forall i | 0 < i < |t| && i != p
      ensures LessEq(t[Parent(i)], t[i])
    {
      if i != j && Parent(i) == p {
        assert LessEq(s[p], s[i]);
      }
    }
    forall i | 0 < i < |t| && Parent(i) == p && p > 0
      ensures LessEq(t[Parent(p)], t[i])
    {
      assert LessEq(s[Parent(p)], s[p]);
      if i != j {
        assert LessEq(s[p], s[i]);
      }
    }
  }

  lemma UpDone(s: seq<Event>, j: nat)
    requires HeapAbove(s, j) && (j == 0 || (j < |s| && LessEq(s[Parent(j)], s[j])))
    ensures Heap(s, |s|)
  {
  }

  lemma DownStep(s: seq<Event>, n: nat, i: nat, j: nat)
    requires n <= |s| && 0 < j < n && Parent(j) == i && HeapBelow(s, n, i) && Less(s[j], s[i])
    requires forall k | 0 < k < n && Parent(k) == i :: LessEq(s[j], s[k])
    ensures HeapBelow(Swapped(s, i, j), n, j)
  {
  }

  /** The first event of a heap precedes every other. */
  lemma {:induction false} RootIsLeast(s: seq<Event>, n: nat, i: nat)
    requires n <= |s| && i < n && Heap(s, n)
    ensures LessEq(s[0], s[i])
  {
    if i > 0 {
      RootIsLeast(s, n, Parent(i));
    }
  }

  /** The slice the heap operations work on. */
  class EventHeap {
    var events: seq<Event>

    constructor ()
      ensures events == []
    {
      events := [];
    }

    /** Every event in the slice knows its position; so no event is in it twice. */
    ghost predicate Indexed()
      reads this, events
    {
      forall i | 0 <= i < |events| :: events[i].index == i
    }

    ghost predicate Valid()
      reads this, events
    {
      Indexed() && Heap(events, |events|)
    }

    method Swap(i: nat, j: nat)
      requires i < |events| && j < |events| && Indexed()
      modifies this, {events[i], events[j]}`index
      ensures events == Swapped(old(events), i, j) && Indexed()
    {
      var a, b := events[i], events[j];
      events := events[i := b][j := a];
      b.index := i;
      a.index := j;
    }

    method Up(start: nat)
      requires start < |events| && Indexed() && HeapAbove(events, start)
      modifies this, events`index
      ensures Valid() && SameEvents(events, old(events))
    {
      hide HeapAbove, Heap, Less;
      var j: nat := start;
      while j > 0
        invariant j < |events| && Indexed() && HeapAbove(events, j)
        invariant SameEvents(events, old(events))
      {
        var i := Parent(j);
        if !Less(events[j], events[i]) { break; }
        UpStep(events, j);
        SwapKeeps(events, i, j);
        assert events[i] in old(events) && events[j] in old(events);
        Swap(i, j);
        j := i;
      }
      UpDone(events, j);
    }

    /** Sift down within the first n events. */
    method Down(start: nat, n: nat)
      requires n <= |events| && Indexed() && HeapBelow(events, n, start) && (start < n || n == 0)
      modifies this, events`index
      ensures Indexed() && SameEvents(events, old(events)) && Heap(events, n)
      ensures events[n..] == old(events[n..])
    {
      hide HeapBelow, Heap, Less;
      var i := start;
      while true
        invariant Indexed() && SameEvents(events, old(events)) && HeapBelow(events, n, i) && (i < n || n == 0)
        invariant events[n..] == old(events[n..])
        decreases n - i
      {
        var j1 := 2 * i + 1;
        if j1 >= n { break; }
        var j := j1;
        if j1 + 1 < n && Less(events[j1 + 1], events[j1]) { j := j1 + 1; }
        LeastChild(events, n, i, j);
        if !Less(events[j], events[i]) {
          StopsHere(events, n, i, j);
          break;
        }
        DownStep(events, n, i, j);
        SwapKeeps(events, i, j);
        assert events[i] in old(events) && events[j] in old(events);
        Swap(i, j);
        i := j;
      }
      DownDone(events, n, i);
    }

    /** heap.Push. */
    method Push(e: Event)
      requires Valid() && e !in events
      modifies this, events`index, e`index
      ensures Valid() && |events| == old(|events|) + 1
      ensures forall x :: x in events <==> x in old(events) || x == e
    {
      e.index := |events|;
      events := events + [e];
      PushAbove(old(events), e);
      ghost var pushed := events;
      Up(|events| - 1);
      assert forall x :: x in pushed <==> x in old(events) || x == e;
    }

    /** heap.Pop: takes out the event that precedes all others. */
    method Pop() returns (e: Event)
      requires Valid() && |events| > 0
      modifies this, events`index
      ensures Valid() && |events| == old(|events|) - 1
      ensures e in old(events) && e.index == -1 && forall x | x in old(events) :: LessEq(e, x)
      ensures forall x :: x in events <==> x in old(events) && x != e
    {
      hide Heap, HeapBelow, Less;
      ghost var s := events;
      var n := |events| - 1;
      forall x | x in s
        ensures LessEq(s[0], x)
      {
        var i :| 0 <= i < |s| && s[i] == x;
        RootIsLeast(s, |s|, i);
      }
      SwapKeeps(s, 0, n);
      PopBelow(s);
      Swap(0, n);
      ghost var swapped := events;
      Down(0, n);
      assert events[n] == events[n..][0] == swapped[n..][0];
      e := events[n];
      assert forall i | 0 <= i < n :: events[i].index == i && events[i] != e;
      ghost var whole := events;
      HeapPrefix(events, n);
      e.index := -1;
      events := events[..n];
      assert forall x :: x in whole <==> x in events || x == e;
    }
  }

  lemma PushAbove(s: seq<Event>, e: Event)
    requires Heap(s, |s|)
    ensures HeapAbove(s + [e], |s|)
  {
  }

  lemma PopBelow(s: seq<Event>)
    requires |s| > 0 && Heap(s, |s|)
    ensures HeapBelow(Swapped(s, 0, |s| - 1), |s| - 1, 0)
  {
  }

  lemma HeapPrefix(s: seq<Event>, n: nat)
    requires n <= |s| && Heap(s, n)
    ensures Heap(s[..n], n)
  {
  }

  lemma LeastChild(s: seq<Event>, n: nat, i: nat, j: nat)
    requires n <= |s| && 2 * i + 1 < n
    requires j == if 2 * i + 2 < n && Less(s[2 * i + 2], s[2 * i + 1]) then 2 * i + 2 else 2 * i + 1
    ensures Parent(j) == i && forall k | 0 < k < n && Parent(k) == i :: LessEq(s[j], s[k])
  {
    forall k | 0 < k < n && Parent(k) == i
      ensures k == 2 * i + 1 || k == 2 * i + 2
    {
    }
  }

  lemma StopsHere(s: seq<Event>, n: nat, i: nat, j: nat)
    requires n <= |s| && i < n && j < n && LessEq(s[i], s[j])
    requires forall k | 0 < k < n && Parent(k) == i :: LessEq(s[j], s[k])
    ensures forall k | 0 < k < n && Parent(k) == i :: LessEq(s[i], s[k])
  {
  }

  lemma DownDone(s: seq<Event>, n: nat, i: nat)
    requires n <= |s| && HeapBelow(s, n, i)
    requires 2 * i + 1 >= n || (i < n && forall k | 0 < k < n && Parent(k) == i :: LessEq(s[i], s[k]))
    ensures Heap(s, n)
  {
  }
}
