/** The timer: its calls and the critical sections of its runner, on the event heap. */
module TimeWheel {
  import opened Values
  import opened TimerHeap
  import opened WheelMachine

  class Wheel {
    const heap: EventHeap
    var sequence: nat
    var wake: bool // the one-slot wake channel: a send that finds it full is dropped
    ghost var queued: map<nat, Event>
    ghost var made: set<Event> // every event ever scheduled

    /** An event's index is its position in the heap, or -1 once it is out. */
    ghost predicate Valid()
      reads this, heap, heap.events, made
    {
      && heap.Valid()
      && (forall e | e in heap.events :: e in made)
      && (forall e | e in made && e !in heap.events :: e.index == -1)
      && (forall n | n in queued :: n <= sequence && queued[n] in heap.events && queued[n].sequence == n)
      && (forall e | e in heap.events :: e.sequence in queued && queued[e.sequence] == e)
    }

    ghost function View(): Queue
      requires Valid()
      reads this, heap, heap.events, made
    {
      map n | n in queued :: Ev(queued[n].at, queued[n].cancelled)
    }

    constructor ()
      ensures Valid() && View() == map[] && sequence == 0 && !wake && made == {}
      ensures fresh(heap)
    {
      heap := new EventHeap();
      sequence, wake, queued, made := 0, false, map[], {};
    }

    method Schedule(at: int) returns (e: Event)
      requires Valid()
      modifies this, heap, made
      ensures Valid() && wake && sequence == old(sequence) + 1
      ensures fresh(e) && e.sequence == sequence && e in heap.events && made == old(made) + {e}
      ensures View() == old(View())[sequence := Ev(at, false)]
    {
      hide Heap, Less;
      ghost var q := View();
      sequence := sequence + 1;
      e := new Event(at, sequence);
      queued, made := queued[sequence := e], made + {e};
      heap.Push(e);
      wake := true; // signal
      Viewed(q[sequence := Ev(at, false)]);
    }

    /** The view, event by event. */
    lemma Viewed(q: Queue)
      requires Valid() && q.Keys == queued.Keys
      requires forall n | n in queued :: Ev(queued[n].at, queued[n].cancelled) == q[n]
      ensures View() == q
    {
    }

    /** The closure Schedule returns. An event out of the heap has index -1 and is left alone. */
    method Cancel(e: Event)
      requires Valid() && e in made
      modifies this`wake, e`cancelled
      ensures Valid() && wake
      ensures View() == if old(e in heap.events) then Cancelled(old(View()), e.sequence) else old(View())
    {
      if e.index >= 0 { e.cancelled := true; }
      wake := true; // signal
    }

    /** Takes the earliest event out. */
    method Pop() returns (e: Event)
      requires Valid() && |heap.events| > 0
      modifies this, heap, made
      ensures Valid() && sequence == old(sequence) && wake == old(wake) && made == old(made)
      ensures IsFirst(old(View()), e.sequence) && e.index == -1 && e !in heap.events
      ensures Ev(e.at, e.cancelled) == old(View())[e.sequence]
      ensures |heap.events| == old(|heap.events|) - 1
      ensures View() == old(View()) - {e.sequence}
    {
      e := heap.Pop();
      queued := queued - {e.sequence};
    }

    /** The head of the heap is the first queued event. */
    lemma HeadIsFirst()
      requires Valid() && |heap.events| > 0
      ensures IsFirst(View(), heap.events[0].sequence)
      ensures View()[heap.events[0].sequence] == Ev(heap.events[0].at, heap.events[0].cancelled)
    {
      var s := heap.events;
      forall n | n in queued
        ensures n == s[0].sequence || Precedes(View(), s[0].sequence, n)
      {
        var i :| 0 <= i < |s| && s[i] == queued[n];
        RootIsLeast(s, |s|, i);
      }
    }

    /** The runner's first critical section: drop cancelled heads and find the event to wait for. */
    method Scan() returns (next: Option<Event>)
      requires Valid()
      modifies this, heap, made
      ensures Valid() && sequence == old(sequence) && wake == old(wake) && made == old(made)
      ensures View() == Purged(old(View()))
      ensures next.None? <==> View() == map[]
      ensures next.Some? ==> next.value in heap.events && IsFirst(View(), next.value.sequence)
      ensures next.Some? ==> View()[next.value.sequence] == Ev(next.value.at, false)
    {
      hide IsFirst, Purged;
      while |heap.events| > 0 && heap.events[0].cancelled
        invariant Valid() && sequence == old(sequence) && wake == old(wake) && made == old(made)
        invariant Purged(View()) == Purged(old(View()))
        decreases |heap.events|
      {
        HeadIsFirst();
        ghost var q, head := View(), heap.events[0].sequence;
        var e := Pop();
        PurgeOne(q, e.sequence, head);
      }
      if |heap.events| == 0 {
        EmptyView();
        PurgeEmpty();
        next := None;
      } else {
        HeadIsFirst();
        PurgeStops(View(), heap.events[0].sequence);
        next := Some(heap.events[0]);
      }
    }

    lemma EmptyView()
      requires Valid() && |heap.events| == 0
      ensures View() == map[]
    {
    }

    /** The runner's second critical section, after its timer fired: the event whose callback to run. */
    method Fire() returns (fired: Option<Event>)
      requires Valid()
      modifies this, heap, made
      ensures Valid() && sequence == old(sequence) && wake == old(wake) && made == old(made)
      ensures old(View()) == map[] ==> fired.None? && View() == map[]
      ensures old(View()) != map[] ==>
        var n := FirstOf(old(View()));
        && View() == old(View()) - {n} && fired.Some? == !old(View())[n].cancelled
        && (fired.Some? ==> fired.value.sequence == n)
    {
      if |heap.events| == 0 { return None; }
      HeadIsFirst();
      ghost var q := View();
      var e := Pop();
      FirstUnique(q, e.sequence, FirstOf(q));
      fired := if e.cancelled then None else Some(e);
    }
  }

  lemma PurgeOne(q: Queue, n: nat, head: nat)
    requires IsFirst(q, n) && IsFirst(q, head) && q[head].cancelled
    ensures Purged(q) == Purged(q - {n})
  {
    FirstUnique(q, n, FirstOf(q));
    FirstUnique(q, head, FirstOf(q));
  }

  lemma PurgeEmpty()
    ensures Purged(map[]) == map[]
  {
  }

  lemma PurgeStops(q: Queue, head: nat)
    requires IsFirst(q, head) && !q[head].cancelled
    ensures Purged(q) == q && q != map[]
  {
    FirstUnique(q, head, FirstOf(q));
  }
}
