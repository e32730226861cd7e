/** Every interleaving of the timer's users with its runner, and of the dispatcher's waits with both. */
module WheelRuns {
  import opened Values
  import opened WheelMachine

  /** Where the runner is: about to scan, parked on an empty heap, parked on a timer armed for an event,
      past that timer but not yet at the lock, in a callback, or done. */
  datatype Runner = Top | Idle | Armed(n: nat, at: int) | Elapsed(n: nat, at: int) | Calling(n: nat) | Ended

  datatype World = World(
    queue: Queue, sequence: nat,
    wake: bool,             // a token in the one-slot wake channel
    signals: nat,           // calls that have left the lock and are about to signal
    run: Runner, now: int,
    fired: set<nat>,        // events whose callbacks were started
    cancels: set<nat>,      // events cancelled while queued
    waits: set<nat>,        // events scheduled by the dispatcher to wake itself
    waiting: Option<nat>,   // the event the dispatcher is waiting for
    token: Option<nat>,     // the dispatcher's one-slot wake channel, and the event that filled it
    stopped: bool)          // the dispatcher left a wait because the server stopped

  const START := World(map[], 0, false, 0, Top, 0, {}, {}, {}, None, None, false)

  datatype Step =
    | Schedule(at: int)     // some other user of the timer
    | BeginWait(at: int)
    | EndWait               // the dispatcher takes the token
    | StopWait
    | Cancel(n: nat)
    | Signal
    | Scan
    | TakeWake
    | Elapse
    | Fire
    | Return                // the callback comes back
    | Tick(now: int)
    | Quit

  ghost predicate Enabled(w: World, step: Step) {
    match step
    case Schedule(_) => true
    case BeginWait(_) => w.waiting.None? && !w.stopped
    case EndWait => w.waiting.Some? && w.token.Some?
    case StopWait => w.waiting.Some?
    case Cancel(n) => n in w.waits ==> w.waiting != Some(n)
    case Signal => w.signals > 0
    case Scan => w.run.Top?
    case TakeWake => (w.run.Idle? || w.run.Armed?) && w.wake
    case Elapse => w.run.Armed? && w.run.at <= w.now
    case Fire => w.run.Elapsed?
    case Return => w.run.Calling?
    case Tick(now) => w.now <= now
    case Quit => w.run.Idle? || w.run.Armed?
  }

  function Added(w: World, at: int): World {
    w.(queue := w.queue[w.sequence + 1 := Ev(at, false)], sequence := w.sequence + 1, signals := w.signals + 1)
  }

  ghost function After(w: World, step: Step): World
    requires Enabled(w, step)
  {
    match step
    case Schedule(at) => Added(w, at)
    case BeginWait(at) => Added(w, at).(waits := w.waits + {w.sequence + 1}, waiting := Some(w.sequence + 1))
    case EndWait => w.(waiting := None, token := None)
    case StopWait => w.(waiting := None, stopped := true)
    case Cancel(n) =>
      w.(queue := Cancelled(w.queue, n), signals := w.signals + 1,
         cancels := if n in w.queue then w.cancels + {n} else w.cancels)
    case Signal => w.(signals := w.signals - 1, wake := true)
    case Scan =>
      var q := Purged(w.queue);
      w.(queue := q, run := if q == map[] then Idle else Armed(FirstOf(q), q[FirstOf(q)].at))
    case TakeWake => w.(wake := false, run := Top)
    case Elapse => w.(run := Elapsed(w.run.n, w.run.at))
    case Fire =>
      if w.queue == map[] then w.(run := Top) else
      var n := FirstOf(w.queue);
      var w' := w.(queue := w.queue - {n});
      if w.queue[n].cancelled then w'.(run := Top) else w'.(run := Calling(n), fired := w.fired + {n})
    case Return =>
      var w' := w.(run := Top);
      if w.run.n in w.waits && w.token.None? then w'.(token := Some(w.run.n)) else w'
    case Tick(now) => w.(now := now)
    case Quit => w.(run := Ended)
  }

  ghost predicate Legal(w: World, steps: seq<Step>)
    decreases |steps|
  {
    steps == [] || (Enabled(w, steps[0]) && Legal(After(w, steps[0]), steps[1..]))
  }

  ghost function Runs(w: World, steps: seq<Step>): World
    requires Legal(w, steps)
    decreases |steps|
  {
    if steps == [] then w else Runs(After(w, steps[0]), steps[1..])
  }

  // ---- the invariant ----

  ghost predicate Numbered(w: World) {
    && (forall n | n in w.queue :: n <= w.sequence && n !in w.fired)
    && (forall n | n in w.fired :: n <= w.sequence)
    && (forall n | n in w.cancels :: n <= w.sequence)
    && (forall n | n in w.waits :: n <= w.sequence)
    && (w.run.Calling? ==> w.run.n in w.fired)
  }

  /** The event the runner armed its timer for stays queued: only the runner takes events out. */
  ghost predicate ArmedOk(w: World) {
    && (w.run.Armed? || w.run.Elapsed? ==> w.run.n in w.queue && w.queue[w.run.n].at == w.run.at)
    && (w.run.Elapsed? ==> w.run.at <= w.now)
  }

  /** A wake-up for the runner is in the channel or about to be sent. */
  ghost predicate WakeComing(w: World) {
    w.wake || w.signals > 0
  }

  ghost predicate WakesOk(w: World) {
    && (w.run.Idle? && w.queue != map[] ==> WakeComing(w))
    && (w.run.Armed? && !IsFirst(w.queue, w.run.n) ==> WakeComing(w))
  }

  ghost predicate CancelsOk(w: World) {
    forall n | n in w.cancels :: n !in w.fired && (n in w.queue ==> w.queue[n].cancelled)
  }

  /** A wait's event can still wake, or has just woken, the dispatcher. */
  ghost predicate Live(w: World, n: nat) {
    (n in w.queue && !w.queue[n].cancelled) || w.run == Calling(n) || w.token == Some(n)
  }

  ghost predicate WaitsOk(w: World) {
    && (forall n | n in w.waits && Live(w, n) :: w.waiting == Some(n) || w.stopped)
    && (w.waiting.Some? ==> w.waiting.value in w.waits && !w.stopped && Live(w, w.waiting.value))
    && (w.token.Some? ==> w.token.value in w.waits && w.token.value in w.fired && w.run != Calling(w.token.value))
  }

  ghost predicate Inv(w: World) {
    Numbered(w) && ArmedOk(w) && WakesOk(w) && CancelsOk(w) && WaitsOk(w)
  }

  lemma {:induction false} PurgedKeeps(q: Queue, n: nat)
    ensures n in Purged(q) ==> n in q && Purged(q)[n] == q[n]
    ensures n in q && n !in Purged(q) ==> q[n].cancelled
    decreases |q|
  {
    if q != map[] && q[FirstOf(q)].cancelled {
      var f := FirstOf(q);
      assert q.Keys == (q - {f}).Keys + {f};
      PurgedKeeps(q - {f}, n);
    }
  }

  lemma StepKeepsNumbered(w: World, step: Step)
    requires Numbered(w) && Enabled(w, step)
    ensures Numbered(After(w, step))
  {
    match step
    case Scan =>
      forall n
        ensures n in Purged(w.queue) ==> n in w.queue
      {
        PurgedKeeps(w.queue, n);
      }
      hide Purged, FirstOf;
    case Schedule(_) =>
    case BeginWait(_) =>
    case Cancel(_) =>
    case Fire =>
    case _ =>
  }

  lemma StepKeepsArmed(w: World, step: Step)
    requires Numbered(w) && ArmedOk(w) && Enabled(w, step)
    ensures ArmedOk(After(w, step))
  {
  }

  lemma StepKeepsWakes(w: World, step: Step)
    requires Numbered(w) && ArmedOk(w) && WakesOk(w) && Enabled(w, step)
    ensures WakesOk(After(w, step))
  {
  }

  lemma StepKeepsCancels(w: World, step: Step)
    requires Numbered(w) && CancelsOk(w) && Enabled(w, step)
    ensures CancelsOk(After(w, step))
  {
    forall n
      ensures n in Purged(w.queue) ==> n in w.queue && Purged(w.queue)[n] == w.queue[n]
    {
      PurgedKeeps(w.queue, n);
    }
  }

  lemma ScanKeepsWaits(w: World)
    requires WaitsOk(w) && Enabled(w, Scan)
    ensures WaitsOk(After(w, Scan))
  {
    forall n
      ensures n in Purged(w.queue) ==> n in w.queue && Purged(w.queue)[n] == w.queue[n]
      ensures n in w.queue && n !in Purged(w.queue) ==> w.queue[n].cancelled
    {
      PurgedKeeps(w.queue, n);
    }
    hide Purged, FirstOf;
  }

  lemma StepKeepsWaits(w: World, step: Step)
    requires Numbered(w) && CancelsOk(w) && WaitsOk(w) && Enabled(w, step)
    ensures WaitsOk(After(w, step))
  {
    hide Purged;
    match step
    case Scan => ScanKeepsWaits(w);
    case Schedule(_) =>
    case BeginWait(_) =>
    case EndWait =>
    case StopWait =>
    case Cancel(_) =>
    case Fire =>
    case Return =>
    case _ =>
  }

  lemma StepKeeps(w: World, step: Step)
    requires Inv(w) && Enabled(w, step)
    ensures Inv(After(w, step))
  {
    hide Enabled, After, Numbered, ArmedOk, WakesOk, CancelsOk, WaitsOk;
    StepKeepsNumbered(w, step);
    StepKeepsArmed(w, step);
    StepKeepsWakes(w, step);
    StepKeepsCancels(w, step);
    StepKeepsWaits(w, step);
  }

  lemma {:induction false} AlwaysInv(w: World, steps: seq<Step>)
    requires Inv(w) && Legal(w, steps)
    ensures Inv(Runs(w, steps))
    decreases |steps|
  {
    if steps != [] {
      StepKeeps(w, steps[0]);
      AlwaysInv(After(w, steps[0]), steps[1..]);
    }
  }

  // ---- what it gives ----

  lemma StartInv()
    ensures Inv(START)
  {
  }

  /** Whenever the runner comes to fire, there is an event, and the one it takes is due, however the
      heap changed while the timer slept. */
  lemma FiresOnlyDue(steps: seq<Step>)
    requires Legal(START, steps) && Runs(START, steps).run.Elapsed?
    ensures
      var w := Runs(START, steps);
      w.queue != map[] && w.queue[FirstOf(w.queue)].at <= w.now
  {
    StartInv();
    AlwaysInv(START, steps);
    var w := Runs(START, steps);
    hide Legal, Runs;
    assert w.run.n in w.queue;
    assert IsFirst(w.queue, FirstOf(w.queue));
  }

  /** No lost wake-up: while the runner sleeps past an event it should serve first, a wake-up is coming. */
  lemma NoLostWakeup(steps: seq<Step>)
    requires Legal(START, steps)
    ensures
      var w := Runs(START, steps);
      && (w.run.Idle? && w.queue != map[] ==> WakeComing(w))
      && (w.run.Armed? ==>
            w.run.n in w.queue && forall k | k in w.queue && Precedes(w.queue, k, w.run.n) :: WakeComing(w))
  {
    StartInv();
    AlwaysInv(START, steps);
  }

  /** How often the callback of event n is started over a run. */
  ghost function StartCount(w: World, steps: seq<Step>, n: nat): nat
    requires Legal(w, steps)
    decreases |steps|
  {
    if steps == [] then 0 else
    var w' := After(w, steps[0]);
    (if steps[0].Fire? && w'.run == Calling(n) then 1 else 0) + StartCount(w', steps[1..], n)
  }

  lemma FireStarts(w: World, n: nat)
    requires Inv(w) && Enabled(w, Fire) && After(w, Fire).run == Calling(n)
    ensures n in w.queue && n !in w.fired && n !in w.cancels && n in After(w, Fire).fired
  {
  }

  lemma HistoryGrows(w: World, step: Step)
    requires Enabled(w, step)
    ensures w.fired <= After(w, step).fired && w.cancels <= After(w, step).cancels
  {
  }

  /** Each event fires at most once, and not at all once it was cancelled in the queue. */
  lemma {:induction false} FiresAtMostOnce(w: World, steps: seq<Step>, n: nat)
    requires Inv(w) && Legal(w, steps)
    ensures StartCount(w, steps, n) <= 1
    ensures n in w.fired || n in w.cancels ==> StartCount(w, steps, n) == 0
    decreases |steps|
  {
    if steps != [] {
      var w' := After(w, steps[0]);
      StepKeeps(w, steps[0]);
      HistoryGrows(w, steps[0]);
      if steps[0].Fire? && w'.run == Calling(n) {
        FireStarts(w, n);
      }
      hide Inv, Enabled, After;
      FiresAtMostOnce(w', steps[1..], n);
    }
  }

  /** The dispatcher wakes only on the token of the event it scheduled itself, and while it waits
      that event is queued, firing or already in its channel: the wake-up is neither stale nor lost. */
  lemma WaitsAreServed(steps: seq<Step>)
    requires Legal(START, steps) && Runs(START, steps).waiting.Some?
    ensures
      var w := Runs(START, steps);
      && (w.token.Some? ==> w.token == w.waiting)
      && Live(w, w.waiting.value)
  {
    StartInv();
    AlwaysInv(START, steps);
    var w := Runs(START, steps);
    hide Legal, Runs;
    if w.token.Some? {
      assert Live(w, w.token.value);
    }
  }
}
