/** What a server promises about hand-over, stopping and shutting down, over every run. */
module LifecycleTheorems {
  import opened Values
  import opened Lifecycle

  lemma FreshInv(limited: bool)
    ensures Inv(Fresh(limited))
  {
  }

  lemma Reachable(limited: bool, steps: seq<Step>)
    requires Legal(Fresh(limited), steps)
    ensures Inv(Runs(Fresh(limited), steps))
  {
    FreshInv(limited);
    AlwaysInv(Fresh(limited), steps);
  }

  // ---- hand-over ----

  ghost function SendCount(s: Server, steps: seq<Step>, k: nat): nat
    requires Legal(s, steps)
    decreases |steps|
  {
    if steps == [] then 0 else
    (if steps[0].Send? && s.dispatcher == Holding(k) then 1 else 0) + SendCount(After(s, steps[0]), steps[1..], k)
  }

  ghost function GiveBackCount(s: Server, steps: seq<Step>, k: nat): nat
    requires Legal(s, steps)
    decreases |steps|
  {
    if steps == [] then 0 else
    (if steps[0].GiveBack? && s.dispatcher == Holding(k) then 1 else 0)
    + GiveBackCount(After(s, steps[0]), steps[1..], k)
  }

  predicate Settled(s: Server, k: nat) {
    k in s.sent || k in s.requeued
  }

  lemma SettledBy(s: Server, step: Step, k: nat)
    requires Inv(s) && Enabled(s, step)
    ensures
      Settled(After(s, step), k) <==>
      Settled(s, k) || ((step.Send? || step.GiveBack?) && s.dispatcher == Holding(k))
    ensures Settled(s, k) ==> s.dispatcher != Holding(k)
  {
    hide StopOk, ClosingOk, TokensOk, AllExited;
    if Idle(step) {
      IdleMovesNothing(s, step);
      hide After, Enabled;
    }
  }

  lemma {:induction false} SettledOnce(s: Server, steps: seq<Step>, k: nat)
    requires Inv(s) && Legal(s, steps)
    ensures
      SendCount(s, steps, k) + GiveBackCount(s, steps, k) + (if Settled(s, k) then 1 else 0)
      == (if Settled(Runs(s, steps), k) then 1 else 0)
    decreases |steps|
  {
    if steps != [] {
      StepKeeps(s, steps[0]);
      SettledBy(s, steps[0], k);
      hide Inv, Enabled, After, Settled;
      SettledOnce(After(s, steps[0]), steps[1..], k);
    }
  }

  /** Every claimed task is handed to one worker once, or given back once, and never both; the only
      one still open is the one the dispatcher is holding. Nothing unclaimed is handed over. */
  lemma EveryClaimIsSettledOnce(limited: bool, steps: seq<Step>, k: nat)
    requires Legal(Fresh(limited), steps)
    ensures
      var s := Runs(Fresh(limited), steps);
      SendCount(Fresh(limited), steps, k) + GiveBackCount(Fresh(limited), steps, k)
      == (if k < s.claims && s.dispatcher != Holding(k) then 1 else 0)
  {
    FreshInv(limited);
    SettledOnce(Fresh(limited), steps, k);
    Reachable(limited, steps);
    var s := Runs(Fresh(limited), steps);
    hide StopOk, ClosingOk, TokensOk, SendCount, GiveBackCount, Runs, Legal;
    assert HandOffOk(s);
  }

  /** The workers that are running a handler. */
  function Handling(s: Server): set<nat> {
    set w | 0 <= w < |s.workers| && s.workers[w].Busy? :: w
  }

  function UpTo(n: nat): (r: set<nat>)
    ensures |r| == n && forall k :: k in r <==> 0 <= k < n
  {
    if n == 0 then {} else UpTo(n - 1) + {n - 1}
  }

  ghost function Concurrency(steps: seq<Step>): nat {
    if steps == [] then 0 else if steps[0].Start? then steps[0].concurrency else Concurrency(steps[1..])
  }

  lemma WorkersStay(s: Server, step: Step)
    requires Enabled(s, step)
    ensures step.Start? ==>
      s.phase == New && |After(s, step).workers| == step.concurrency && After(s, step).phase != New
    ensures !step.Start? ==>
      |After(s, step).workers| == |s.workers| && (After(s, step).phase == New <==> s.phase == New)
  {
    hide AllExited;
  }

  lemma {:induction false} WorkersAreFixed(s: Server, steps: seq<Step>)
    requires Inv(s) && Legal(s, steps)
    ensures |Runs(s, steps).workers| == if s.phase == New then Concurrency(steps) else |s.workers|
    decreases |steps|
  {
    if steps != [] {
      StepKeeps(s, steps[0]);
      WorkersStay(s, steps[0]);
      assert s.phase == New ==> s.workers == [];
      hide Inv, Enabled, After, StopOk;
      WorkersAreFixed(After(s, steps[0]), steps[1..]);
    }
  }

  /** Running handlers: never more than the configured concurrency, each on a task of its own that the
      dispatcher no longer holds. */
  lemma HandlersWithinConcurrency(limited: bool, steps: seq<Step>)
    requires Legal(Fresh(limited), steps)
    ensures
      var s := Runs(Fresh(limited), steps);
      && |Handling(s)| <= Concurrency(steps)
      && (forall v, w | v in Handling(s) && w in Handling(s) && v != w :: s.workers[v].task != s.workers[w].task)
      && (forall w | w in Handling(s) :: s.dispatcher != Holding(s.workers[w].task) && s.workers[w].task !in s.requeued)
  {
    FreshInv(limited);
    WorkersAreFixed(Fresh(limited), steps);
    Reachable(limited, steps);
    var s := Runs(Fresh(limited), steps);
    hide StopOk, ClosingOk, TokensOk, Runs, Legal;
    SubsetSize(Handling(s), UpTo(|s.workers|));
  }

  // ---- stopping ----

  /** After the stop channel is closed the dispatcher gets at most one more task. Both channels are closed
      at most once, no one sends on a closed channel, and the lifecycle context is cancelled only
      once the stop channel is closed, so a waiting dispatcher can always leave. */
  lemma StopIsOrderly(limited: bool, steps: seq<Step>)
    requires Legal(Fresh(limited), steps)
    ensures
      var s := Runs(Fresh(limited), steps);
      && s.claimsAfterStop <= 1 && s.stopClosed <= 1 && s.jobsClosed <= 1
      && (s.dispatcher.Holding? ==> s.jobsClosed == 0)
      && (s.cancelled ==> s.stopClosed == 1) && (s.handlersCancelled <==> s.stopClosed == 1)
      && (s.cancelled && s.dispatcher.Waiting? ==> Enabled(s, StopWaiting))
  {
    Reachable(limited, steps);
    hide HandOffOk, TokensOk, Runs, Legal;
  }

  /** The steps with which a Stop or a Shutdown call cancels the lifecycle context. */
  predicate Cancels(step: Step) {
    step.CancelByStop? || step.WorkEnded? || step.TimeOut?
  }

  lemma CancelStep(s: Server, step: Step)
    requires Enabled(s, step)
    ensures After(s, step).cancelled == (s.cancelled || Cancels(step))
  {
    hide AllExited;
    match step
    case LookAtStop =>
    case Poll(_) =>
    case Acquire(_) =>
    case Claim(_) =>
    case CallStop =>
    case CallShutdown =>
    case Send(_) =>
    case _ =>
  }

  /** The lifecycle context is cancelled as soon as a Stop or a Shutdown comes to its end, and only then. */
  lemma {:induction false} CancelledIff(s: Server, steps: seq<Step>)
    requires Legal(s, steps)
    ensures Runs(s, steps).cancelled <==> s.cancelled || exists step :: step in steps && Cancels(step)
    decreases |steps|
  {
    if steps != [] {
      CancelStep(s, steps[0]);
      hide Enabled, After, Cancels;
      CancelledIff(After(s, steps[0]), steps[1..]);
      assert forall step :: step in steps <==> step == steps[0] || step in steps[1..];
    }
  }

  /** Calls that find the server running, or at least started, and so have a context to cancel. */
  ghost function StopCalls(s: Server, steps: seq<Step>): nat
    requires Legal(s, steps)
    decreases |steps|
  {
    if steps == [] then 0 else
    (if steps[0].CallStop? && s.phase == Running then 1 else 0) + StopCalls(After(s, steps[0]), steps[1..])
  }

  ghost function ShutdownCalls(s: Server, steps: seq<Step>): nat
    requires Legal(s, steps)
    decreases |steps|
  {
    if steps == [] then 0 else
    (if steps[0].CallShutdown? && s.phase != New then 1 else 0) + ShutdownCalls(After(s, steps[0]), steps[1..])
  }

  function StopEnds(steps: seq<Step>): nat {
    if steps == [] then 0 else (if steps[0].CancelByStop? then 1 else 0) + StopEnds(steps[1..])
  }

  function ShutdownEnds(steps: seq<Step>): nat {
    if steps == [] then 0 else
    (if steps[0].WorkEnded? || steps[0].TimeOut? then 1 else 0) + ShutdownEnds(steps[1..])
  }

  lemma CallsStep(s: Server, step: Step)
    requires Enabled(s, step)
    ensures
      var t := After(s, step);
      && s.stops + (if step.CallStop? && s.phase == Running then 1 else 0)
         == (if step.CancelByStop? then 1 else 0) + t.stops
      && s.shutdowns + (if step.CallShutdown? && s.phase != New then 1 else 0)
         == (if step.WorkEnded? || step.TimeOut? then 1 else 0) + t.shutdowns
  {
    hide AllExited;
    match step
    case LookAtStop =>
    case Poll(_) =>
    case Acquire(_) =>
    case Claim(_) =>
    case CallStop =>
    case CallShutdown =>
    case Send(_) =>
    case _ =>
  }

  /** Every Stop that stops the server, and every Shutdown of a started one, ends in one cancellation of its own or
      is still on its way to it. */
  lemma {:induction false} CallsAreAnswered(s: Server, steps: seq<Step>)
    requires Legal(s, steps)
    ensures s.stops + StopCalls(s, steps) == StopEnds(steps) + Runs(s, steps).stops
    ensures s.shutdowns + ShutdownCalls(s, steps) == ShutdownEnds(steps) + Runs(s, steps).shutdowns
    decreases |steps|
  {
    if steps != [] {
      CallsStep(s, steps[0]);
      hide Enabled, After;
      CallsAreAnswered(After(s, steps[0]), steps[1..]);
    }
  }

  predicate Hasty(step: Step) {
    step.CallStop? || step.TimeOut?
  }

  lemma StaysUnhurried(s: Server, step: Step)
    requires Enabled(s, step) && !Hasty(step)
    ensures After(s, step).stopCalled == s.stopCalled && After(s, step).timedOut == s.timedOut
  {
    hide AllExited;
    match step
    case LookAtStop =>
    case Poll(_) =>
    case Acquire(_) =>
    case Claim(_) =>
    case Send(_) =>
    case _ =>
  }

  lemma {:induction false} NoHaste(s: Server, steps: seq<Step>)
    requires Legal(s, steps) && (forall step | step in steps :: !Hasty(step))
    ensures Runs(s, steps).stopCalled == s.stopCalled && Runs(s, steps).timedOut == s.timedOut
    decreases |steps|
  {
    if steps != [] {
      assert steps[0] in steps;
      StaysUnhurried(s, steps[0]);
      hide Enabled, After;
      NoHaste(After(s, steps[0]), steps[1..]);
    }
  }

  /** If nobody calls Stop and no Shutdown times out, the lifecycle context outlives the dispatcher and
      every worker: no store call of theirs is ever cut short. */
  lemma GracefulShutdown(limited: bool, steps: seq<Step>)
    requires Legal(Fresh(limited), steps) && (forall step | step in steps :: !Hasty(step))
    ensures
      var s := Runs(Fresh(limited), steps);
      s.cancelled ==> s.dispatcher.Gone? && AllExited(s.workers) && forall k: nat | k < s.claims :: Settled(s, k)
  {
    Reachable(limited, steps);
    NoHaste(Fresh(limited), steps);
    hide Runs, Legal, TokensOk, StopOk;
  }

  // ---- a stopped server comes to rest ----

  predicate OwnStep(step: Step) {
    !(step.Start? || step.CallStop? || step.CancelByStop? || step.CallShutdown? || step.WorkEnded? || step.TimeOut?)
  }

  function DispatcherWeight(d: Dispatcher): nat {
    match d
    case NotStarted => 0
    case Gone => 0
    case JobsClosed => 2
    case Leaving => 4
    case Top => 6
    case Waiting => 8
    case Holding(_) => 8
    case Claiming => 10
    case Asking => 12
    case Polling => 14
  }

  function WorkerWeight(w: Worker): nat {
    match w
    case Busy(_) => 2
    case Ready => 1
    case Exited => 0
  }

  function WorkersWeight(workers: seq<Worker>): (r: nat)
    ensures r <= 2 * |workers|
  {
    if workers == [] then 0 else
    WorkerWeight(workers[0]) + WorkersWeight(workers[1..])
  }

  lemma {:induction false} WeightOfUpdate(workers: seq<Worker>, w: nat, state: Worker)
    requires w < |workers|
    ensures
      WorkersWeight(workers[w := state]) - WorkersWeight(workers) == WorkerWeight(state) - WorkerWeight(workers[w])
  {
    var updated := workers[w := state];
    if w == 0 {
      assert updated[1..] == workers[1..];
    } else {
      assert updated[1..] == workers[1..][w - 1 := state];
      WeightOfUpdate(workers[1..], w - 1, state);
    }
  }

  function Weight(s: Server): nat {
    DispatcherWeight(s.dispatcher) + WorkersWeight(s.workers)
  }

  lemma DispatcherWeightFalls(s: Server, step: Step)
    requires Enabled(s, step) && s.stopClosed == 1 && OwnStep(step) && !step.Finish? && !step.Exit?
    ensures DispatcherWeight(After(s, step).dispatcher) + 2 <= DispatcherWeight(s.dispatcher)
  {
    hide AllExited, WorkersWeight;
    match step
    case LookAtStop =>
    case Poll(_) =>
    case Acquire(_) =>
    case Claim(_) =>
    case Send(_) =>
    case _ =>
  }

  lemma OutsidersMoveNothing(s: Server, step: Step)
    requires Enabled(s, step) && s.phase == Stopped && !OwnStep(step)
    ensures After(s, step).dispatcher == s.dispatcher && After(s, step).workers == s.workers
  {
    hide AllExited;
    match step
    case Start(_) =>
    case CallStop =>
    case CallShutdown =>
    case TimeOut =>
    case _ =>
  }

  lemma StaysStopped(s: Server, step: Step)
    requires Enabled(s, step) && s.phase == Stopped
    ensures After(s, step).phase == Stopped
  {
    hide AllExited;
    match step
    case LookAtStop =>
    case Poll(_) =>
    case Acquire(_) =>
    case Claim(_) =>
    case CallStop =>
    case CallShutdown =>
    case _ =>
  }

  lemma WorkersWeightAfter(s: Server, step: Step)
    requires Enabled(s, step) && OwnStep(step)
    ensures
      var t := After(s, step);
      if step.Send? then WorkersWeight(t.workers) == WorkersWeight(s.workers) + 1
      else if step.Finish? || step.Exit? then
        WorkersWeight(t.workers) == WorkersWeight(s.workers) - 1 && t.dispatcher == s.dispatcher
      else t.workers == s.workers
  {
    hide AllExited, WorkersWeight;
    if step.Send? || step.Finish? || step.Exit? {
      WeightOfUpdate(s.workers, step.worker, After(s, step).workers[step.worker]);
    } else if Idle(step) {
      IdleMovesNothing(s, step);
    }
  }

  lemma WeightFalls(s: Server, step: Step)
    requires Inv(s) && Enabled(s, step) && s.phase == Stopped
    ensures After(s, step).phase == Stopped
    ensures if OwnStep(step) then Weight(After(s, step)) < Weight(s) else Weight(After(s, step)) == Weight(s)
  {
    StaysStopped(s, step);
    assert s.stopClosed == 1;
    hide Enabled, After, Inv, DispatcherWeight, WorkersWeight;
    if OwnStep(step) {
      WorkersWeightAfter(s, step);
      if !step.Finish? && !step.Exit? {
        DispatcherWeightFalls(s, step);
      }
    } else {
      OutsidersMoveNothing(s, step);
    }
  }

  ghost function OwnSteps(steps: seq<Step>): nat {
    if steps == [] then 0 else (if OwnStep(steps[0]) then 1 else 0) + OwnSteps(steps[1..])
  }

  /** Once stopped, the goroutines of a server have a bounded number of steps left, whatever else happens. */
  lemma {:induction false} StoppedServerRunsDown(s: Server, steps: seq<Step>)
    requires Inv(s) && Legal(s, steps) && s.phase == Stopped
    ensures OwnSteps(steps) <= Weight(s) <= 14 + 2 * |s.workers|
    decreases |steps|
  {
    if steps != [] {
      StepKeeps(s, steps[0]);
      WeightFalls(s, steps[0]);
      hide Inv, Enabled, After, OwnStep;
      assert Weight(s) <= 14 + 2 * |s.workers|;
      hide Weight;
      StoppedServerRunsDown(After(s, steps[0]), steps[1..]);
    }
  }

  /** And it never gets stuck on the way: until the dispatcher is gone and the workers have exited, one of
      them can take a step, so a waiting Shutdown is eventually told that the work has ended. */
  lemma StoppedServerIsNeverStuck(s: Server)
    requires Inv(s) && s.phase == Stopped
    ensures (exists step :: OwnStep(step) && Enabled(s, step)) || (s.dispatcher.Gone? && AllExited(s.workers))
  {
    hide HandOffOk, TokensOk;
    var step :=
      match s.dispatcher
      case Top => LookAtStop
      case Polling => Poll(true)
      case Asking => Acquire(true)
      case Claiming => Claim(true)
      case Holding(_) => GiveBack
      case Waiting => StopWaiting
      case Leaving => CloseJobs
      case _ => CloseDone;
    if s.dispatcher.Gone? {
      if w :| 0 <= w < |s.workers| && s.workers[w] != Exited {
        var last := if s.workers[w].Busy? then Finish(w) else Exit(w);
        assert OwnStep(last) && Enabled(s, last);
      }
    } else {
      assert OwnStep(step) && Enabled(s, step);
    }
  }
}
