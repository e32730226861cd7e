/** One server's goroutines: the dispatcher, its workers and the callers of Stop and Shutdown,
    with the channels and contexts between them. */
module Lifecycle {

  datatype Phase = New | Running | Stopped

  /** Where the dispatcher is in its loop. Tasks it claims are numbered in the order of their claims. */
  datatype Dispatcher =
    | NotStarted
    | Top                     // about to look at the stop channel
    | Polling                 // moving ready tasks, counting pending ones
    | Asking                  // asking the token bucket
    | Claiming                // trying the queues in turn
    | Holding(task: nat)      // offering a claimed task to the workers
    | Waiting                 // in waitOrStop
    | Leaving                 // returned; the jobs channel is still open
    | JobsClosed
    | Gone                    // dispatchDone is closed

  datatype Worker = Ready | Busy(task: nat) | Exited

  datatype Server = Server(
    phase: Phase, limited: bool, dispatcher: Dispatcher, workers: seq<Worker>,
    stopClosed: nat, jobsClosed: nat,       // how often each channel was closed
    handlersCancelled: bool, cancelled: bool,
    stops: nat,                             // Stop calls about to cancel the lifecycle context
    shutdowns: nat,                         // Shutdown calls waiting for the work to end
    stopCalled: bool, timedOut: bool,
    claims: nat, grants: nat, claimsAfterStop: nat,
    sent: map<nat, nat>,                    // tasks handed over, and to which worker
    requeued: set<nat>)                     // tasks passed to Requeue

  function Fresh(limited: bool): Server {
    Server(New, limited, NotStarted, [], 0, 0, false, false, 0, 0, false, false, 0, 0, 0, map[], {})
  }

  datatype Step =
    | Start(concurrency: nat)
    | LookAtStop
    | Poll(pending: bool)
    | Acquire(allowed: bool)
    | Claim(found: bool)
    | Send(worker: nat)
    | GiveBack
    | WakeUp
    | StopWaiting
    | CloseJobs
    | CloseDone
    | Finish(worker: nat)
    | Exit(worker: nat)
    | CallStop
    | CancelByStop
    | CallShutdown
    | WorkEnded
    | TimeOut

  predicate StopOpen(s: Server) {
    s.stopClosed == 0
  }

  predicate AllExited(workers: seq<Worker>) {
    forall w | w in workers :: w == Exited
  }

  predicate Enabled(s: Server, step: Step) {
    match step
    case Start(concurrency) => s.phase == New && concurrency > 0
    case LookAtStop => s.dispatcher.Top?
    case Poll(_) => s.dispatcher.Polling?
    case Acquire(_) => s.dispatcher.Asking?
    case Claim(_) => s.dispatcher.Claiming?
    case Send(w) => s.dispatcher.Holding? && w < |s.workers| && s.workers[w] == Ready
    case GiveBack => s.dispatcher.Holding? && !StopOpen(s)
    case WakeUp => s.dispatcher.Waiting?
    case StopWaiting => s.dispatcher.Waiting? && !StopOpen(s)
    case CloseJobs => s.dispatcher.Leaving?
    case CloseDone => s.dispatcher.JobsClosed?
    case Finish(w) => w < |s.workers| && s.workers[w].Busy?
    case Exit(w) => w < |s.workers| && s.workers[w] == Ready && s.jobsClosed > 0
    case CallStop => true
    case CancelByStop => s.stops > 0
    case CallShutdown => true
    case WorkEnded => s.shutdowns > 0 && s.dispatcher.Gone? && AllExited(s.workers)
    case TimeOut => s.shutdowns > 0
  }

  /** requestStop: the first caller closes the stop channel and cancels the handlers. */
  function RequestStop(s: Server): Server {
    if s.phase != Running then s
    else s.(phase := Stopped, stopClosed := s.stopClosed + 1, handlersCancelled := true)
  }

  function After(s: Server, step: Step): Server
    requires Enabled(s, step)
  {
    match step
    case Start(n) => s.(phase := Running, dispatcher := Top, workers := seq(n, _ => Ready))
    case LookAtStop => s.(dispatcher := if StopOpen(s) then Polling else Leaving)
    case Poll(pending) => s.(dispatcher := if !pending then Waiting else if s.limited then Asking else Claiming)
    case Acquire(allowed) =>
      if allowed then s.(dispatcher := Claiming, grants := s.grants + 1) else s.(dispatcher := Waiting)
    case Claim(found) =>
      if !found then s.(dispatcher := Waiting)
      else s.(dispatcher := Holding(s.claims), claims := s.claims + 1,
              claimsAfterStop := s.claimsAfterStop + (if StopOpen(s) then 0 else 1))
    case Send(w) =>
      s.(dispatcher := Top, workers := s.workers[w := Busy(s.dispatcher.task)], sent := s.sent[s.dispatcher.task := w])
    case GiveBack => s.(dispatcher := Leaving, requeued := s.requeued + {s.dispatcher.task})
    case WakeUp => s.(dispatcher := Top)
    case StopWaiting => s.(dispatcher := Leaving)
    case CloseJobs => s.(dispatcher := JobsClosed, jobsClosed := s.jobsClosed + 1)
    case CloseDone => s.(dispatcher := Gone)
    case Finish(w) => s.(workers := s.workers[w := Ready])
    case Exit(w) => s.(workers := s.workers[w := Exited])
    case CallStop => if s.phase == Running then RequestStop(s).(stops := s.stops + 1, stopCalled := true) else s
    case CancelByStop => s.(stops := s.stops - 1, cancelled := true)
    case CallShutdown => if s.phase == New then s else RequestStop(s).(shutdowns := s.shutdowns + 1)
    case WorkEnded => s.(shutdowns := s.shutdowns - 1, cancelled := true)
    case TimeOut => s.(shutdowns := s.shutdowns - 1, cancelled := true, timedOut := true)
  }

  predicate Legal(s: Server, steps: seq<Step>)
    decreases |steps|
  {
    steps == [] || (Enabled(s, steps[0]) && Legal(After(s, steps[0]), steps[1..]))
  }

  function Runs(s: Server, steps: seq<Step>): Server
    requires Legal(s, steps)
    decreases |steps|
  {
    if steps == [] then s else Runs(After(s, steps[0]), steps[1..])
  }

  // ---- the invariant ----

  /** Each claimed task is in one place: on offer, handed over, or given back. */
  ghost predicate HandOffOk(s: Server) {
    && (forall k | k in s.sent :: k < s.claims && s.sent[k] < |s.workers| && k !in s.requeued)
    && (forall k | k in s.requeued :: k < s.claims)
    && (s.dispatcher.Holding? ==>
          s.dispatcher.task < s.claims && s.dispatcher.task !in s.sent && s.dispatcher.task !in s.requeued)
    && (forall k: nat | k < s.claims :: k in s.sent || k in s.requeued || s.dispatcher == Holding(k))
    && (forall w | 0 <= w < |s.workers| && s.workers[w].Busy? ::
          s.workers[w].task in s.sent && s.sent[s.workers[w].task] == w)
  }

  predicate Midway(d: Dispatcher) {
    d.Polling? || d.Asking? || d.Claiming?
  }

  predicate Left(d: Dispatcher) {
    d.Leaving? || d.JobsClosed? || d.Gone?
  }

  ghost predicate StopOk(s: Server) {
    && (s.phase == Stopped <==> s.stopClosed == 1) && s.stopClosed <= 1
    && (s.phase == New <==> s.dispatcher.NotStarted?) && (s.phase == New ==> s.workers == [])
    && (s.handlersCancelled <==> s.phase == Stopped)
    && (s.phase != Stopped ==> s.stops == 0 && s.shutdowns == 0 && !s.cancelled && !s.stopCalled && !s.timedOut)
    && (s.stops > 0 ==> s.stopCalled)
    && s.claimsAfterStop + (if !StopOpen(s) && Midway(s.dispatcher) then 1 else 0) <= 1
    && (StopOpen(s) ==> s.claimsAfterStop == 0)
  }

  ghost predicate ClosingOk(s: Server) {
    && s.jobsClosed == (if s.dispatcher.JobsClosed? || s.dispatcher.Gone? then 1 else 0)
    && (Left(s.dispatcher) ==> s.phase == Stopped)
    && (s.jobsClosed == 0 ==> Exited !in s.workers)
    && (s.cancelled && !s.stopCalled && !s.timedOut ==> s.dispatcher.Gone? && AllExited(s.workers))
  }

  ghost predicate TokensOk(s: Server) {
    s.limited ==> s.claims + (if s.dispatcher.Claiming? then 1 else 0) <= s.grants
  }

  ghost predicate Inv(s: Server) {
    HandOffOk(s) && StopOk(s) && ClosingOk(s) && TokensOk(s)
  }

  lemma SendKeepsHandOff(s: Server, w: nat)
    requires HandOffOk(s) && Enabled(s, Send(w))
    ensures HandOffOk(After(s, Send(w)))
  {
    var t, k := After(s, Send(w)), s.dispatcher.task;
    assert t.workers == s.workers[w := Busy(k)] && t.sent == s.sent[k := w];
    assert t.requeued == s.requeued && t.claims == s.claims;
  }

  lemma WorkerKeepsHandOff(s: Server, w: nat, state: Worker)
    requires HandOffOk(s) && w < |s.workers| && !state.Busy?
    ensures HandOffOk(s.(workers := s.workers[w := state]))
  {
  }

  /** Steps that move no task. */
  predicate Idle(step: Step) {
    !(step.Start? || step.Claim? || step.Send? || step.GiveBack? || step.Finish? || step.Exit?)
  }

  lemma IdleMovesNothing(s: Server, step: Step)
    requires Enabled(s, step) && Idle(step)
    ensures
      var t := After(s, step);
      && t.claims == s.claims && t.sent == s.sent && t.requeued == s.requeued && t.workers == s.workers
      && (t.dispatcher == s.dispatcher || (!t.dispatcher.Holding? && !s.dispatcher.Holding?))
  {
    match step
    case LookAtStop =>
    case Poll(_) =>
    case Acquire(_) =>
    case CallStop =>
    case CallShutdown =>
    case _ =>
  }

  lemma StartKeepsHandOff(s: Server, concurrency: nat)
    requires HandOffOk(s) && s.workers == [] && !s.dispatcher.Holding?
    ensures HandOffOk(s.(phase := Running, dispatcher := Top, workers := seq(concurrency, _ => Ready)))
  {
    assert forall k | k in s.sent :: false;
  }

  lemma ClaimKeepsHandOff(s: Server, found: bool)
    requires HandOffOk(s) && Enabled(s, Claim(found))
    ensures HandOffOk(After(s, Claim(found)))
  {
  }

  lemma GiveBackKeepsHandOff(s: Server)
    requires HandOffOk(s) && Enabled(s, GiveBack)
    ensures HandOffOk(After(s, GiveBack))
  {
  }

  lemma IdleKeepsHandOff(s: Server, t: Server)
    requires HandOffOk(s) && t.claims == s.claims
    requires t.sent == s.sent && t.requeued == s.requeued && t.workers == s.workers
    requires t.dispatcher == s.dispatcher || (!t.dispatcher.Holding? && !s.dispatcher.Holding?)
    ensures HandOffOk(t)
  {
  }

  lemma StepKeepsHandOff(s: Server, step: Step)
    requires HandOffOk(s) && StopOk(s) && Enabled(s, step)
    ensures HandOffOk(After(s, step))
  {
    hide HandOffOk, AllExited;
    match step
    case Start(n) => StartKeepsHandOff(s, n);
    case Send(w) => SendKeepsHandOff(s, w);
    case GiveBack => GiveBackKeepsHandOff(s);
    case Finish(w) => WorkerKeepsHandOff(s, w, Ready);
    case Exit(w) => WorkerKeepsHandOff(s, w, Exited);
    case Claim(found) => ClaimKeepsHandOff(s, found);
    case _ =>
      IdleMovesNothing(s, step);
      IdleKeepsHandOff(s, After(s, step));
  }

  lemma StepKeepsStop(s: Server, step: Step)
    requires StopOk(s) && ClosingOk(s) && Enabled(s, step)
    ensures StopOk(After(s, step))
  {
    hide AllExited;
    match step
    case Start(_) =>
    case LookAtStop =>
    case Poll(_) =>
    case Acquire(_) =>
    case Claim(_) =>
    case CallStop =>
    case CallShutdown =>
    case TimeOut =>
    case WorkEnded =>
    case CancelByStop =>
    case Send(_) =>
    case _ =>
  }

  lemma WorkersKeepClosing(s: Server, w: nat, state: Worker)
    requires StopOk(s) && ClosingOk(s) && w < |s.workers| && s.workers[w] != Exited
    requires state == Exited ==> s.jobsClosed > 0
    ensures ClosingOk(s.(workers := s.workers[w := state]))
  {
    assert s.workers[w] in s.workers;
    assert forall v | v in s.workers[w := state] :: v == state || v in s.workers;
  }

  lemma StartKeepsClosing(s: Server, n: nat)
    requires StopOk(s) && ClosingOk(s) && Enabled(s, Start(n))
    ensures ClosingOk(After(s, Start(n)))
  {
    hide AllExited;
    assert Exited !in seq(n, _ => Ready);
  }

  lemma SendKeepsClosing(s: Server, w: nat)
    requires StopOk(s) && ClosingOk(s) && Enabled(s, Send(w))
    ensures ClosingOk(After(s, Send(w)))
  {
    hide AllExited;
    WorkersKeepClosing(s, w, Busy(s.dispatcher.task));
  }

  /** Steps that leave the workers alone. */
  lemma OthersKeepClosing(s: Server, step: Step)
    requires StopOk(s) && ClosingOk(s) && Enabled(s, step)
    requires !step.Start? && !step.Send? && !step.Finish? && !step.Exit?
    ensures ClosingOk(After(s, step))
  {
    hide AllExited;
    match step
    case WorkEnded =>
    case TimeOut =>
    case CallStop =>
    case CallShutdown =>
    case CancelByStop =>
    case Poll(_) =>
    case Acquire(_) =>
    case Claim(_) =>
    case LookAtStop =>
    case GiveBack =>
    case WakeUp =>
    case StopWaiting =>
    case CloseJobs =>
    case CloseDone =>
  }

  lemma StepKeepsClosing(s: Server, step: Step)
    requires StopOk(s) && ClosingOk(s) && Enabled(s, step)
    ensures ClosingOk(After(s, step))
  {
    hide StopOk, ClosingOk;
    match step
    case Start(n) => StartKeepsClosing(s, n);
    case Send(w) => SendKeepsClosing(s, w);
    case Finish(w) => WorkersKeepClosing(s, w, Ready);
    case Exit(w) => WorkersKeepClosing(s, w, Exited);
    case _ => OthersKeepClosing(s, step);
  }

  lemma StepKeepsTokens(s: Server, step: Step)
    requires TokensOk(s) && Enabled(s, step)
    ensures TokensOk(After(s, step))
  {
    hide AllExited;
    match step
    case LookAtStop =>
    case Poll(_) =>
    case Acquire(_) =>
    case Claim(_) =>
    case CallStop =>
    case CallShutdown =>
    case Send(_) =>
    case _ =>
  }

  lemma StepKeeps(s: Server, step: Step)
    requires Inv(s) && Enabled(s, step)
    ensures Inv(After(s, step))
  {
    hide HandOffOk, StopOk, ClosingOk, TokensOk, Enabled, After;
    StepKeepsHandOff(s, step);
    StepKeepsStop(s, step);
    StepKeepsClosing(s, step);
    StepKeepsTokens(s, step);
  }

  lemma {:induction false} AlwaysInv(s: Server, steps: seq<Step>)
    requires Inv(s) && Legal(s, steps)
    ensures Inv(Runs(s, steps))
    decreases |steps|
  {
    if steps != [] {
      StepKeeps(s, steps[0]);
      AlwaysInv(After(s, steps[0]), steps[1..]);
    }
  }
}
