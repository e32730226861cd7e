/** When an epoch can see more handler starts than its budget: exactly when it opens while a
    dispatcher still holds a copy of the task from an earlier epoch. */
module Overrun {
  import opened Values
  import opened TaskMachine
  import opened StoreRuns
  import opened Protocol
  import opened ProtocolTheorems
  import opened Drive

  // ---- a run that spends the whole budget ----

  /** Fail with retries to spare, and be moved back. */
  lemma Again(s: System, o: Origin, a: string) returns (steps: seq<Step>)
    requires Front(s, o) && Holds(s.store, o.id, a) && a in s.running
    requires o.id in s.store.tasks && s.store.tasks[o.id].msg.retryCount < s.store.tasks[o.id].msg.maxRetry
    ensures Legal(s, steps)
    ensures
      var s' := Runs(s, steps);
      && Later(s, s', o) && o.id in s'.store.tasks && IsIn(s'.store, o.id, Pending)
      && s'.store.tasks[o.id].msg.retryCount == s.store.tasks[o.id].msg.retryCount + 1
      && s'.store.tasks[o.id].msg.maxRetry == s.store.tasks[o.id].msg.maxRetry
  {
    hide Inv, Enabled, After, Later, Front, Legal, Runs, Holds, Reaches;
    var fail := Fail(a, false, 0, 0, "");
    FailLater(s, o, a);
    Single(s, fail);
    var t := After(s, fail);
    LaterIsFront(s, t, o);
    var move := MoveUp(t, o, FromRetry);
    ReachesGives(t, move, o);
    Joined(s, [fail], move);
    LaterTrans(s, t, Runs(t, move), o);
    steps := [fail] + move;
  }

  /** From a pending task, a run that starts one handler for each retry left and one more. */
  lemma {:induction false} SpendAll(s: System, o: Origin) returns (steps: seq<Step>)
    requires Front(s, o) && o.id in s.store.tasks && IsIn(s.store, o.id, Pending)
    ensures Legal(s, steps)
    ensures
      var s' := Runs(s, steps);
      && Later(s, s', o)
      && |Own(s', o)| >= |Own(s, o)| + s.store.tasks[o.id].msg.maxRetry - s.store.tasks[o.id].msg.retryCount + 1
    decreases s.store.tasks[o.id].msg.maxRetry - s.store.tasks[o.id].msg.retryCount
  {
    hide *;
    var a: string;
    a, steps := Begin(s, o);
    ReachesGives(s, steps, o);
    var t := Runs(s, steps);
    if t.store.tasks[o.id].msg.retryCount < t.store.tasks[o.id].msg.maxRetry {
      var again := Again(t, o, a);
      var u := Runs(t, again);
      LaterIsFront(t, u, o);
      OwnGrows(t, u, o);
      var rest := SpendAll(u, o);
      var v := Runs(u, rest);
      Joined(t, again, rest);
      Joined(s, steps, again + rest);
      LaterTrans(t, u, v, o);
      LaterTrans(s, t, v, o);
      steps := steps + (again + rest);
    }
  }

  // ---- when the budget holds by the clock ----

  /** The epoch has just begun: the task waits for its first claim, and no leftover attempt has started yet. */
  ghost predicate JustOpened(s: System, o: Origin) {
    && Front(s, o) && s.store.tasks[o.id].msg.retryCount == 0
    && s.store.tasks[o.id].state in {Pending, Scheduled} && LateStarts(s, o) == {}
  }

  /** A dispatcher holds a copy of the task that was claimed before the epoch. */
  ghost predicate Leftover(s: System, o: Origin, a: string) {
    a in s.waiting && a in s.claims && s.claims[a].id == o.id && s.claims[a] != o
  }

  lemma MakePending(s: System, o: Origin) returns (steps: seq<Step>)
    requires Front(s, o) && o.id in s.store.tasks && s.store.tasks[o.id].state in {Pending, Scheduled}
    ensures Reaches(s, steps, o) && IsIn(Runs(s, steps).store, o.id, Pending)
  {
    hide Inv, Front, Reaches, Runs;
    if s.store.tasks[o.id].state == Pending {
      steps := [];
      ReachesNothing(s, o);
    } else {
      steps := MoveUp(s, o, FromScheduled);
    }
  }

  /** The overrun: start the leftover, then spend the budget. */
  lemma LeftoverOverruns(s: System, o: Origin, a: string) returns (steps: seq<Step>)
    requires JustOpened(s, o) && Leftover(s, o, a)
    ensures Legal(s, steps) && |StartedDuring(Runs(s, steps), o)| > s.limits[o] + 1
  {
    hide Inv, Enabled, After, Later, Front, Legal, Runs, Own, StartedDuring, Reaches;
    var start := StartHandler(a);
    FrontGives(s, o);
    StartLater(s, o, a);
    Single(s, start);
    var t := After(s, start);
    LaterIsFront(s, t, o);
    FrontGives(t, o);
    var lead := MakePending(t, o);
    ReachesGives(t, lead, o);
    var u := Runs(t, lead);
    var rest := SpendAll(u, o);
    var v := Runs(u, rest);
    Joined(t, lead, rest);
    Joined(s, [start], lead + rest);
    LaterTrans(t, u, v, o);
    OneMoreThanOwn(t, v, o, a);
    steps := [start] + (lead + rest);
  }

  lemma OneMoreThanOwn(t: System, v: System, o: Origin, a: string)
    requires Later(t, v, o) && a in t.started && t.started[a] == o.epoch && a in t.claims
    requires t.claims[a].id == o.id && t.claims[a] != o
    ensures |StartedDuring(v, o)| > |Own(v, o)|
  {
    hide Front;
    assert Own(v, o) + {a} <= StartedDuring(v, o) && a !in Own(v, o);
    SubsetSize(Own(v, o) + {a}, StartedDuring(v, o));
  }

  /** The bound of MaxRetry + 1 handler starts during an epoch holds over every continuation if and only if
      no dispatcher holds a leftover copy of the task when the epoch opens. */
  lemma BudgetHoldsIffNoLeftover(s: System, o: Origin)
    requires JustOpened(s, o)
    ensures
      (forall steps | Legal(s, steps) :: |StartedDuring(Runs(s, steps), o)| <= s.limits[o] + 1)
      <==> (forall a :: !Leftover(s, o, a))
  {
    if a :| Leftover(s, o, a) {
      var steps := LeftoverOverruns(s, o, a);
      hide Runs, Legal, StartedDuring;
      assert !(|StartedDuring(Runs(s, steps), o)| <= s.limits[o] + 1);
    } else {
      NothingLeft(s, o);
      forall steps | Legal(s, steps)
        ensures |StartedDuring(Runs(s, steps), o)| <= s.limits[o] + 1
      {
        hide Inv, Enabled, After, Legal, Runs, StartedDuring, NoLeftovers, LateStarts;
        PromptEpochsKeepBudget(s, steps, o);
        LimitStays(s, steps, o);
      }
    }
  }

  lemma NothingLeft(s: System, o: Origin)
    requires JustOpened(s, o) && forall a :: !Leftover(s, o, a)
    ensures Inv(s) && o in s.limits && NoLeftovers(s, o) && o.epoch <= EpochOf(s, o.id)
  {
    hide Inv;
    forall a | a in s.waiting && a in s.claims && s.claims[a].id == o.id
      ensures s.claims[a] == o
    {
      assert !Leftover(s, o, a);
    }
  }

  /** Limits, once set for an epoch, stay. */
  lemma {:induction false} LimitStays(s: System, steps: seq<Step>, o: Origin)
    requires Inv(s) && Legal(s, steps) && o in s.limits
    ensures o in Runs(s, steps).limits && Runs(s, steps).limits[o] == s.limits[o]
    decreases |steps|
  {
    if steps != [] {
      StepKeeps(s, steps[0]);
      LimitStep(s, steps[0], o);
      hide Inv, Enabled, After;
      LimitStays(After(s, steps[0]), steps[1..], o);
    }
  }

  lemma LimitSettled(s: System, step: Step, store: Machine, ok: bool, o: Origin)
    requires Enabled(s, step) && o in s.limits && o.epoch <= EpochOf(s, o.id)
    ensures o in Settle(s, step, store, ok).limits && Settle(s, step, store, ok).limits[o] == s.limits[o]
  {
    hide Settle, Enabled;
    SettleEpochs(s, step, store, ok);
  }

  lemma LimitStep(s: System, step: Step, o: Origin)
    requires Inv(s) && Enabled(s, step) && o in s.limits
    ensures o in After(s, step).limits && After(s, step).limits[o] == s.limits[o]
  {
    assert o.id in s.epoch && o.epoch <= s.epoch[o.id] by { assert ClaimsOk(s); }
    AfterSettles(s, step);
    hide Inv, Enabled, Settle, After;
    if Call(s, step).Some? {
      var op := Call(s, step).value;
      hide Call, Apply, Succeeds;
      LimitSettled(s, step, Apply(s.store, op), Succeeds(s.store, op), o);
    } else {
      LimitSettled(s, step, s.store, true, o);
    }
  }

  // ---- every opening of an epoch is such a beginning ----

  /** No handler was started in an epoch that is yet to come. */
  ghost predicate StartsPast(s: System) {
    forall a | a in s.started && a in s.claims :: s.started[a] <= EpochOf(s, s.claims[a].id)
  }

  lemma CopiesAreClaimed(s: System)
    requires Inv(s)
    ensures forall a | a in s.waiting :: a in s.claims
    ensures forall a | a in s.started :: a in s.claims
  {
    hide WellFormed, TasksOk, ClaimsOk, TriesOk, ReplaysOk;
    assert forall a | a in s.waiting :: CopyOk(s, a, s.waiting[a]);
  }

  lemma BooksPast(s: System, step: Step, s': System)
    requires StartsPast(s) && BooksAdvance(s, step, s') && forall a | a in s.started :: a in s.claims
    ensures StartsPast(s')
  {
    hide EpochOf;
  }

  lemma StartsPastStep(s: System, step: Step)
    requires Inv(s) && StartsPast(s) && Enabled(s, step)
    ensures StartsPast(After(s, step))
  {
    hide *;
    CopiesAreClaimed(s);
    BooksStep(s, step);
    BooksPast(s, step, After(s, step));
  }

  lemma {:induction false} AlwaysStartsPast(s: System, steps: seq<Step>)
    requires Inv(s) && StartsPast(s) && Legal(s, steps)
    ensures Inv(Runs(s, steps)) && StartsPast(Runs(s, steps))
    decreases |steps|
  {
    hide Inv, StartsPast, Enabled, After;
    if steps != [] {
      StepKeeps(s, steps[0]);
      StartsPastStep(s, steps[0]);
      AlwaysStartsPast(After(s, steps[0]), steps[1..]);
    }
  }

  lemma OpenedTask(m: Machine, op: Op)
    requires WellFormed(m) && (op.Enqueue? || op.Schedule? || op.Replay?) && Succeeds(m, op)
    ensures
      var id, m' := (if op.Replay? then op.id else op.msg.id), Apply(m, op);
      id in m'.tasks && m'.tasks[id].msg == op.msg && m'.tasks[id].state in {Pending, Scheduled}
  {
    hide WellFormed;
  }

  lemma EpochOpens(s: System, step: Step, store: Machine)
    requires Enabled(s, step) && OpensEpoch(step)
    ensures
      var s', id := Settle(s, step, store, true), step.msg.id;
      && EpochOf(s', id) == EpochOf(s, id) + 1 && Origin(id, EpochOf(s', id)) in s'.limits
      && s'.limits[Origin(id, EpochOf(s', id))] == step.msg.maxRetry
      && s'.started == s.started && s'.claims == s.claims
  {
    hide RecoveriesAfter, ReplaysAfter, Next, Claimed;
    match step
    case Enqueue(_, _) =>
    case Schedule(_, _, _) =>
    case WriteReplay(_, _, _) =>
  }

  /** The script call that opens an epoch. */
  ghost predicate OpeningCall(op: Op, id: string) {
    && (op.Enqueue? || op.Schedule? || op.Replay?) && op.msg.retryCount == 0
    && (if op.Replay? then op.id else op.msg.id) == id
  }

  lemma OpensByCall(s: System, step: Step)
    requires Enabled(s, step) && OpensEpoch(step)
    ensures Call(s, step).Some? && OpeningCall(Call(s, step).value, step.msg.id)
  {
    match step
    case Enqueue(_, _) =>
    case Schedule(_, _, _) =>
    case WriteReplay(_, _, _) =>
  }

  lemma NobodyStartedYet(s: System, s': System, id: string)
    requires StartsPast(s) && s'.started == s.started && s'.claims == s.claims && EpochOf(s', id) == EpochOf(s, id) + 1
    ensures StartedDuring(s', Origin(id, EpochOf(s', id))) == {} && LateStarts(s', Origin(id, EpochOf(s', id))) == {}
  {
    hide EpochOf;
  }

  /** Each enqueue, schedule or replay that succeeds begins an epoch in which no handler has started. */
  lemma EveryEpochJustOpens(s: System, step: Step)
    requires Inv(s) && StartsPast(s) && Enabled(s, step) && OpensEpoch(step)
    requires Call(s, step).Some? && Succeeds(s.store, Call(s, step).value)
    ensures
      var s' := After(s, step);
      var o := Origin(step.msg.id, EpochOf(s', step.msg.id));
      JustOpened(s', o) && StartedDuring(s', o) == {} && o in s'.limits && s'.limits[o] == step.msg.maxRetry
  {
    hide Inv, StartsPast, Enabled, Call, Apply, Succeeds, Settle, After, EpochOf, WellFormed;
    hide LateStarts, StartedDuring;
    var op := Call(s, step).value;
    OpensByCall(s, step);
    StandingStore(s);
    StepKeeps(s, step);
    OpenedTask(s.store, op);
    AfterSettles(s, step);
    EpochOpens(s, step, Apply(s.store, op));
    NobodyStartedYet(s, After(s, step), step.msg.id);
  }

  /** Over whole runs: after any run of the system, let an enqueue, schedule or replay succeed. The epoch it opens
      keeps to MaxRetry + 1 handler starts over every continuation if and only if no dispatcher then holds
      a copy of the task from before. */
  lemma EveryEpochKeepsBudgetIff(steps: seq<Step>, step: Step)
    requires Legal(START, steps) && Enabled(Runs(START, steps), step) && OpensEpoch(step)
    requires
      var call := Call(Runs(START, steps), step);
      call.Some? && Succeeds(Runs(START, steps).store, call.value)
    ensures
      var s := After(Runs(START, steps), step);
      var o := Origin(step.msg.id, EpochOf(s, step.msg.id));
      && o in s.limits && s.limits[o] == step.msg.maxRetry
      && ((forall more | Legal(s, more) :: |StartedDuring(Runs(s, more), o)| <= step.msg.maxRetry + 1)
          <==> (forall a :: !Leftover(s, o, a)))
  {
    var id := step.msg.id;
    hide *;
    StartInv();
    StartsPastAtStart();
    AlwaysStartsPast(START, steps);
    var s0 := Runs(START, steps);
    EveryEpochJustOpens(s0, step);
    BudgetHoldsIffNoLeftover(After(s0, step), Origin(id, EpochOf(After(s0, step), id)));
  }

  lemma StartsPastAtStart()
    ensures StartsPast(START)
  {
  }
}
