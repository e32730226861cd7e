/** What the invariant of Protocol.dfy gives for every run of the whole system. */
module ProtocolTheorems {
  import opened Values
  import opened TaskMachine
  import opened StoreRuns
  import opened Protocol

  lemma StartInv()
    ensures Inv(START)
  {
  }

  // ---- handler starts ----

  /** Handlers started for attempts claimed in one epoch of a task. */
  ghost function Starts(s: System, o: Origin): set<string> {
    set a | a in s.started && a in s.claims && s.claims[a] == o
  }

  lemma StartsWithinBudget(s: System, o: Origin)
    requires Inv(s) && o in s.limits
    ensures |Starts(s, o)| <= s.limits[o] + 1
  {
    assert Starts(s, o) <= Tries(s, o);
    SubsetSize(Starts(s, o), Tries(s, o));
  }

  /** Over every run, crashes, recoveries and requeues included: at most MaxRetry + 1 handler starts
      for the attempts claimed in one epoch, and no stored retry count above its budget. */
  lemma HandlerStartsBounded(steps: seq<Step>, o: Origin)
    requires Legal(START, steps) && o in Runs(START, steps).limits
    ensures
      var s := Runs(START, steps);
      && |Starts(s, o)| <= s.limits[o] + 1
      && forall id | id in s.store.tasks :: 0 <= s.store.tasks[id].msg.retryCount <= s.store.tasks[id].msg.maxRetry
  {
    StartInv();
    hide After, Enabled, WellFormed, CopiesOk, StartsOk, TriesOk, ReplaysOk, ClaimsOk;
    AlwaysInv(START, steps);
    StartsWithinBudget(Runs(START, steps), o);
  }

  /** Handlers started while a task was in one epoch, whenever their attempts were claimed. */
  ghost function StartedDuring(s: System, o: Origin): set<string> {
    set a | a in s.started && a in s.claims && s.claims[a].id == o.id && s.started[a] == o.epoch
  }

  /** Those of them whose attempts are left over from an earlier epoch. */
  ghost function LateStarts(s: System, o: Origin): set<string> {
    set a | a in StartedDuring(s, o) && s.claims[a] != o
  }

  /** By the clock, an epoch sees its own budget of starts and one more for each leftover attempt. */
  lemma StartsDuringEpoch(s: System, o: Origin)
    requires Inv(s) && o in s.limits
    ensures |StartedDuring(s, o)| <= s.limits[o] + 1 + |LateStarts(s, o)|
  {
    StartsWithinBudget(s, o);
    var own := StartedDuring(s, o) - LateStarts(s, o);
    assert own <= Starts(s, o);
    SubsetSize(own, Starts(s, o));
    assert StartedDuring(s, o) == own + LateStarts(s, o);
  }

  /** No dispatcher still holds a copy of the task that was claimed before epoch e. */
  ghost predicate NoLeftovers(s: System, o: Origin) {
    EpochOf(s, o.id) == o.epoch ==>
    forall a | a in s.waiting && a in s.claims && s.claims[a].id == o.id :: s.claims[a] == o
  }

  /** How one step changes the accounts. */
  ghost predicate BooksAdvance(s: System, step: Step, s': System) {
    && (forall a | a in s'.started ::
          || (a in s.started && s'.started[a] == s.started[a])
          || (step == StartHandler(a) && a in s.waiting && a in s.claims
              && s'.started[a] == EpochOf(s, s.claims[a].id)))
    && (forall a | a in s.claims :: a in s'.claims && s'.claims[a] == s.claims[a])
    && (forall a | a in s'.claims && a !in s.claims ::
          s'.claims[a].epoch == EpochOf(s, s'.claims[a].id) && s'.epoch == s.epoch)
    && (forall a | a in s'.waiting && a !in s.waiting :: a !in s.claims && a in s'.claims)
    && (forall id :: EpochOf(s, id) <= EpochOf(s', id))
  }

  lemma BooksStep(s: System, step: Step)
    requires Enabled(s, step)
    requires forall a | a in s.waiting :: a in s.claims
    ensures BooksAdvance(s, step, After(s, step))
    ensures forall o | o in s.limits :: o in After(s, step).limits
  {
    hide Apply, Succeeds, Settle, BooksAdvance;
    match Call(s, step)
    case Some(op) => SettleBooks(s, step, Apply(s.store, op), Succeeds(s.store, op));
    case None => SettleBooks(s, step, s.store, true);
  }

  ghost predicate EpochsAdvance(s: System, s': System) {
    && (forall id :: EpochOf(s, id) <= EpochOf(s', id))
    && (forall o | o in s.limits :: o in s'.limits)
  }

  lemma NewEpochAdvances(s: System, id: string, maxRetry: int)
    ensures EpochsAdvance(s, NewEpoch(s, id, maxRetry))
  {
  }

  predicate OpensEpoch(step: Step) {
    step.Enqueue? || step.Schedule? || step.WriteReplay?
  }

  predicate SameEpochs(s: System, s': System) {
    s'.epoch == s.epoch && s'.limits == s.limits
  }

  lemma NewEpochOfSame(s: System, t: System, id: string, maxRetry: int)
    requires SameEpochs(s, t)
    ensures SameEpochs(NewEpoch(s, id, maxRetry), NewEpoch(t, id, maxRetry))
  {
  }

  lemma SettleEpochs(s: System, step: Step, store: Machine, ok: bool)
    requires Enabled(s, step)
    ensures
      var s' := Settle(s, step, store, ok);
      || SameEpochs(s', s)
      || (OpensEpoch(step) && SameEpochs(s', NewEpoch(s.(store := store), step.msg.id, step.msg.maxRetry)))
  {
    hide Enabled, RecoveriesAfter, ReplaysAfter, Next, Claimed, NewEpoch, EpochOf;
    var s0 := s.(store := store);
    var base := s0.(recovering := RecoveriesAfter(s, step), replaying := ReplaysAfter(s, step));
    match step
    case Enqueue(msg, _) => NewEpochOfSame(base, s0, msg.id, msg.maxRetry);
    case Schedule(msg, _, _) => NewEpochOfSame(base, s0, msg.id, msg.maxRetry);
    case WriteReplay(msg, _, _) => NewEpochOfSame(base, s0, msg.id, msg.maxRetry);
    case Claim(_, _) =>
    case StartHandler(_) =>
    case GiveBack(_) =>
    case Crash(_, _, _) =>
    case Succeed(_, _) =>
    case Fail(_, _, _, _, _) =>
    case _ =>
  }

  lemma SettleStarted(s: System, step: Step, store: Machine, ok: bool)
    requires Enabled(s, step)
    ensures !step.StartHandler? ==> Settle(s, step, store, ok).started == s.started
  {
    hide Enabled, RecoveriesAfter, ReplaysAfter, Next, Claimed, EpochOf;
    match step
    case Enqueue(_, _) =>
    case Schedule(_, _, _) =>
    case Claim(_, _) =>
    case StartHandler(_) =>
    case GiveBack(_) =>
    case Crash(_, _, _) =>
    case Succeed(_, _) =>
    case Fail(_, _, _, _, _) =>
    case WriteReplay(_, _, _) =>
    case _ =>
  }

  lemma SettleClaims(s: System, step: Step, store: Machine, ok: bool)
    requires Enabled(s, step)
    ensures
      var s' := Settle(s, step, store, ok);
      !step.Claim? ==> s'.claims == s.claims && forall a | a in s'.waiting :: a in s.waiting
  {
    hide Enabled, RecoveriesAfter, ReplaysAfter, Next, Claimed, EpochOf;
    match step
    case Enqueue(_, _) =>
    case Schedule(_, _, _) =>
    case Claim(_, _) =>
    case StartHandler(_) =>
    case GiveBack(_) =>
    case Crash(_, _, _) =>
    case Succeed(_, _) =>
    case Fail(_, _, _, _, _) =>
    case WriteReplay(_, _, _) =>
    case _ =>
  }

  /** Which accounts a step can touch. */
  lemma SettleTouches(s: System, step: Step, store: Machine, ok: bool)
    requires Enabled(s, step)
    ensures
      var s' := Settle(s, step, store, ok);
      && (!step.StartHandler? ==> s'.started == s.started)
      && (!step.Claim? ==> s'.claims == s.claims && forall a | a in s'.waiting :: a in s.waiting)
      && (step.Claim? ==> s'.epoch == s.epoch)
      && EpochsAdvance(s, s')
  {
    hide Settle, Enabled, NewEpoch;
    SettleEpochs(s, step, store, ok);
    SettleStarted(s, step, store, ok);
    SettleClaims(s, step, store, ok);
    var s0, s' := s.(store := store), Settle(s, step, store, ok);
    assert forall id :: EpochOf(s0, id) == EpochOf(s, id);
    if OpensEpoch(step) {
      var t := NewEpoch(s0, step.msg.id, step.msg.maxRetry);
      NewEpochAdvances(s0, step.msg.id, step.msg.maxRetry);
      assert SameEpochs(s', t) ==> forall id :: EpochOf(s', id) == EpochOf(t, id);
    }
  }

  lemma SettleBooks(s: System, step: Step, store: Machine, ok: bool)
    requires Enabled(s, step)
    requires forall a | a in s.waiting :: a in s.claims
    ensures BooksAdvance(s, step, Settle(s, step, store, ok))
    ensures forall o | o in s.limits :: o in Settle(s, step, store, ok).limits
  {
    var s' := Settle(s, step, store, ok);
    SettleTouches(s, step, store, ok);
    if !step.StartHandler? && !step.Claim? {
      hide Settle, Enabled;
    } else {
      hide RecoveriesAfter, ReplaysAfter, Next, Claimed;
      assert s'.epoch == s.epoch;
    }
  }

  lemma NoLeftoversStep(s: System, step: Step, s': System, o: Origin)
    requires ClaimsOk(s) && StartsOk(s) && BooksAdvance(s, step, s')
    requires o.epoch <= EpochOf(s, o.id) && NoLeftovers(s, o) && LateStarts(s, o) == {}
    ensures NoLeftovers(s', o) && LateStarts(s', o) == {}
  {
    hide Holds;
    forall a | a in s'.started && a in s'.claims && s'.claims[a].id == o.id && s'.started[a] == o.epoch
      ensures s'.claims[a] == o
    {
      if a in s.started && s'.started[a] == s.started[a] {
        assert a in StartedDuring(s, o);
        assert a !in LateStarts(s, o);
      }
    }
    forall a | EpochOf(s', o.id) == o.epoch && a in s'.waiting && a in s'.claims && s'.claims[a].id == o.id
      ensures s'.claims[a] == o
    {
      assert EpochOf(s, o.id) == o.epoch;
    }
  }

  /** An epoch opened when no dispatcher holds a leftover copy keeps to its budget by the clock too. */
  lemma {:induction false} PromptEpochsKeepBudget(s: System, steps: seq<Step>, o: Origin)
    requires Inv(s) && Legal(s, steps) && o in s.limits
    requires o.epoch <= EpochOf(s, o.id) && NoLeftovers(s, o) && LateStarts(s, o) == {}
    ensures
      var s' := Runs(s, steps);
      o in s'.limits && |StartedDuring(s', o)| <= s'.limits[o] + 1
    decreases |steps|
  {
    if steps == [] {
      StartsDuringEpoch(s, o);
    } else {
      var s' := After(s, steps[0]);
      StepKeeps(s, steps[0]);
      assert forall a | a in s.waiting :: CopyOk(s, a, s.waiting[a]);
      BooksStep(s, steps[0]);
      NoLeftoversStep(s, steps[0], s', o);
      hide Inv, After, Enabled, NoLeftovers, LateStarts, StartedDuring;
      PromptEpochsKeepBudget(s', steps[1..], o);
    }
  }

  // ---- retry counts and the length of a task's life ----

  /** The step puts a task back: a shutdown requeue or a replay. */
  ghost predicate Rewinds(s: System, step: Step, id: string) {
    || (step.GiveBack? && step.attempt in s.waiting && s.waiting[step.attempt].id == id)
    || (step.WriteReplay? && step.msg.id == id)
  }

  lemma AfterStore(s: System, step: Step)
    requires Enabled(s, step)
    ensures After(s, step).store == if Call(s, step).Some? then Apply(s.store, Call(s, step).value) else s.store
  {
    hide Apply, Succeeds, Call, Settle;
  }

  ghost predicate MessageAdvance(t: Task, t': Task) {
    && Core(t'.msg) == Core(t.msg)
    && Retries(t') == Retries(t) + One(t.state != Retry && t'.state == Retry)
    && 0 <= Retries(t') <= t'.msg.maxRetry
  }

  lemma OutcomeKinds(c: Message, op: Op)
    requires IsOutcome(c, op)
    ensures op.Ack? || op.ScheduleRetry? || op.Archive?
  {
  }

  lemma OutcomeStates(m: Machine, op: Op, id: string)
    requires op.Ack? || op.ScheduleRetry? || op.Archive?
    requires id in m.tasks && id in Apply(m, op).tasks
    ensures
      var t, t' := m.tasks[id], Apply(m, op).tasks[id];
      t' == t || (t.state == Active && t'.state in {Completed, Retry, Archived})
  {
    hide Apply;
    EveryCallIsAnEdge(m, op, id);
  }

  lemma OutcomeAdvances(s: System, c: Message, op: Op, id: string)
    requires WellFormed(s.store) && TasksOk(s) && CopyOk(s, c.attemptId, c) && IsOutcome(c, op)
    requires id in s.store.tasks && id in Apply(s.store, op).tasks
    ensures MessageAdvance(s.store.tasks[id], Apply(s.store, op).tasks[id])
  {
    hide Apply, WellFormed, Core, CopyOk, IsOutcome;
    assert op.Ack? || op.ScheduleRetry? || op.Archive? by {
      OutcomeKinds(c, op);
    }
    OutcomeStates(s.store, op, id);
    OutcomeSuccession(s, c, op);
  }

  lemma OtherAdvances(s: System, op: Op, id: string)
    requires TasksOk(s) && id in s.store.tasks && id in Apply(s.store, op).tasks
    requires !op.Ack? && !op.ScheduleRetry? && !op.Archive? && !(op.Replay? && op.id == id)
    ensures MessageAdvance(s.store.tasks[id], Apply(s.store, op).tasks[id])
  {
    hide Apply, Succeeds, Core;
    EveryCallIsAnEdge(s.store, op, id);
  }

  lemma OtherCall(s: System, step: Step)
    requires Enabled(s, step) && Call(s, step).Some? && !step.Succeed? && !step.Fail? && !step.Recover?
    ensures
      var op := Call(s, step).value;
      && !op.Ack? && !op.ScheduleRetry? && !op.Archive?
      && (op.Replay? <==> step.WriteReplay?) && (op.Replay? ==> op.id == step.msg.id)
  {
  }

  lemma StandingAdvances(s: System, id: string)
    requires TasksOk(s) && id in s.store.tasks
    ensures MessageAdvance(s.store.tasks[id], s.store.tasks[id])
  {
  }

  /** Outside of replays a step leaves the core of a message alone, and only a retry counts, by one. */
  lemma MessageAdvances(s: System, step: Step, id: string)
    requires Inv(s) && Enabled(s, step) && id in s.store.tasks && id in After(s, step).store.tasks
    requires !(step.WriteReplay? && step.msg.id == id)
    ensures MessageAdvance(s.store.tasks[id], After(s, step).store.tasks[id])
  {
    AfterStore(s, step);
    StandingAdvances(s, id);
    hide After, Apply, Call, WellFormed, TasksOk, CopiesOk, ClaimsOk, StartsOk, TriesOk, ReplaysOk, CopyOk, IsOutcome;
    hide Enabled, CopyUsed, MessageAdvance;
    if Call(s, step).Some? {
      if step.Succeed? || step.Fail? || step.Recover? {
        OutcomeCall(s, step);
        OutcomeAdvances(s, CopyUsed(s, step), Call(s, step).value, id);
      } else {
        OtherCall(s, step);
        OtherAdvances(s, Call(s, step).value, id);
      }
    }
  }

  /** 3 per retry left, plus what the state still has before it. */
  function Measure(t: Task): int {
    3 * (t.msg.maxRetry - t.msg.retryCount) + Weight(t.state)
  }

  function Weight(s: State): int {
    match s
    case Scheduled => 3
    case Retry => 3
    case Pending => 2
    case Active => 1
    case Archived => 0
    case Completed => 0
  }

  lemma StatesAdvance(s: System, step: Step, id: string)
    requires Enabled(s, step) && id in s.store.tasks && id in After(s, step).store.tasks && !Rewinds(s, step, id)
    ensures
      var t, t' := s.store.tasks[id], After(s, step).store.tasks[id];
      t'.state != t.state ==>
        || (t.state in {Scheduled, Retry} && t'.state == Pending)
        || (t.state == Pending && t'.state == Active)
        || (t.state == Active && t'.state in {Completed, Archived, Retry})
  {
    hide After, Apply, Core;
    AfterStore(s, step);
    if Call(s, step).Some? {
      EveryCallIsAnEdge(s.store, Call(s, step).value, id);
    }
  }

  /** Unless it is put back, each transition of a task lowers its measure, and nothing raises it. */
  lemma MeasureFalls(s: System, step: Step, id: string)
    requires Inv(s) && Enabled(s, step) && id in s.store.tasks && id in After(s, step).store.tasks
    requires !Rewinds(s, step, id)
    ensures
      var t, t' := s.store.tasks[id], After(s, step).store.tasks[id];
      && Measure(t') >= 0
      && (t'.state == t.state ==> Measure(t') == Measure(t))
      && (t'.state != t.state ==> Measure(t') < Measure(t))
  {
    hide Inv, Enabled, After;
    MessageAdvances(s, step, id);
    StatesAdvance(s, step, id);
  }

  /** A stretch of a run during which the task is there and is not put back. */
  ghost predicate Undisturbed(s: System, steps: seq<Step>, id: string)
    requires Legal(s, steps)
    decreases |steps|
  {
    id in s.store.tasks &&
    (steps == [] || (!Rewinds(s, steps[0], id) && Undisturbed(After(s, steps[0]), steps[1..], id)))
  }

  ghost function Transitions(s: System, steps: seq<Step>, id: string): nat
    requires Legal(s, steps)
    decreases |steps|
  {
    if steps == [] then 0 else
    var s' := After(s, steps[0]);
    One(id in s.store.tasks && id in s'.store.tasks && s'.store.tasks[id].state != s.store.tasks[id].state)
      + Transitions(s', steps[1..], id)
  }

  lemma MeasureInRange(s: System, id: string)
    requires Inv(s) && id in s.store.tasks
    ensures 0 <= Measure(s.store.tasks[id]) <= 3 * s.store.tasks[id].msg.maxRetry + 3
    ensures 0 <= s.store.tasks[id].msg.maxRetry
  {
    hide WellFormed, CopiesOk, ClaimsOk, StartsOk, TriesOk, ReplaysOk;
  }

  /** Without requeue or replay a task makes at most as many transitions as its measure. */
  lemma {:induction false} LifeIsBounded(s: System, steps: seq<Step>, id: string)
    requires Inv(s) && Legal(s, steps) && Undisturbed(s, steps, id)
    ensures id in Runs(s, steps).store.tasks
    ensures Transitions(s, steps, id) + Measure(Runs(s, steps).store.tasks[id]) <= Measure(s.store.tasks[id])
    ensures Measure(Runs(s, steps).store.tasks[id]) >= 0
    ensures Measure(s.store.tasks[id]) <= 3 * s.store.tasks[id].msg.maxRetry + 3
    decreases |steps|
  {
    hide Inv, After, Enabled, Rewinds, Measure;
    MeasureInRange(s, id);
    if steps != [] {
      StepKeeps(s, steps[0]);
      assert Undisturbed(After(s, steps[0]), steps[1..], id);
      assert id in After(s, steps[0]).store.tasks;
      MeasureFalls(s, steps[0], id);
      LifeIsBounded(After(s, steps[0]), steps[1..], id);
    }
  }

  /** Over whole runs: at any point of any run of the system, a task makes at most 3 * MaxRetry + 3 transitions
      before it is put back by a requeue or a replay, or removed. */
  lemma EveryLifeIsBounded(steps: seq<Step>, more: seq<Step>, id: string)
    requires Legal(START, steps) && Legal(Runs(START, steps), more) && Undisturbed(Runs(START, steps), more, id)
    ensures
      var s := Runs(START, steps);
      && id in s.store.tasks && 0 <= s.store.tasks[id].msg.maxRetry
      && Transitions(s, more, id) <= 3 * s.store.tasks[id].msg.maxRetry + 3
  {
    hide Inv, Legal, Runs, After, Enabled, Rewinds, Measure;
    StartInv();
    AlwaysInv(START, steps);
    var s := Runs(START, steps);
    assert id in s.store.tasks;
    LifeIsBounded(s, more, id);
    MeasureInRange(s, id);
  }

  // ---- replay ----

  /** Reading and rewriting a dead letter in one step. */
  function AtomicReplay(m: Machine, id: string, now: int): Machine {
    if IsIn(m, id, Archived) then
      With(m, id, Put(m.tasks[id], Reset(m.tasks[id].msg.(attemptId := ""), now), Pending, 0))
    else m
  }

  lemma ResetByCore(a: Message, b: Message, now: int)
    requires a.attemptId == b.attemptId
    ensures Reset(a, now) == Reset(b, now) <==> Core(a) == Core(b)
  {
    assert Core(a) == Reset(a, now).(runAt := 0, attemptId := "");
    assert Core(b) == Reset(b, now).(runAt := 0, attemptId := "");
    assert Reset(a, now) == Core(a).(runAt := now, attemptId := a.attemptId);
    assert Reset(b, now) == Core(b).(runAt := now, attemptId := b.attemptId);
  }

  /** One write: a replay of a dead letter writes what an atomic replay would write exactly when its copy has the
      record's core; that is so if the record is the one the copy was read from and no copy of an
      earlier record was ever written to it. ReplayRuns.dfy says which runs that covers. */
  lemma ReplayIsAtomic(s: System, msg: Message, seqno: nat, now: int)
    requires Inv(s) && (msg, seqno) in s.replaying
    ensures
      var m' := Apply(s.store, Op.Replay(msg.id, Reset(msg, now)));
      && (IsIn(s.store, msg.id, Archived) ==>
            (m' == AtomicReplay(s.store, msg.id, now) <==> Core(msg) == Core(s.store.tasks[msg.id].msg)))
      && (msg.id !in s.crossed && msg.id in s.store.tasks && s.store.tasks[msg.id].seqno == seqno ==>
            m' == AtomicReplay(s.store, msg.id, now))
  {
    ReplayApplies(s.store, msg.id, Reset(msg, now));
    if IsIn(s.store, msg.id, Archived) {
      var stored := s.store.tasks[msg.id].msg;
      ResetByCore(msg, stored.(attemptId := ""), now);
      assert Core(stored.(attemptId := "")) == Core(stored);
      hide Apply, WellFormed, TasksOk, ClaimsOk, CopiesOk, StartsOk, TriesOk, Reset, Core;
      var x, y := Put(s.store.tasks[msg.id], Reset(msg, now), Pending, 0),
                  Put(s.store.tasks[msg.id], Reset(stored.(attemptId := ""), now), Pending, 0);
      assert With(s.store, msg.id, x).tasks[msg.id] == x && With(s.store, msg.id, y).tasks[msg.id] == y;
    }
  }
}
