/** Runs built on purpose: from any reachable state the processes can bring a task that is not completed
    to each of its further states. */
module Drive {
  import opened Values
  import opened TaskMachine
  import opened StoreRuns
  import opened Protocol
  import opened ProtocolTheorems
  import QueueLaws

  // ---- joining runs ----

  lemma {:induction false} Joined(s: System, a: seq<Step>, b: seq<Step>)
    requires Legal(s, a) && Legal(Runs(s, a), b)
    ensures Legal(s, a + b) && Runs(s, a + b) == Runs(Runs(s, a), b)
    decreases |a|
  {
    hide Enabled, After;
    if a == [] {
      assert a + b == b;
    } else {
      assert (a + b)[1..] == a[1..] + b;
      Joined(After(s, a[0]), a[1..], b);
    }
  }

  lemma Single(s: System, step: Step)
    requires Enabled(s, step)
    ensures Legal(s, [step]) && Runs(s, [step]) == After(s, step)
  {
    hide Enabled, After;
    assert [step][1..] == [];
    assert Legal(After(s, step), []);
  }

  /** An attempt id nobody has used. */
  lemma {:induction false} Unused(used: set<string>) returns (a: string)
    ensures a !in used && forall u | u in used :: |u| < |a|
  {
    if used == {} {
      a := "";
    } else {
      var u :| u in used;
      var b := Unused(used - {u});
      a := b + u + "x";
      forall v | v in used
        ensures |v| < |a|
      {
        assert v == u || v in used - {u};
      }
    }
  }

  lemma AfterSettles(s: System, step: Step)
    requires Enabled(s, step)
    ensures match Call(s, step)
      case Some(op) => After(s, step) == Settle(s, step, Apply(s.store, op), Succeeds(s.store, op))
      case None => After(s, step) == Settle(s, step, s.store, true)
  {
    hide Enabled, Settle, Call, Apply, Succeeds;
  }

  // ---- one epoch going forward ----

  /** The task is in the given epoch now. */
  ghost predicate Front(s: System, o: Origin) {
    Inv(s) && o in s.limits && EpochOf(s, o.id) == o.epoch && o.id in s.store.tasks
  }

  /** Later in the same epoch, with the accounts only added to. */
  ghost predicate Later(s: System, s': System, o: Origin) {
    && Front(s', o) && s'.limits == s.limits
    && (forall a | a in s.claims :: a in s'.claims && s'.claims[a] == s.claims[a])
    && (forall a | a in s.started :: a in s'.started && s'.started[a] == s.started[a])
  }

  /** Handlers started in the epoch for attempts claimed in it. */
  ghost function Own(s: System, o: Origin): set<string> {
    set a | a in s.started && a in s.claims && s.claims[a] == o && s.started[a] == o.epoch
  }

  lemma OwnGrows(s: System, s': System, o: Origin)
    requires Later(s, s', o)
    ensures Own(s, o) <= Own(s', o) && |Own(s, o)| <= |Own(s', o)| && StartedDuring(s, o) <= StartedDuring(s', o)
  {
    hide Front;
    SubsetSize(Own(s, o), Own(s', o));
  }

  lemma LaterTrans(s: System, t: System, u: System, o: Origin)
    requires Later(s, t, o) && Later(t, u, o)
    ensures Later(s, u, o)
  {
    hide Front;
  }

  lemma StandingStore(s: System)
    requires Inv(s)
    ensures WellFormed(s.store)
  {
    hide WellFormed;
  }

  lemma FrontGives(s: System, o: Origin)
    requires Front(s, o)
    ensures Inv(s) && WellFormed(s.store) && o in s.limits && EpochOf(s, o.id) == o.epoch && o.id in s.store.tasks
    ensures 0 <= Retries(s.store.tasks[o.id]) <= s.store.tasks[o.id].msg.maxRetry
    ensures s.store.tasks[o.id].msg.id == o.id && s.limits[o] == s.store.tasks[o.id].msg.maxRetry
    ensures forall a | Holds(s.store, o.id, a) :: a in s.claims && s.claims[a] == o
    ensures forall a | a in s.waiting :: a in s.claims && a !in s.started
    ensures forall a | a in s.running && Holds(s.store, o.id, a) && a in s.claims && s.claims[a] == o ::
              s.running[a] == Claimed(s.store.tasks[o.id].msg, a)
  {
    hide WellFormed, TriesOk, ReplaysOk;
    forall a | a in s.waiting
      ensures a in s.claims
    {
      assert CopyOk(s, a, s.waiting[a]);
    }
    forall a | a in s.running && Holds(s.store, o.id, a) && a in s.claims && s.claims[a] == o
      ensures s.running[a] == Claimed(s.store.tasks[o.id].msg, a)
    {
      assert CopyOk(s, a, s.running[a]);
    }
  }

  /** The part of the accounts that tells whether an epoch goes on. */
  ghost predicate BooksKept(s: System, s': System) {
    && s'.limits == s.limits && s'.epoch == s.epoch
    && (forall a | a in s.claims :: a in s'.claims && s'.claims[a] == s.claims[a])
    && (forall a | a in s.started :: a in s'.started && s'.started[a] == s.started[a])
  }

  lemma LaterFrom(s: System, s': System, o: Origin)
    requires Front(s, o) && Inv(s') && BooksKept(s, s') && o.id in s'.store.tasks
    ensures Later(s, s', o)
  {
    hide Inv;
  }

  // ---- single steps ----

  lemma ClaimBooks(s: System, a: string)
    requires WellFormed(s.store) && a !in s.claims
    ensures Enabled(s, Step.Claim(a, 0))
    ensures
      var s' := After(s, Step.Claim(a, 0));
      && s'.store == Apply(s.store, Op.Claim(a, 0)) && BooksKept(s, s')
      && (Next(s.store).Some? ==> a in s'.waiting)
  {
    hide Apply, Next, WellFormed, EpochOf, IsNext, Claimed;
    ClaimApplies(s.store, a, 0);
  }

  lemma ClaimEdge(m: Machine, id: string, a: string)
    requires WellFormed(m) && IsIn(m, id, Pending)
    ensures
      var m' := Apply(m, Op.Claim(a, 0));
      && id in m'.tasks && m'.tasks[id].msg == m.tasks[id].msg && Next(m).Some?
      && (if QueueLaws.Queued(m, id) == {} then Holds(m', id, a)
          else IsIn(m', id, Pending) && |QueueLaws.Queued(m', id)| < |QueueLaws.Queued(m, id)|)
  {
    hide Apply, Next, QueueLaws.Queued, WellFormed, IsNext;
    QueueLaws.ClaimServes(m, id, a, 0);
    var _ := QueueLaws.NextPending(m, id);
    EveryCallIsAnEdge(m, Op.Claim(a, 0), id);
  }

  lemma ClaimLater(s: System, o: Origin, a: string)
    requires Front(s, o) && IsIn(s.store, o.id, Pending) && a !in s.claims
    ensures Enabled(s, Step.Claim(a, 0))
    ensures
      var s' := After(s, Step.Claim(a, 0));
      && Later(s, s', o) && o.id in s'.store.tasks && s'.store.tasks[o.id].msg == s.store.tasks[o.id].msg
      && (if QueueLaws.Queued(s.store, o.id) == {} then Holds(s'.store, o.id, a) && a in s'.waiting
          else IsIn(s'.store, o.id, Pending) && |QueueLaws.Queued(s'.store, o.id)| < |QueueLaws.Queued(s.store, o.id)|)
  {
    hide *;
    FrontGives(s, o);
    ClaimBooks(s, a);
    StepKeeps(s, Step.Claim(a, 0));
    ClaimEdge(s.store, o.id, a);
    LaterFrom(s, After(s, Step.Claim(a, 0)), o);
  }

  lemma StartBooksKept(s: System, a: string)
    requires a in s.waiting && a !in s.started && a in s.claims
    ensures Enabled(s, StartHandler(a))
    ensures
      var s' := After(s, StartHandler(a));
      && BooksKept(s, s') && s'.store == s.store && a in s'.running && s'.claims == s.claims
      && a in s'.started && s'.started[a] == EpochOf(s, s.claims[a].id)
  {
    hide EpochOf;
  }

  lemma StartLater(s: System, o: Origin, a: string)
    requires Front(s, o) && a in s.waiting && a in s.claims && s.claims[a].id == o.id
    ensures Enabled(s, StartHandler(a))
    ensures
      var s' := After(s, StartHandler(a));
      && Later(s, s', o) && s'.store == s.store && a in s'.running && s'.claims == s.claims
      && a !in s.started && a in s'.started && s'.started[a] == o.epoch
  {
    hide *;
    FrontGives(s, o);
    StartBooksKept(s, a);
    StepKeeps(s, StartHandler(a));
    LaterFrom(s, After(s, StartHandler(a)), o);
  }

  /** One retry further, due at once. */
  ghost predicate Retried(m: Machine, m': Machine, id: string)
    requires id in m.tasks
  {
    && IsIn(m', id, Retry) && m'.tasks[id].msg.retryCount == m.tasks[id].msg.retryCount + 1
    && m'.tasks[id].msg.maxRetry == m.tasks[id].msg.maxRetry
  }

  lemma FailEdge(m: Machine, id: string, a: string)
    requires WellFormed(m) && Holds(m, id, a) && m.tasks[id].msg.id == id
    requires m.tasks[id].msg.retryCount < m.tasks[id].msg.maxRetry
    ensures Retried(m, Apply(m, FailureCall(Claimed(m.tasks[id].msg, a), false, 0, 0, "")), id)
  {
    PutApplies(m, FailureCall(Claimed(m.tasks[id].msg, a), false, 0, 0, ""));
    hide Apply, Succeeds, WellFormed;
  }

  lemma FailBooks(s: System, a: string)
    requires a in s.running
    ensures Enabled(s, Fail(a, false, 0, 0, ""))
    ensures
      var s' := After(s, Fail(a, false, 0, 0, ""));
      BooksKept(s, s') && s'.store == Apply(s.store, FailureCall(s.running[a], false, 0, 0, ""))
  {
    hide Apply, Succeeds, FailureCall;
  }

  lemma FailLater(s: System, o: Origin, a: string)
    requires Front(s, o) && Holds(s.store, o.id, a) && a in s.running
    requires o.id in s.store.tasks && s.store.tasks[o.id].msg.retryCount < s.store.tasks[o.id].msg.maxRetry
    ensures Enabled(s, Fail(a, false, 0, 0, ""))
    ensures
      var s' := After(s, Fail(a, false, 0, 0, ""));
      Later(s, s', o) && Retried(s.store, s'.store, o.id)
  {
    hide *;
    FrontGives(s, o);
    FailBooks(s, a);
    FailEdge(s.store, o.id, a);
    StepKeeps(s, Fail(a, false, 0, 0, ""));
    RetriedIsThere(s.store, After(s, Fail(a, false, 0, 0, "")).store, o.id);
    LaterFrom(s, After(s, Fail(a, false, 0, 0, "")), o);
  }

  lemma RetriedIsThere(m: Machine, m': Machine, id: string)
    requires id in m.tasks && Retried(m, m', id)
    ensures id in m'.tasks
  {
  }

  /** The limit every dispatcher passes. */
  const LIMIT: nat := 100

  lemma MoveEdge(m: Machine, id: string, source: Source)
    requires WellFormed(m) && IsIn(m, id, source.State())
    ensures
      var s := source.State();
      var m' := Apply(m, Op.MoveReady(source, m.tasks[id].due, LIMIT));
      && id in m'.tasks && m'.tasks[id].msg == m.tasks[id].msg
      && (IsIn(m', id, Pending) || (IsIn(m', id, s) && |QueueLaws.Before(m', s, id)| < |QueueLaws.Before(m, s, id)|))
  {
    hide Apply, WellFormed, DueIds, QueueLaws.Before;
    QueueLaws.MoveTurn(m, source, m.tasks[id].due, LIMIT, id);
    EveryCallIsAnEdge(m, Op.MoveReady(source, m.tasks[id].due, LIMIT), id);
  }

  lemma MoveBooks(s: System, source: Source, now: int, limit: nat)
    ensures Enabled(s, Step.MoveReady(source, now, limit))
    ensures
      var s' := After(s, Step.MoveReady(source, now, limit));
      BooksKept(s, s') && s'.store == Apply(s.store, Op.MoveReady(source, now, limit))
  {
    hide Apply, Succeeds;
  }

  lemma MoveLater(s: System, o: Origin, source: Source)
    requires Front(s, o) && o.id in s.store.tasks && IsIn(s.store, o.id, source.State())
    ensures
      var step := Step.MoveReady(source, s.store.tasks[o.id].due, LIMIT);
      && Enabled(s, step)
      && var s' := After(s, step);
      && Later(s, s', o) && o.id in s'.store.tasks && s'.store.tasks[o.id].msg == s.store.tasks[o.id].msg
      && (IsIn(s'.store, o.id, Pending)
          || (IsIn(s'.store, o.id, source.State()) &&
              |QueueLaws.Before(s'.store, source.State(), o.id)| < |QueueLaws.Before(s.store, source.State(), o.id)|))
  {
    hide *;
    var step := Step.MoveReady(source, s.store.tasks[o.id].due, LIMIT);
    FrontGives(s, o);
    MoveBooks(s, source, s.store.tasks[o.id].due, LIMIT);
    MoveEdge(s.store, o.id, source);
    StepKeeps(s, step);
    LaterFrom(s, After(s, step), o);
  }

  // ---- stretches of a run ----

  /** The step neither deletes a task nor writes a replay nor loses a copy. */
  predicate Gentle(step: Step) {
    !step.Delete? && !step.Cleanup? && !step.WriteReplay? && !step.Crash?
  }

  predicate AllGentle(steps: seq<Step>) {
    forall step | step in steps :: Gentle(step)
  }

  lemma GentleSingle(step: Step)
    requires Gentle(step)
    ensures AllGentle([step])
  {
  }

  lemma GentleJoined(a: seq<Step>, b: seq<Step>)
    requires AllGentle(a) && AllGentle(b)
    ensures AllGentle(a + b)
  {
  }

  /** What a stretch built here ends in: later in the same epoch, the message of the task as it was. */
  ghost predicate Reaches(s: System, steps: seq<Step>, o: Origin) {
    && Legal(s, steps) && AllGentle(steps) && o.id in s.store.tasks
    && var s' := Runs(s, steps);
    && Later(s, s', o) && o.id in s'.store.tasks && s'.store.tasks[o.id].msg == s.store.tasks[o.id].msg
  }

  lemma ReachesSingle(s: System, step: Step, o: Origin)
    requires Enabled(s, step) && Gentle(step) && o.id in s.store.tasks && Later(s, After(s, step), o)
    requires o.id in After(s, step).store.tasks && After(s, step).store.tasks[o.id].msg == s.store.tasks[o.id].msg
    ensures Reaches(s, [step], o) && Runs(s, [step]) == After(s, step)
  {
    hide Enabled, After, Later;
    Single(s, step);
  }

  lemma ReachesNothing(s: System, o: Origin)
    requires Front(s, o)
    ensures Reaches(s, [], o) && Runs(s, []) == s
  {
    hide Inv;
  }

  lemma ReachesJoined(s: System, a: seq<Step>, b: seq<Step>, o: Origin)
    requires Reaches(s, a, o) && Reaches(Runs(s, a), b, o)
    ensures Reaches(s, a + b, o) && Runs(s, a + b) == Runs(Runs(s, a), b)
  {
    hide Later, Legal, Runs;
    Joined(s, a, b);
    LaterTrans(s, Runs(s, a), Runs(Runs(s, a), b), o);
  }

  lemma ReachesGives(s: System, steps: seq<Step>, o: Origin)
    requires Reaches(s, steps, o)
    ensures Legal(s, steps) && AllGentle(steps) && Later(s, Runs(s, steps), o) && Front(Runs(s, steps), o)
    ensures o.id in s.store.tasks && o.id in Runs(s, steps).store.tasks
    ensures Runs(s, steps).store.tasks[o.id].msg == s.store.tasks[o.id].msg
  {
    hide Legal, Runs, Inv;
  }

  /** As many calls of MoveReady as it takes. */
  lemma {:induction false} MoveUp(s: System, o: Origin, source: Source) returns (steps: seq<Step>)
    requires Front(s, o) && o.id in s.store.tasks && IsIn(s.store, o.id, source.State())
    ensures Reaches(s, steps, o) && IsIn(Runs(s, steps).store, o.id, Pending)
    decreases |QueueLaws.Before(s.store, source.State(), o.id)|
  {
    hide *;
    var step := Step.MoveReady(source, s.store.tasks[o.id].due, LIMIT);
    MoveLater(s, o, source);
    IsGentle(step);
    ReachesSingle(s, step, o);
    steps := [step];
    var t := After(s, step);
    if !IsIn(t.store, o.id, Pending) {
      ReachesGives(s, steps, o);
      var rest := MoveUp(t, o, source);
      ReachesJoined(s, steps, rest, o);
      steps := steps + rest;
    }
  }

  lemma IsGentle(step: Step)
    ensures Gentle(step) <==> !step.Delete? && !step.Cleanup? && !step.WriteReplay? && !step.Crash?
  {
  }

  /** From a pending task to one that a dispatcher has just claimed: the tasks before it are claimed first. */
  lemma {:induction false} Draw(s: System, o: Origin) returns (a: string, steps: seq<Step>)
    requires Front(s, o) && o.id in s.store.tasks && IsIn(s.store, o.id, Pending)
    ensures Reaches(s, steps, o) && Holds(Runs(s, steps).store, o.id, a) && a in Runs(s, steps).waiting
    decreases |QueueLaws.Queued(s.store, o.id)|
  {
    hide *;
    a := Unused(s.claims.Keys);
    var step := Step.Claim(a, 0);
    ClaimLater(s, o, a);
    IsGentle(step);
    ReachesSingle(s, step, o);
    steps := [step];
    if QueueLaws.Queued(s.store, o.id) != {} {
      ReachesGives(s, steps, o);
      var rest: seq<Step>;
      a, rest := Draw(After(s, step), o);
      ReachesJoined(s, steps, rest, o);
      steps := steps + rest;
    }
  }

  lemma LaterIsFront(s: System, s': System, o: Origin)
    requires Later(s, s', o)
    ensures Front(s', o) && s'.limits == s.limits
  {
  }

  lemma OwnStart(s: System, s': System, o: Origin, a: string)
    requires Later(s, s', o) && a !in s.started && a in s'.started && s'.started[a] == o.epoch
    requires a in s'.claims && s'.claims[a] == o
    ensures |Own(s', o)| > |Own(s, o)|
  {
    hide Front;
    OwnGrows(s, s', o);
    assert Own(s, o) + {a} <= Own(s', o) && a !in Own(s, o);
    SubsetSize(Own(s, o) + {a}, Own(s', o));
  }

  /** Claim the task and start its handler. */
  lemma Begin(s: System, o: Origin) returns (a: string, steps: seq<Step>)
    requires Front(s, o) && o.id in s.store.tasks && IsIn(s.store, o.id, Pending)
    ensures Reaches(s, steps, o) && Holds(Runs(s, steps).store, o.id, a) && a in Runs(s, steps).running
    ensures |Own(Runs(s, steps), o)| > |Own(s, o)|
  {
    hide *;
    a, steps := Draw(s, o);
    ReachesGives(s, steps, o);
    var t, start := Runs(s, steps), StartHandler(a);
    FrontGives(t, o);
    StartLater(t, o, a);
    IsGentle(start);
    ReachesSingle(t, start, o);
    OwnStart(t, After(t, start), o, a);
    OwnGrows(s, t, o);
    ReachesJoined(s, steps, [start], o);
    steps := steps + [start];
  }

  // ---- runs spelled out ----

  /** A queue that holds only task t. */
  function Only(t: Task): Machine {
    Machine(map["t" := t], t.seqno)
  }

  lemma OnlyNext(t: Task)
    requires t.state == Pending
    ensures Next(Only(t)) == Some("t")
  {
    assert IsNext(Only(t), "t");
  }

  lemma ReadsForReplay(s: System, id: string, copy: (Message, nat))
    requires DeadCopy(s.store, id) == {copy}
    ensures Enabled(s, ReadDeadLetter(id))
    ensures After(s, ReadDeadLetter(id)) == s.(replaying := s.replaying + multiset{copy})
  {
    hide DeadCopy;
    assert multiset({copy}) == multiset{copy};
  }

  ghost predicate Leads(s: System, step: Step, s': System) {
    Enabled(s, step) && After(s, step) == s'
  }

  ghost predicate EndsIn(steps: seq<Step>, s: System) {
    Legal(START, steps) && Runs(START, steps) == s
  }

  lemma Nowhere(steps: seq<Step>)
    ensures EndsIn(steps[..0], START)
  {
    assert steps[..0] == [];
  }

  lemma Onward(steps: seq<Step>, k: nat, s: System, s': System)
    requires k < |steps| && EndsIn(steps[..k], s) && Leads(s, steps[k], s')
    ensures EndsIn(steps[..k + 1], s')
  {
    hide Enabled, After, Legal, Runs;
    Single(s, steps[k]);
    Joined(START, steps[..k], [steps[k]]);
    assert steps[..k + 1] == steps[..k] + [steps[k]];
  }
}
