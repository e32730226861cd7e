/** A replay reads a dead letter and writes it back in two steps. When is that as good as one step? */
module ReplayRuns {
  import opened Values
  import opened TaskMachine
  import opened StoreRuns
  import opened Protocol
  import opened ProtocolTheorems
  import opened Drive

  /** The step creates a record under an id of which a replay under way holds a copy: a copy of a record that is
      gone. */
  ghost predicate Reuses(s: System, step: Step, id: string)
    requires Enabled(s, step)
  {
    && id !in s.store.tasks && id in After(s, step).store.tasks
    && exists r :: r in s.replaying && r.0.id == id
  }

  /** A run in which the id is not deleted and created again while a replay of it is under way. */
  ghost predicate Unreused(s: System, steps: seq<Step>, id: string)
    requires Legal(s, steps)
    decreases |steps|
  {
    steps == [] || (!Reuses(s, steps[0], id) && Unreused(After(s, steps[0]), steps[1..], id))
  }

  /** Writing the copy now does what reading and writing in one step would do. */
  ghost predicate Atomic(s: System, msg: Message, now: int) {
    Apply(s.store, Op.Replay(msg.id, Reset(msg, now))) == AtomicReplay(s.store, msg.id, now)
  }

  /** Every copy that a replay under way holds of the task has the core of its record, if there is one. */
  ghost predicate Agree(s: System, id: string) {
    id in s.store.tasks ==> forall r | r in s.replaying && r.0.id == id :: Core(r.0) == Core(s.store.tasks[id].msg)
  }

  lemma AtomicIff(s: System, msg: Message, seqno: nat, now: int)
    requires Inv(s) && (msg, seqno) in s.replaying
    ensures
      Atomic(s, msg, now) <==>
      (IsIn(s.store, msg.id, Archived) ==> Core(msg) == Core(s.store.tasks[msg.id].msg))
  {
    hide Inv, Apply, Core, Reset;
    ReplayIsAtomic(s, msg, seqno, now);
    ReplayApplies(s.store, msg.id, Reset(msg, now));
  }

  // ---- agreement lasts until the id is used again ----

  lemma ReplayingAfter(s: System, step: Step)
    requires Enabled(s, step)
    ensures After(s, step).replaying == ReplaysAfter(s, step)
  {
    hide Enabled, Settle, Call, Apply, Succeeds, RecoveriesAfter, ReplaysAfter;
    AfterSettles(s, step);
  }

  lemma CopyAgrees(s: System, id: string, r: (Message, nat))
    requires Inv(s) && r in DeadCopy(s.store, id)
    ensures r.0.id == id && id in s.store.tasks && Core(r.0) == Core(s.store.tasks[id].msg)
  {
    hide WellFormed, ClaimsOk, CopiesOk, StartsOk, TriesOk, ReplaysOk;
  }

  lemma WrittenCore(s: System, msg: Message, seqno: nat, now: int)
    requires Inv(s) && Enabled(s, WriteReplay(msg, seqno, now)) && msg.id in s.store.tasks
    ensures
      var m' := After(s, WriteReplay(msg, seqno, now)).store;
      && msg.id in m'.tasks
      && Core(m'.tasks[msg.id].msg)
         == (if IsIn(s.store, msg.id, Archived) then Core(msg) else Core(s.store.tasks[msg.id].msg))
      && (IsIn(s.store, msg.id, Archived) ==> IsIn(m', msg.id, Pending))
  {
    WriteCalls(s, msg, seqno, now);
    hide Inv, Enabled, After, Call, Apply, Core;
    AfterStore(s, WriteReplay(msg, seqno, now));
    ReplayApplies(s.store, msg.id, Reset(msg, now));
    ResetKeepsCore(msg, now);
  }

  lemma WriteCalls(s: System, msg: Message, seqno: nat, now: int)
    requires Enabled(s, WriteReplay(msg, seqno, now))
    ensures Call(s, WriteReplay(msg, seqno, now)) == Some(Op.Replay(msg.id, Reset(msg, now)))
  {
    hide Reset;
  }

  lemma StepAgrees(s: System, step: Step, id: string)
    requires Inv(s) && Agree(s, id) && Enabled(s, step) && !Reuses(s, step, id)
    ensures Agree(After(s, step), id)
  {
    hide Inv, Enabled, After, Core, DeadCopy;
    var s' := After(s, step);
    ReplayingAfter(s, step);
    if id in s'.store.tasks {
      if id in s.store.tasks {
        SameCore(s, step, id);
      } else {
        CreatedByCall(s, step, id);
      }
      forall r | r in s'.replaying && r.0.id == id
        ensures Core(r.0) == Core(s'.store.tasks[id].msg)
      {
        if r !in s.replaying {
          CopyAgrees(s, step.id, r);
        }
      }
    }
  }

  lemma CreatedByCall(s: System, step: Step, id: string)
    requires Enabled(s, step) && id !in s.store.tasks && id in After(s, step).store.tasks
    ensures !step.ReadDeadLetter?
  {
    hide After, Apply;
    AfterStore(s, step);
  }

  lemma SameCore(s: System, step: Step, id: string)
    requires Inv(s) && Agree(s, id) && Enabled(s, step) && id in s.store.tasks && id in After(s, step).store.tasks
    ensures Core(After(s, step).store.tasks[id].msg) == Core(s.store.tasks[id].msg)
  {
    hide Inv, After, Core, MessageAdvance;
    if step.WriteReplay? && step.msg.id == id {
      assert (step.msg, step.seqno) in s.replaying && (step.msg, step.seqno).0.id == id;
      WrittenCore(s, step.msg, step.seqno, step.now);
    } else {
      MessageAdvances(s, step, id);
      AdvanceKeepsCore(s.store.tasks[id], After(s, step).store.tasks[id]);
    }
  }

  lemma {:induction false} RunAgrees(s: System, steps: seq<Step>, id: string)
    requires Inv(s) && Legal(s, steps) && Agree(s, id) && Unreused(s, steps, id)
    ensures Inv(Runs(s, steps)) && Agree(Runs(s, steps), id)
    decreases |steps|
  {
    hide Inv, Enabled, After, Agree, Reuses;
    if steps != [] {
      StepKeeps(s, steps[0]);
      StepAgrees(s, steps[0], id);
      RunAgrees(After(s, steps[0]), steps[1..], id);
    }
  }

  lemma AgreeIsAtomic(s: System, msg: Message, seqno: nat, now: int)
    requires Inv(s) && (msg, seqno) in s.replaying && Agree(s, msg.id)
    ensures Atomic(s, msg, now)
  {
    hide Inv, Core, Atomic;
    AtomicIff(s, msg, seqno, now);
    assert (msg, seqno).0.id == msg.id;
  }

  /** Over every run of the system in which the id of a task is not deleted and created again while a replay of it
      is under way: a replay writes what an atomic replay would write, however often the task was
      replayed and archived since the copy was read. */
  lemma ReplayAtomicUnlessReused(steps: seq<Step>, msg: Message, seqno: nat, now: int)
    requires Legal(START, steps) && Unreused(START, steps, msg.id) && (msg, seqno) in Runs(START, steps).replaying
    ensures Atomic(Runs(START, steps), msg, now)
  {
    assert Agree(START, msg.id);
    hide Legal, Runs, Unreused, Inv, Agree, Atomic;
    StartInv();
    RunAgrees(START, steps, msg.id);
    AgreeIsAtomic(Runs(START, steps), msg, seqno, now);
  }

  /** The step removes the record of a task: a deletion or a cleanup. */
  ghost predicate Drops(s: System, step: Step, id: string)
    requires Enabled(s, step)
  {
    id in s.store.tasks && id !in After(s, step).store.tasks
  }

  /** A run in which the record of a task is never removed. */
  ghost predicate Kept(s: System, steps: seq<Step>, id: string)
    requires Legal(s, steps)
    decreases |steps|
  {
    steps == [] || (!Drops(s, steps[0], id) && Kept(After(s, steps[0]), steps[1..], id))
  }

  /** Copies are read of records that are there. */
  ghost predicate CopiesHaveRecord(s: System, id: string) {
    (exists r :: r in s.replaying && r.0.id == id) ==> id in s.store.tasks
  }

  lemma StepHasRecord(s: System, step: Step, id: string)
    requires Inv(s) && CopiesHaveRecord(s, id) && Enabled(s, step) && !Drops(s, step, id)
    ensures CopiesHaveRecord(After(s, step), id) && !Reuses(s, step, id)
  {
    hide Inv, Enabled, After, Core, DeadCopy;
    ReplayingAfter(s, step);
    forall r | r in After(s, step).replaying && r !in s.replaying && r.0.id == id
      ensures id in s.store.tasks
    {
      CopyAgrees(s, step.id, r);
    }
  }

  /** In particular when the record of the task was never removed. */
  lemma {:induction false} KeptIsUnreused(s: System, steps: seq<Step>, id: string)
    requires Inv(s) && CopiesHaveRecord(s, id) && Legal(s, steps) && Kept(s, steps, id)
    ensures Unreused(s, steps, id)
    decreases |steps|
  {
    hide Inv, Enabled, After, Drops, Reuses, CopiesHaveRecord;
    if steps != [] {
      StepKeeps(s, steps[0]);
      StepHasRecord(s, steps[0], id);
      KeptIsUnreused(After(s, steps[0]), steps[1..], id);
    }
  }

  lemma ReplayAtomicWhileKept(steps: seq<Step>, msg: Message, seqno: nat, now: int)
    requires Legal(START, steps) && Kept(START, steps, msg.id) && (msg, seqno) in Runs(START, steps).replaying
    ensures Atomic(Runs(START, steps), msg, now)
  {
    assert CopiesHaveRecord(START, msg.id);
    hide Legal, Runs, Kept, Unreused, Inv, CopiesHaveRecord, Atomic;
    StartInv();
    KeptIsUnreused(START, steps, msg.id);
    ReplayAtomicUnlessReused(steps, msg, seqno, now);
  }

  // ---- bringing a task to the dead letters ----

  lemma FrontHere(s: System, id: string)
    requires Inv(s) && id in s.store.tasks
    ensures Front(s, Origin(id, EpochOf(s, id)))
  {
    hide WellFormed, ClaimsOk, CopiesOk, StartsOk, TriesOk, ReplaysOk;
  }

  lemma DeadEdge(m: Machine, id: string, a: string, permanent: bool)
    requires WellFormed(m) && Holds(m, id, a) && m.tasks[id].msg.id == id
    ensures
      var m' := Apply(m, FailureCall(Claimed(m.tasks[id].msg, a), permanent, 0, 0, "task lease expired"));
      IsIn(m', id, Archived) || (!permanent && IsIn(m', id, Retry))
  {
    PutApplies(m, FailureCall(Claimed(m.tasks[id].msg, a), permanent, 0, 0, "task lease expired"));
    hide Apply, Succeeds, WellFormed;
  }

  /** A handler fails for good. */
  lemma FailForGood(s: System, id: string, a: string) returns (step: Step)
    requires Inv(s) && Holds(s.store, id, a) && a in s.running
    ensures Enabled(s, step) && Gentle(step) && IsIn(After(s, step).store, id, Archived)
  {
    step := Fail(a, true, 0, 0, "task lease expired");
    hide Inv, After, Apply, Front, WellFormed, FailureCall, Claimed;
    FrontHere(s, id);
    FrontGives(s, Origin(id, EpochOf(s, id)));
    AfterStore(s, step);
    DeadEdge(s.store, id, a, true);
  }

  lemma ReadCopy(s: System, id: string, a: string)
    requires Holds(s.store, id, a)
    ensures Enabled(s, ReadExpired(id))
    ensures
      var t := After(s, ReadExpired(id));
      t.store == s.store && Claimed(s.store.tasks[id].msg, a) in t.recovering
  {
    hide Claimed;
  }

  /** Lease recovery takes the task from its holder. */
  lemma TakeAway(s: System, id: string, a: string) returns (steps: seq<Step>)
    requires Inv(s) && Holds(s.store, id, a)
    ensures Legal(s, steps) && AllGentle(steps)
    ensures IsIn(Runs(s, steps).store, id, Archived) || IsIn(Runs(s, steps).store, id, Retry)
  {
    hide Inv, After, Apply, Front, WellFormed, FailureCall, Claimed, Legal, Runs, Enabled;
    FrontHere(s, id);
    FrontGives(s, Origin(id, EpochOf(s, id)));
    ReadCopy(s, id, a);
    var t := After(s, ReadExpired(id));
    var recover := Recover(Claimed(s.store.tasks[id].msg, a), 0, 0);
    RecoverCalls(t, recover.msg);
    AfterStore(t, recover);
    DeadEdge(s.store, id, a, false);
    Single(s, ReadExpired(id));
    Single(t, recover);
    Joined(s, [ReadExpired(id)], [recover]);
    steps := [ReadExpired(id)] + [recover];
  }

  lemma RecoverCalls(s: System, msg: Message)
    requires msg in s.recovering
    ensures Enabled(s, Recover(msg, 0, 0))
    ensures Call(s, Recover(msg, 0, 0)) == Some(FailureCall(msg, false, 0, 0, "task lease expired"))
  {
    hide FailureCall;
  }

  /** From pending: claim, start, fail for good. */
  lemma BuryPending(s: System, id: string) returns (steps: seq<Step>)
    requires Inv(s) && id in s.store.tasks && IsIn(s.store, id, Pending)
    ensures Legal(s, steps) && AllGentle(steps) && IsIn(Runs(s, steps).store, id, Archived)
  {
    hide *;
    var o := Origin(id, EpochOf(s, id));
    FrontHere(s, id);
    var a: string;
    a, steps := Begin(s, o);
    ReachesGives(s, steps, o);
    var t := Runs(s, steps);
    FrontGives(t, o);
    var step := FailForGood(t, id, a);
    Single(t, step);
    GentleSingle(step);
    GentleJoined(steps, [step]);
    Joined(s, steps, [step]);
    steps := steps + [step];
  }

  /** From scheduled or waiting for a retry: move, then as above. */
  lemma BuryWaiting(s: System, id: string, source: Source) returns (steps: seq<Step>)
    requires Inv(s) && id in s.store.tasks && IsIn(s.store, id, source.State())
    ensures Legal(s, steps) && AllGentle(steps) && IsIn(Runs(s, steps).store, id, Archived)
  {
    hide *;
    var o := Origin(id, EpochOf(s, id));
    FrontHere(s, id);
    steps := MoveUp(s, o, source);
    ReachesGives(s, steps, o);
    var t := Runs(s, steps);
    FrontGives(t, o);
    var rest := BuryPending(t, id);
    GentleJoined(steps, rest);
    Joined(s, steps, rest);
    steps := steps + rest;
  }

  /** From any state but completed. */
  lemma Bury(s: System, id: string) returns (steps: seq<Step>)
    requires Inv(s) && id in s.store.tasks && !IsIn(s.store, id, Completed)
    ensures Legal(s, steps) && AllGentle(steps) && IsIn(Runs(s, steps).store, id, Archived)
  {
    hide Inv, Legal, Runs, AllGentle;
    match s.store.tasks[id].state
    case Archived => steps := BuryNothing(s, id);
    case Pending => steps := BuryPending(s, id);
    case Scheduled => steps := BuryWaiting(s, id, FromScheduled);
    case Retry => steps := BuryWaiting(s, id, FromRetry);
    case Active =>
      Attempted(s, id);
      steps := TakeAway(s, id, s.store.tasks[id].attempt.value);
      var t := Runs(s, steps);
      if IsIn(t.store, id, Retry) {
        AlwaysInv(s, steps);
        var rest := BuryWaiting(t, id, FromRetry);
        GentleJoined(steps, rest);
        Joined(s, steps, rest);
        steps := steps + rest;
      }
  }

  lemma BuryNothing(s: System, id: string) returns (steps: seq<Step>)
    requires IsIn(s.store, id, Archived)
    ensures Legal(s, steps) && AllGentle(steps) && IsIn(Runs(s, steps).store, id, Archived)
  {
    steps := [];
  }

  lemma Attempted(s: System, id: string)
    requires Inv(s) && IsIn(s.store, id, Active)
    ensures s.store.tasks[id].attempt.Some? && Holds(s.store, id, s.store.tasks[id].attempt.value)
  {
    assert GoodTask(s.store.tasks[id], s.store.sequence);
  }

  lemma CallKeeps(m: Machine, op: Op, id: string)
    requires id in m.tasks && !op.Delete? && !op.Cleanup?
    ensures id in Apply(m, op).tasks
  {
    hide Apply;
    EveryCallIsAnEdge(m, op, id);
  }

  lemma AdvanceKeepsCore(t: Task, t': Task)
    requires MessageAdvance(t, t')
    ensures Core(t'.msg) == Core(t.msg)
  {
    hide Core;
  }

  lemma GentleStays(s: System, step: Step, id: string)
    requires Enabled(s, step) && Gentle(step) && id in s.store.tasks
    ensures id in After(s, step).store.tasks && !(step.WriteReplay? && step.msg.id == id)
  {
    hide Enabled, After, Call, Apply;
    AfterStore(s, step);
    CallsNoDeletion(s, step);
    if Call(s, step).Some? {
      CallKeeps(s.store, Call(s, step).value, id);
    }
  }

  /** A gentle stretch keeps the record, its core and every copy. */
  lemma GentleStep(s: System, step: Step, id: string)
    requires Inv(s) && Enabled(s, step) && Gentle(step) && id in s.store.tasks
    ensures id in After(s, step).store.tasks
    ensures Core(After(s, step).store.tasks[id].msg) == Core(s.store.tasks[id].msg)
    ensures s.replaying <= After(s, step).replaying
  {
    assert !step.WriteReplay? && !step.Crash?;
    hide Inv, Enabled, After, Core, DeadCopy, MessageAdvance, Gentle;
    GentleStays(s, step, id);
    ReplayingAfter(s, step);
    MessageAdvances(s, step, id);
    AdvanceKeepsCore(s.store.tasks[id], After(s, step).store.tasks[id]);
  }

  lemma CallsNoDeletion(s: System, step: Step)
    requires Enabled(s, step) && Gentle(step)
    ensures Call(s, step).Some? ==> !Call(s, step).value.Delete? && !Call(s, step).value.Cleanup?
  {
    match step
    case Fail(_, _, _, _, _) =>
    case Recover(_, _, _) =>
    case _ =>
  }

  lemma {:induction false} GentleRun(s: System, steps: seq<Step>, id: string)
    requires Inv(s) && Legal(s, steps) && AllGentle(steps) && id in s.store.tasks
    ensures Unreused(s, steps, id) && Inv(Runs(s, steps)) && s.replaying <= Runs(s, steps).replaying
    ensures id in Runs(s, steps).store.tasks
    ensures Core(Runs(s, steps).store.tasks[id].msg) == Core(s.store.tasks[id].msg)
    decreases |steps|
  {
    hide Inv, Enabled, After, Core, Gentle;
    if steps != [] {
      assert steps[0] in steps;
      StepKeeps(s, steps[0]);
      GentleStep(s, steps[0], id);
      GentleRun(After(s, steps[0]), steps[1..], id);
    }
  }

  lemma {:induction false} UnreusedJoined(s: System, a: seq<Step>, b: seq<Step>, id: string)
    requires Legal(s, a) && Legal(Runs(s, a), b) && Unreused(s, a, id) && Unreused(Runs(s, a), b, id)
    ensures Legal(s, a + b) && Runs(s, a + b) == Runs(Runs(s, a), b) && Unreused(s, a + b, id)
    decreases |a|
  {
    hide Enabled, After, Reuses;
    Joined(s, a, b);
    if a == [] {
      assert a + b == b;
    } else {
      assert (a + b)[1..] == a[1..] + b;
      UnreusedJoined(After(s, a[0]), a[1..], b, id);
    }
  }

  // ---- exactly when a replay is as good as one step ----

  lemma CompletedStays(s: System, step: Step, id: string)
    requires Enabled(s, step) && IsIn(s.store, id, Completed)
    ensures IsIn(After(s, step).store, id, Completed)
  {
    hide Enabled, After, Call, Apply;
    AfterStore(s, step);
    if Call(s, step).Some? {
      EveryCallIsAnEdge(s.store, Call(s, step).value, id);
    }
  }

  lemma {:induction false} CompletedRun(s: System, steps: seq<Step>, id: string)
    requires Legal(s, steps) && IsIn(s.store, id, Completed)
    ensures IsIn(Runs(s, steps).store, id, Completed)
    decreases |steps|
  {
    hide Enabled, After;
    if steps != [] {
      CompletedStays(s, steps[0], id);
      CompletedRun(After(s, steps[0]), steps[1..], id);
    }
  }

  /** The run ends with the copy still to be written, and not atomically. */
  ghost predicate Breaks(s: System, steps: seq<Step>, msg: Message, seqno: nat, now: int) {
    && Legal(s, steps) && Unreused(s, steps, msg.id)
    && (msg, seqno) in Runs(s, steps).replaying && !Atomic(Runs(s, steps), msg, now)
  }

  /** A record with another core than the copy: once it is a dead letter, the copy overwrites it. */
  lemma MixesHere(s: System, msg: Message, seqno: nat, now: int) returns (steps: seq<Step>)
    requires Inv(s) && (msg, seqno) in s.replaying && msg.id in s.store.tasks
    requires !IsIn(s.store, msg.id, Completed) && Core(msg) != Core(s.store.tasks[msg.id].msg)
    ensures Breaks(s, steps, msg, seqno, now)
  {
    hide Inv, Legal, Runs, AllGentle, Core, Atomic, Unreused;
    steps := Bury(s, msg.id);
    GentleRun(s, steps, msg.id);
    AtomicIff(Runs(s, steps), msg, seqno, now);
  }

  /** Another copy is written first, and changes the core. */
  lemma Overwrite(s: System, id: string, r: (Message, nat)) returns (steps: seq<Step>)
    requires Inv(s) && r in s.replaying && r.0.id == id
    requires id in s.store.tasks && !IsIn(s.store, id, Completed)
    ensures Legal(s, steps) && Unreused(s, steps, id) && Inv(Runs(s, steps))
    ensures s.replaying - multiset{r} <= Runs(s, steps).replaying
    ensures id in Runs(s, steps).store.tasks && !IsIn(Runs(s, steps).store, id, Completed)
    ensures Core(Runs(s, steps).store.tasks[id].msg) == Core(r.0)
  {
    hide Inv, Legal, Runs, AllGentle, Core, Unreused, After, Enabled;
    var bury := Bury(s, id);
    GentleRun(s, bury, id);
    var t, step := Runs(s, bury), WriteReplay(r.0, r.1, 0);
    WriteEnabled(t, r);
    WrittenCore(t, r.0, r.1, 0);
    ReplayingAfter(t, step);
    StepKeeps(t, step);
    Single(t, step);
    UnreusedSingle(t, step, id);
    UnreusedJoined(s, bury, [step], id);
    steps := bury + [step];
  }

  lemma WriteEnabled(s: System, r: (Message, nat))
    requires r in s.replaying
    ensures Enabled(s, WriteReplay(r.0, r.1, 0))
  {
  }

  lemma UnreusedSingle(s: System, step: Step, id: string)
    requires Enabled(s, step) && id in s.store.tasks
    ensures Legal(s, [step]) && Unreused(s, [step], id)
  {
    hide Enabled, After;
    Single(s, step);
    assert [step][1..] == [];
    assert Unreused(After(s, step), [], id);
  }

  lemma Mixes(s: System, msg: Message, seqno: nat, now: int) returns (steps: seq<Step>)
    requires Inv(s) && (msg, seqno) in s.replaying && !IsIn(s.store, msg.id, Completed) && !Agree(s, msg.id)
    ensures Breaks(s, steps, msg, seqno, now)
  {
    hide Inv, Legal, Runs, Core, Unreused, After, Enabled, Atomic;
    if Core(msg) != Core(s.store.tasks[msg.id].msg) {
      steps := MixesHere(s, msg, seqno, now);
    } else {
      var r :| r in s.replaying && r.0.id == msg.id && Core(r.0) != Core(s.store.tasks[msg.id].msg);
      steps := Overwrite(s, msg.id, r);
      assert (msg, seqno) in s.replaying - multiset{r};
      var rest := MixesHere(Runs(s, steps), msg, seqno, now);
      UnreusedJoined(s, steps, rest, msg.id);
      steps := steps + rest;
    }
  }

  /** A replay that has read its copy writes what an atomic replay would write, whenever it comes to write before
      the id is reused, if and only if the task is completed or all replays of it under way hold copies with
      the core of its record. */
  lemma ReplayAtomicIff(s: System, msg: Message, seqno: nat, now: int)
    requires Inv(s) && (msg, seqno) in s.replaying
    ensures
      (forall steps | Legal(s, steps) && Unreused(s, steps, msg.id) && (msg, seqno) in Runs(s, steps).replaying ::
         Atomic(Runs(s, steps), msg, now))
      <==> IsIn(s.store, msg.id, Completed) || Agree(s, msg.id)
  {
    hide Inv, Legal, Runs, Unreused, Agree, Atomic;
    if IsIn(s.store, msg.id, Completed) || Agree(s, msg.id) {
      forall steps | Legal(s, steps) && Unreused(s, steps, msg.id) && (msg, seqno) in Runs(s, steps).replaying
        ensures Atomic(Runs(s, steps), msg, now)
      {
        AlwaysInv(s, steps);
        if Agree(s, msg.id) {
          RunAgrees(s, steps, msg.id);
          AgreeIsAtomic(Runs(s, steps), msg, seqno, now);
        } else {
          CompletedRun(s, steps, msg.id);
          AtomicIff(Runs(s, steps), msg, seqno, now);
        }
      }
    } else {
      var steps := Mixes(s, msg, seqno, now);
      assert !Atomic(Runs(s, steps), msg, now);
    }
  }
}
