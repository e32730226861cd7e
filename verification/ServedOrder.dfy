/** The order that clients see: what the scores mean for the tasks that Claim serves. */
module ServedOrder {
  import opened Values
  import opened TaskMachine
  import opened StoreRuns
  import opened Protocol
  import opened ProtocolTheorems
  import opened ReplayRuns
  import Ranks
  import RankOrder

  /** The score that taskRank gives a message. */
  function ScoreOf(msg: Message): int {
    Ranks.Rank(Ranks.Float(), msg.priority, msg.createdAt)
  }

  /** Priorities and creation times for which scores of different priorities differ. */
  predicate Usual(msg: Message) {
    0 <= msg.priority <= RankOrder.LAST_STRICT && 0 <= msg.createdAt < Ranks.TIMES
  }

  ghost predicate Ranked(m: Machine) {
    forall id | id in m.tasks :: Usual(m.tasks[id].msg) && m.tasks[id].rank == ScoreOf(m.tasks[id].msg)
  }

  lemma HigherIsAhead(a: Message, b: Message)
    requires Usual(a) && Usual(b)
    ensures a.priority > b.priority ==> ScoreOf(a) < ScoreOf(b)
    ensures a.priority == b.priority && a.createdAt <= b.createdAt ==> ScoreOf(a) <= ScoreOf(b)
  {
    hide Ranks.Rank;
    RankOrder.StrictOrderIff(RankOrder.LAST_STRICT);
    if a.priority == b.priority && a.createdAt <= b.createdAt {
      Ranks.RealTimesNeverInvert(a.priority, a.createdAt, b.priority, b.createdAt);
    }
  }

  /** Claim never serves a task while one of higher priority is pending; and an older one of equal priority is
      passed over only if the two scores are the same and it was enqueued later. */
  lemma ClaimServesHighest(m: Machine, id: string, j: string)
    requires Ranked(m) && Next(m) == Some(id) && IsIn(m, j, Pending)
    ensures id in m.tasks && m.tasks[j].msg.priority <= m.tasks[id].msg.priority
    ensures
      var t, u := m.tasks[id], m.tasks[j];
      j != id && u.msg.priority == t.msg.priority && u.msg.createdAt < t.msg.createdAt ==>
      u.rank == t.rank && t.seqno < u.seqno
  {
    assert IsNext(m, id);
    hide Next, ScoreOf, Usual;
    assert j in Ids(m, Pending);
    HigherIsAhead(m.tasks[j].msg, m.tasks[id].msg);
  }

  // ---- scores stay what they were made from ----

  predicate Honest(step: Step) {
    step.Enqueue? || step.Schedule? ==> Usual(step.msg) && step.rank == ScoreOf(step.msg)
  }

  /** A run in which clients score their messages and no id is reused while a replay of it is under way. */
  ghost predicate Clean(s: System, steps: seq<Step>)
    requires Legal(s, steps)
    decreases |steps|
  {
    steps == [] ||
    (Honest(steps[0]) && (forall id :: !Reuses(s, steps[0], id)) && Clean(After(s, steps[0]), steps[1..]))
  }

  ghost predicate AllAgree(s: System) {
    forall id :: Agree(s, id)
  }

  lemma SameScore(a: Message, b: Message)
    requires Core(a) == Core(b)
    ensures Usual(a) == Usual(b) && ScoreOf(a) == ScoreOf(b)
  {
    assert Core(a).priority == a.priority && Core(a).createdAt == a.createdAt;
    assert Core(b).priority == b.priority && Core(b).createdAt == b.createdAt;
  }

  lemma CreatedRank(s: System, step: Step, id: string)
    requires Inv(s) && Enabled(s, step) && id in After(s, step).store.tasks
    ensures id in s.store.tasks ==> After(s, step).store.tasks[id].rank == s.store.tasks[id].rank
    ensures id !in s.store.tasks ==>
      && (step.Enqueue? || step.Schedule?)
      && After(s, step).store.tasks[id].msg == step.msg && After(s, step).store.tasks[id].rank == step.rank
  {
    hide Inv, After, Apply;
    AfterStore(s, step);
    if Call(s, step).Some? {
      EveryCallIsAnEdge(s.store, Call(s, step).value, id);
      if id !in s.store.tasks {
        NewRank(s.store, Call(s, step).value, id);
        CreatingStep(s, step);
      }
    }
  }

  lemma NewRank(m: Machine, op: Op, id: string)
    requires id !in m.tasks && id in Apply(m, op).tasks && (op.Enqueue? || op.Schedule?)
    ensures Apply(m, op).tasks[id].rank == op.rank
  {
  }

  lemma CreatingStep(s: System, step: Step)
    requires Enabled(s, step) && Call(s, step).Some?
    requires Call(s, step).value.Enqueue? || Call(s, step).value.Schedule?
    ensures (step.Enqueue? || step.Schedule?) && Call(s, step).value.msg == step.msg
    ensures Call(s, step).value.rank == step.rank
  {
  }

  lemma RankedStep(s: System, step: Step)
    requires Inv(s) && Enabled(s, step) && Ranked(s.store) && AllAgree(s) && Honest(step)
    ensures Ranked(After(s, step).store)
  {
    hide Inv, Enabled, After, Core, Usual, ScoreOf, Agree;
    var m' := After(s, step).store;
    forall id | id in m'.tasks
      ensures Usual(m'.tasks[id].msg) && m'.tasks[id].rank == ScoreOf(m'.tasks[id].msg)
    {
      CreatedRank(s, step, id);
      if id in s.store.tasks {
        assert Agree(s, id);
        SameCore(s, step, id);
        SameScore(s.store.tasks[id].msg, m'.tasks[id].msg);
      }
    }
  }

  lemma {:induction false} RankedRun(s: System, steps: seq<Step>)
    requires Inv(s) && Legal(s, steps) && Ranked(s.store) && AllAgree(s) && Clean(s, steps)
    ensures Ranked(Runs(s, steps).store)
    decreases |steps|
  {
    hide Inv, Enabled, After, Ranked, Agree, Reuses, Honest;
    if steps != [] {
      StepKeeps(s, steps[0]);
      RankedStep(s, steps[0]);
      forall id
        ensures Agree(After(s, steps[0]), id)
      {
        assert Agree(s, id) && !Reuses(s, steps[0], id);
        StepAgrees(s, steps[0], id);
      }
      RankedRun(After(s, steps[0]), steps[1..]);
    }
  }

  /** Over every such run of the system, with its retries, recoveries and replays: what Claim serves next has
      the highest priority of all pending tasks, and an older one of equal priority is passed over only if the two
      scores are the same and it was enqueued later. */
  lemma HighestPriorityFirst(steps: seq<Step>, id: string, j: string)
    requires Legal(START, steps) && Clean(START, steps)
    requires Next(Runs(START, steps).store) == Some(id) && IsIn(Runs(START, steps).store, j, Pending)
    ensures
      var tasks := Runs(START, steps).store.tasks;
      && id in tasks && tasks[j].msg.priority <= tasks[id].msg.priority
      && var t, u := tasks[id], tasks[j];
         (j != id && u.msg.priority == t.msg.priority && u.msg.createdAt < t.msg.createdAt ==>
            u.rank == t.rank && t.seqno < u.seqno)
  {
    assert Ranked(START.store) && AllAgree(START);
    hide *;
    StartInv();
    RankedRun(START, steps);
    ClaimServesHighest(Runs(START, steps).store, id, j);
  }
}
