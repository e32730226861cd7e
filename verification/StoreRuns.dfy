/** What holds over every run of the scripts, whoever calls them and with whatever arguments. */
module StoreRuns {
  import opened Values
  import opened TaskMachine
  import RankMember

  function One(b: bool): nat {
    if b then 1 else 0
  }

  // ---- the edges of the state machine ----

  /** The changes one call may make to a task that is there before and after it. */
  ghost predicate Edge(m: Machine, op: Op, id: string, t: Task, t': Task) {
    || t' == t
    || (op.Claim? && IsNext(m, id) && t' == t.(state := Active, attempt := Some(op.attempt), due := op.expires))
    || (op.MoveReady? && t.state == op.source.State() && t.due <= op.now && t' == t.(state := Pending, due := 0))
    || (op.ExtendLease? && t.state == Active && t.attempt.Some? && (id, t.attempt.value) in op.claims
        && t' == t.(due := op.expires))
    || (op.Ack? && op.msg.id == id && Holds(m, id, op.attempt) && t' == Put(t, op.msg, Completed, 0))
    || (op.ScheduleRetry? && op.msg.id == id && Holds(m, id, op.attempt) && t' == Put(t, op.msg, Retry, op.at))
    || (op.Archive? && op.msg.id == id && Holds(m, id, op.attempt) && t' == Put(t, op.msg, Archived, op.at))
    || (op.Requeue? && op.id == id && Holds(m, id, op.attempt) && t' == Put(t, t.msg, Pending, 0))
    || (op.Replay? && op.id == id && t.state == Archived && t' == Put(t, op.msg, Pending, 0))
  }

  /** Every call makes at most one edge per task, creates tasks only under fresh sequence
      numbers and removes only dead letters. */
  lemma EveryCallIsAnEdge(m: Machine, op: Op, id: string)
    ensures
      var m' := Apply(m, op);
      && (id in m.tasks && id in m'.tasks ==> Edge(m, op, id, m.tasks[id], m'.tasks[id]))
      && (id in m.tasks && id !in m'.tasks ==> m.tasks[id].state == Archived && (op == Delete(id) || op.Cleanup?))
      && (id !in m.tasks && id in m'.tasks ==>
        (op.Enqueue? || op.Schedule?) && op.msg.id == id && m'.tasks[id].seqno == m.sequence + 1 &&
        m'.tasks[id].state == (if op.Enqueue? then Pending else Scheduled) && m'.tasks[id].msg == op.msg)
      && m.sequence <= m'.sequence
  {
    match op
    case MoveReady(source, now, limit) =>
      DueIdsMembers(m, source.State(), now, limit);
    case Cleanup(olderThan, limit) =>
      DueIdsMembers(m, Archived, olderThan, limit);
    case _ =>
  }

  // ---- a task is acknowledged at most once ----

  ghost predicate Acks(m: Machine, op: Op, id: string) {
    op.Ack? && op.msg.id == id && Succeeds(m, op)
  }

  ghost function AckCount(m: Machine, ops: seq<Op>, id: string): nat
    decreases |ops|
  {
    if ops == [] then 0 else One(Acks(m, ops[0], id)) + AckCount(Apply(m, ops[0]), ops[1..], id)
  }

  predicate IsIn(m: Machine, id: string, s: State) {
    id in m.tasks && m.tasks[id].state == s
  }

  /** A completed record is never changed, moved, deleted or created again. */
  lemma {:induction false} CompletedIsFinal(m: Machine, ops: seq<Op>, id: string)
    requires IsIn(m, id, Completed)
    ensures id in Run(m, ops).tasks && Run(m, ops).tasks[id] == m.tasks[id]
    ensures AckCount(m, ops, id) == 0
    decreases |ops|
  {
    if ops != [] {
      EveryCallIsAnEdge(m, ops[0], id);
      CompletedIsFinal(Apply(m, ops[0]), ops[1..], id);
    }
  }

  /** Over any run, AckSuccess succeeds at most once per task, and only with the record it leaves. */
  lemma {:induction false} AckedAtMostOnce(m: Machine, ops: seq<Op>, id: string)
    ensures AckCount(m, ops, id) <= 1
    ensures AckCount(m, ops, id) == 1 ==> IsIn(Run(m, ops), id, Completed) && !IsIn(m, id, Completed)
    decreases |ops|
  {
    if ops != [] {
      hide Edge;
      var m' := Apply(m, ops[0]);
      if Acks(m, ops[0], id) {
        CompletedIsFinal(m', ops[1..], id);
      } else {
        if IsIn(m, id, Completed) {
          CompletedIsFinal(m, ops[..1], id);
          assert Run(m, ops[..1]) == m';
        }
        AckedAtMostOnce(m', ops[1..], id);
      }
    }
  }

  // ---- fencing ----

  /** Claims never reuse an attempt id. */
  ghost predicate Fresh(ops: seq<Op>, used: set<string>)
    decreases |ops|
  {
    ops == [] ||
    if ops[0].Claim? then ops[0].attempt !in used && Fresh(ops[1..], used + {ops[0].attempt})
    else Fresh(ops[1..], used)
  }

  ghost predicate Current(m: Machine, a: string) {
    exists id :: Holds(m, id, a)
  }

  /** An attempt id in use is a used one and belongs to one task. */
  ghost predicate Tracked(m: Machine, used: set<string>) {
    && (forall id, a | Holds(m, id, a) :: a in used)
    && (forall x, y, a | Holds(m, x, a) && Holds(m, y, a) :: x == y)
  }

  /** The call ends attempt a: an ack, retry, archive or requeue that succeeds with it. */
  ghost predicate EndsAttempt(m: Machine, op: Op, a: string) {
    (op.Ack? || op.ScheduleRetry? || op.Archive? || op.Requeue?) && op.attempt == a && Succeeds(m, op)
  }

  ghost predicate IssuesAttempt(m: Machine, op: Op, a: string) {
    op.Claim? && op.attempt == a && Succeeds(m, op)
  }

  ghost function EndCount(m: Machine, ops: seq<Op>, a: string): nat
    decreases |ops|
  {
    if ops == [] then 0 else One(EndsAttempt(m, ops[0], a)) + EndCount(Apply(m, ops[0]), ops[1..], a)
  }

  ghost function IssueCount(m: Machine, ops: seq<Op>, a: string): nat
    decreases |ops|
  {
    if ops == [] then 0 else One(IssuesAttempt(m, ops[0], a)) + IssueCount(Apply(m, ops[0]), ops[1..], a)
  }

  function UsedAfter(op: Op, used: set<string>): set<string> {
    if op.Claim? then used + {op.attempt} else used
  }

  lemma HoldsAfter(m: Machine, op: Op, id: string, a: string)
    requires WellFormed(m)
    ensures Holds(Apply(m, op), id, a) <==>
            (Holds(m, id, a) && !(EndsAttempt(m, op, a) && Target(m, op) == id)) ||
            (IssuesAttempt(m, op, a) && Target(m, op) == id)
  {
    EveryCallIsAnEdge(m, op, id);
  }

  lemma TrackedAfter(m: Machine, op: Op, used: set<string>)
    requires WellFormed(m) && Tracked(m, used)
    requires op.Claim? ==> op.attempt !in used
    ensures Tracked(Apply(m, op), UsedAfter(op, used))
  {
    var m' := Apply(m, op);
    hide Apply, Succeeds, WellFormed, Holds;
    forall id, a | Holds(m', id, a)
      ensures a in UsedAfter(op, used)
    {
      HoldsAfter(m, op, id, a);
    }
    forall x, y, a | Holds(m', x, a) && Holds(m', y, a)
      ensures x == y
    {
      HoldsAfter(m, op, x, a);
      HoldsAfter(m, op, y, a);
    }
  }

  /** One call: attempts in use before it plus those issued by it are those it ends plus those in use after it. */
  lemma AttemptBalanceStep(m: Machine, op: Op, used: set<string>, a: string)
    requires WellFormed(m) && Tracked(m, used)
    requires op.Claim? ==> op.attempt !in used
    ensures
      One(Current(m, a)) + One(IssuesAttempt(m, op, a)) == One(EndsAttempt(m, op, a)) + One(Current(Apply(m, op), a))
  {
    var m' := Apply(m, op);
    if EndsAttempt(m, op, a) {
      assert Holds(m, Target(m, op), a);
    }
    hide Apply, Succeeds, WellFormed, Holds;
    forall id
      ensures Holds(m', id, a) <==>
              (Holds(m, id, a) && !(EndsAttempt(m, op, a) && Target(m, op) == id)) ||
              (IssuesAttempt(m, op, a) && Target(m, op) == id)
    {
      HoldsAfter(m, op, id, a);
    }
    if Current(m, a) && !EndsAttempt(m, op, a) {
      var id :| Holds(m, id, a);
      assert Holds(m', id, a);
    }
    if IssuesAttempt(m, op, a) {
      assert Holds(m', Target(m, op), a);
    }
  }

  lemma {:induction false} AttemptBalance(m: Machine, ops: seq<Op>, used: set<string>, a: string)
    requires WellFormed(m) && Tracked(m, used) && Fresh(ops, used)
    ensures One(Current(m, a)) + IssueCount(m, ops, a) == EndCount(m, ops, a) + One(Current(Run(m, ops), a))
    ensures a in used ==> IssueCount(m, ops, a) == 0
    ensures IssueCount(m, ops, a) <= 1
    decreases |ops|
  {
    if ops != [] {
      ApplyWellFormed(m, ops[0]);
      TrackedAfter(m, ops[0], used);
      AttemptBalanceStep(m, ops[0], used, a);
      AttemptBalance(Apply(m, ops[0]), ops[1..], UsedAfter(ops[0], used), a);
    }
  }

  /** Each attempt gets at most one successful outcome among ack, retry, archive and requeue;
      once it has one, no task holds it again. */
  lemma OneOutcomePerAttempt(ops: seq<Op>, a: string)
    requires Fresh(ops, {})
    ensures EndCount(EMPTY, ops, a) <= IssueCount(EMPTY, ops, a) <= 1
    ensures EndCount(EMPTY, ops, a) == 1 ==> !Current(Run(EMPTY, ops), a)
  {
    AttemptBalance(EMPTY, ops, {}, a);
  }

  /** Every call that carries only ended attempts leaves the machine as it was. */
  lemma StaleCallsDoNothing(m: Machine, op: Op, a: string)
    requires !Current(m, a)
    requires
      || ((op.Ack? || op.ScheduleRetry? || op.Archive? || op.Requeue?) && op.attempt == a)
      || (op.ExtendLease? && forall c | c in op.claims :: c.1 == a)
    ensures Apply(m, op) == m
  {
    assert forall id :: !Holds(m, id, a);
  }

  // ---- dead letters ----

  ghost predicate ArchivesTask(m: Machine, op: Op, id: string) {
    op.Archive? && op.msg.id == id && Succeeds(m, op)
  }

  ghost predicate ReplaysTask(m: Machine, op: Op, id: string) {
    op.Replay? && op.id == id && Succeeds(m, op)
  }

  ghost predicate DropsTask(m: Machine, op: Op, id: string) {
    id in m.tasks && id !in Apply(m, op).tasks
  }

  ghost function ArchiveCount(m: Machine, ops: seq<Op>, id: string): nat
    decreases |ops|
  {
    if ops == [] then 0 else One(ArchivesTask(m, ops[0], id)) + ArchiveCount(Apply(m, ops[0]), ops[1..], id)
  }

  ghost function ReplayCount(m: Machine, ops: seq<Op>, id: string): nat
    decreases |ops|
  {
    if ops == [] then 0 else One(ReplaysTask(m, ops[0], id)) + ReplayCount(Apply(m, ops[0]), ops[1..], id)
  }

  ghost function DropCount(m: Machine, ops: seq<Op>, id: string): nat
    decreases |ops|
  {
    if ops == [] then 0 else One(DropsTask(m, ops[0], id)) + DropCount(Apply(m, ops[0]), ops[1..], id)
  }

  lemma DeadLetterBalanceStep(m: Machine, op: Op, id: string)
    ensures One(IsIn(m, id, Archived)) + One(ArchivesTask(m, op, id)) ==
            One(ReplaysTask(m, op, id)) + One(DropsTask(m, op, id)) + One(IsIn(Apply(m, op), id, Archived))
  {
    EveryCallIsAnEdge(m, op, id);
  }

  /** Every archived episode of a task ends in one replay or one deletion, or is still open:
      racing replays of one episode have one winner. */
  lemma {:induction false} DeadLetterBalance(m: Machine, ops: seq<Op>, id: string)
    ensures One(IsIn(m, id, Archived)) + ArchiveCount(m, ops, id) ==
            ReplayCount(m, ops, id) + DropCount(m, ops, id) + One(IsIn(Run(m, ops), id, Archived))
    decreases |ops|
  {
    if ops != [] {
      DeadLetterBalanceStep(m, ops[0], id);
      DeadLetterBalance(Apply(m, ops[0]), ops[1..], id);
    }
  }

  // ---- an id is taken once at a time ----

  /** A creation that is answered as stored. */
  ghost predicate Creates(m: Machine, op: Op, id: string) {
    (op.Enqueue? || op.Schedule?) && op.msg.id == id && id !in m.tasks && m.sequence < RankMember.MAX_SEQUENCE
  }

  ghost function CreateCount(m: Machine, ops: seq<Op>, id: string): nat
    decreases |ops|
  {
    if ops == [] then 0 else One(Creates(m, ops[0], id)) + CreateCount(Apply(m, ops[0]), ops[1..], id)
  }

  /** Over any run the creations of an id that were answered as stored, and the one it started with, are its
      removals and the one that is still there: an id is stored again only after it was removed. */
  lemma {:induction false} CreationBalance(m: Machine, ops: seq<Op>, id: string)
    ensures One(id in m.tasks) + CreateCount(m, ops, id) == DropCount(m, ops, id) + One(id in Run(m, ops).tasks)
    decreases |ops|
  {
    if ops != [] {
      var m' := Apply(m, ops[0]);
      EveryCallIsAnEdge(m, ops[0], id);
      assert id !in m.tasks && id in m'.tasks ==> Creates(m, ops[0], id);
      hide Edge;
      CreationBalance(m', ops[1..], id);
    }
  }

  // ---- a task keeps its place ----

  /** A record whose sequence number was already given out is the record it belonged to then,
      with the rank it had: retry, requeue and replay never move a task in the queue. */
  lemma {:induction false} PlaceKept(m: Machine, ops: seq<Op>, id: string)
    requires WellFormed(m)
    requires id in Run(m, ops).tasks && Run(m, ops).tasks[id].seqno <= m.sequence
    ensures id in m.tasks && m.tasks[id].seqno == Run(m, ops).tasks[id].seqno
    ensures m.tasks[id].rank == Run(m, ops).tasks[id].rank
    decreases |ops|
  {
    if ops != [] {
      EveryCallIsAnEdge(m, ops[0], id);
      ApplyWellFormed(m, ops[0]);
      PlaceKept(Apply(m, ops[0]), ops[1..], id);
    }
  }

  /** Two tasks that survive a run keep their order in the queue. */
  lemma OrderKept(m: Machine, ops: seq<Op>, a: string, b: string)
    requires WellFormed(m) && a in m.tasks && b in m.tasks
    requires a in Run(m, ops).tasks && Run(m, ops).tasks[a].seqno == m.tasks[a].seqno
    requires b in Run(m, ops).tasks && Run(m, ops).tasks[b].seqno == m.tasks[b].seqno
    ensures Ahead(Run(m, ops), a, b) <==> Ahead(m, a, b)
  {
    PlaceKept(m, ops, a);
    PlaceKept(m, ops, b);
  }
}
