/** One queue seen abstractly: each task in one state, with the one time its index keeps.
    The store in QueueStore.dfy spreads this over nine Redis keys. */
module TaskMachine {
  import opened Values
  import Redis
  import RankMember

  datatype State = Pending | Scheduled | Active | Retry | Archived | Completed

  datatype Message = Message(
    id: string, kind: string, payload: string, queue: string,
    priority: int, maxRetry: int, retryCount: int, timeout: int, deadline: int, runAt: int,
    state: State, attemptId: string, lastError: string, lastFailedAt: int, completedAt: int, createdAt: int)

  /** `due` is the run time of a scheduled task, the retry time of a failed one, the lease
      expiry of an active one and the archive time of a dead letter; otherwise it is 0. */
  datatype Task = Task(msg: Message, state: State, rank: int, seqno: nat, attempt: Option<string>, due: int)

  datatype Machine = Machine(tasks: map<string, Task>, sequence: nat)

  const EMPTY := Machine(map[], 0)

  function Ids(m: Machine, s: State): set<string> {
    set id | id in m.tasks && m.tasks[id].state == s
  }

  /** The tasks of one state with their times. */
  function Index(m: Machine, s: State): Redis.ZSet {
    map id | id in m.tasks && m.tasks[id].state == s :: m.tasks[id].due
  }

  predicate GoodTask(t: Task, sequence: nat) {
    && 1 <= t.seqno <= sequence
    && (t.attempt.Some? <==> t.state == Active)
    && (t.state in {Pending, Completed} ==> t.due == 0)
  }

  ghost predicate DistinctSeqnos(tasks: map<string, Task>) {
    forall a, b | a in tasks && b in tasks && tasks[a].seqno == tasks[b].seqno :: a == b
  }

  ghost predicate WellFormed(m: Machine) {
    && m.sequence <= RankMember.MAX_SEQUENCE
    && (forall id | id in m.tasks :: GoodTask(m.tasks[id], m.sequence))
    && DistinctSeqnos(m.tasks)
  }

  /** Pending tasks are served by rank, then in order of their sequence numbers. */
  predicate Ahead(m: Machine, a: string, b: string)
    requires a in m.tasks && b in m.tasks
  {
    m.tasks[a].rank < m.tasks[b].rank || (m.tasks[a].rank == m.tasks[b].rank && m.tasks[a].seqno < m.tasks[b].seqno)
  }

  ghost predicate IsNext(m: Machine, id: string) {
    id in Ids(m, Pending) && forall j | j in Ids(m, Pending) :: j == id || Ahead(m, id, j)
  }

  /** The head of the abstract priority queue. */
  ghost function Next(m: Machine): Option<string> {
    if exists id :: IsNext(m, id) then
      var id :| IsNext(m, id);
      Some(id)
    else None
  }

  predicate Holds(m: Machine, id: string, attempt: string) {
    id in m.tasks && m.tasks[id].state == Active && m.tasks[id].attempt == Some(attempt)
  }

  datatype Source = FromScheduled | FromRetry {
    function State(): State { if FromScheduled? then Scheduled else Retry }
  }

  /** The scripts' calls, with whatever arguments a caller passes. */
  datatype Op =
    | Enqueue(msg: Message, rank: int)
    | Schedule(msg: Message, rank: int, at: int)
    | Claim(attempt: string, expires: int)
    | MoveReady(source: Source, now: int, limit: nat)
    | Ack(msg: Message, attempt: string)
    | ScheduleRetry(msg: Message, at: int, attempt: string)
    | Archive(msg: Message, at: int, attempt: string)
    | Requeue(id: string, attempt: string)
    | Replay(id: string, msg: Message)
    | Delete(id: string)
    | Cleanup(before: int, limit: nat)
    | ExtendLease(claims: seq<(string, string)>, expires: int)

  function With(m: Machine, id: string, t: Task): Machine {
    m.(tasks := m.tasks[id := t])
  }

  /** A task rewritten in a state that holds no attempt. */
  function Put(t: Task, msg: Message, s: State, due: int): Task {
    t.(msg := msg, state := s, attempt := None, due := due)
  }

  predicate CanCreate(m: Machine, id: string) {
    id !in m.tasks && m.sequence < RankMember.MAX_SEQUENCE
  }

  function Create(m: Machine, id: string, t: Task): Machine {
    Machine(m.tasks[id := t], m.sequence + 1)
  }

  /** The first `limit` tasks of state s whose time has come, earliest first. */
  function DueIds(m: Machine, s: State, now: int, limit: nat): seq<string> {
    var ids := Redis.RangeByScore(Index(m, s), now);
    if |ids| <= limit then ids else ids[..limit]
  }

  function Promoted(m: Machine, ids: set<string>): Machine {
    m.(tasks := map id | id in m.tasks ::
      if id in ids then m.tasks[id].(state := Pending, due := 0) else m.tasks[id])
  }

  function Removed(m: Machine, ids: set<string>): Machine {
    m.(tasks := m.tasks - ids)
  }

  function Members(ids: seq<string>): set<string> {
    set id | id in ids
  }

  function Extended(m: Machine, claims: seq<(string, string)>, expires: int): Machine {
    m.(tasks := map id | id in m.tasks ::
      if m.tasks[id].state == Active && m.tasks[id].attempt.Some? && (id, m.tasks[id].attempt.value) in claims
      then m.tasks[id].(due := expires) else m.tasks[id])
  }

  ghost predicate Succeeds(m: Machine, op: Op) {
    match op
    case Enqueue(msg, _) => CanCreate(m, msg.id)
    case Schedule(msg, _, _) => CanCreate(m, msg.id)
    case Claim(_, _) => Next(m).Some?
    case MoveReady(source, now, limit) => DueIds(m, source.State(), now, limit) != []
    case Ack(msg, attempt) => Holds(m, msg.id, attempt)
    case ScheduleRetry(msg, _, attempt) => Holds(m, msg.id, attempt)
    case Archive(msg, _, attempt) => Holds(m, msg.id, attempt)
    case Requeue(id, attempt) => Holds(m, id, attempt)
    case Replay(id, _) => id in Ids(m, Archived)
    case Delete(id) => id in Ids(m, Archived)
    case Cleanup(before, limit) => DueIds(m, Archived, before, limit) != []
    case ExtendLease(claims, _) => exists c | c in claims :: Holds(m, c.0, c.1)
  }

  ghost function Apply(m: Machine, op: Op): Machine {
    if !Succeeds(m, op) then m else
    match op
    case Enqueue(msg, rank) => Create(m, msg.id, Task(msg, Pending, rank, m.sequence + 1, None, 0))
    case Schedule(msg, rank, at) => Create(m, msg.id, Task(msg, Scheduled, rank, m.sequence + 1, None, at))
    case Claim(attempt, expires) =>
      var id := Next(m).value;
      With(m, id, m.tasks[id].(state := Active, attempt := Some(attempt), due := expires))
    case MoveReady(source, now, limit) => Promoted(m, Members(DueIds(m, source.State(), now, limit)))
    case Ack(msg, _) => With(m, msg.id, Put(m.tasks[msg.id], msg, Completed, 0))
    case ScheduleRetry(msg, at, _) => With(m, msg.id, Put(m.tasks[msg.id], msg, Retry, at))
    case Archive(msg, at, _) => With(m, msg.id, Put(m.tasks[msg.id], msg, Archived, at))
    case Requeue(id, _) => With(m, id, Put(m.tasks[id], m.tasks[id].msg, Pending, 0))
    case Replay(id, msg) => With(m, id, Put(m.tasks[id], msg, Pending, 0))
    case Delete(id) => Removed(m, {id})
    case Cleanup(before, limit) => Removed(m, Members(DueIds(m, Archived, before, limit)))
    case ExtendLease(claims, expires) => Extended(m, claims, expires)
  }

  /** The task a call addressed to a single task acts on. */
  ghost function Target(m: Machine, op: Op): string {
    match op
    case Enqueue(msg, _) => msg.id
    case Schedule(msg, _, _) => msg.id
    case Claim(_, _) => if Next(m).Some? then Next(m).value else ""
    case Ack(msg, _) => msg.id
    case ScheduleRetry(msg, _, _) => msg.id
    case Archive(msg, _, _) => msg.id
    case Requeue(id, _) => id
    case Replay(id, _) => id
    case Delete(id) => id
    case _ => ""
  }

  ghost function Run(m: Machine, ops: seq<Op>): Machine
    decreases |ops|
  {
    if ops == [] then m else Run(Apply(m, ops[0]), ops[1..])
  }

  // ---- basic facts ----

  lemma DueIdsMembers(m: Machine, s: State, now: int, limit: nat)
    ensures forall id | id in DueIds(m, s, now, limit) :: id in Ids(m, s) && m.tasks[id].due <= now
  {
    Redis.SortedLists(Redis.UpTo(Index(m, s), now));
  }

  lemma WithWellFormed(m: Machine, id: string, t: Task)
    requires WellFormed(m) && id in m.tasks
    requires GoodTask(t, m.sequence) && t.seqno == m.tasks[id].seqno
    ensures WellFormed(With(m, id, t))
  {
  }

  lemma LeaseWellFormed(m: Machine, id: string, due: int)
    requires WellFormed(m) && id in Ids(m, Active)
    ensures WellFormed(With(m, id, m.tasks[id].(due := due)))
  {
    WithWellFormed(m, id, m.tasks[id].(due := due));
  }

  lemma CreateWellFormed(m: Machine, id: string, t: Task)
    requires WellFormed(m) && CanCreate(m, id)
    requires GoodTask(t, m.sequence + 1) && t.seqno == m.sequence + 1
    ensures WellFormed(Create(m, id, t))
  {
    assert forall j | j in m.tasks :: m.tasks[j].seqno <= m.sequence;
  }

  lemma PromotedWellFormed(m: Machine, ids: set<string>)
    requires WellFormed(m)
    requires forall id | id in ids :: id in m.tasks && m.tasks[id].state != Active
    ensures WellFormed(Promoted(m, ids))
  {
  }

  lemma RemovedWellFormed(m: Machine, ids: set<string>)
    requires WellFormed(m)
    ensures WellFormed(Removed(m, ids))
  {
  }

  lemma ExtendedWellFormed(m: Machine, claims: seq<(string, string)>, expires: int)
    requires WellFormed(m)
    ensures WellFormed(Extended(m, claims, expires))
  {
  }

  lemma ApplyWellFormed(m: Machine, op: Op)
    requires WellFormed(m)
    ensures WellFormed(Apply(m, op))
  {
    if Succeeds(m, op) {
      match op
      case Enqueue(msg, rank) =>
        CreateWellFormed(m, msg.id, Task(msg, Pending, rank, m.sequence + 1, None, 0));
      case Schedule(msg, rank, at) =>
        CreateWellFormed(m, msg.id, Task(msg, Scheduled, rank, m.sequence + 1, None, at));
      case MoveReady(source, now, limit) =>
        DueIdsMembers(m, source.State(), now, limit);
        PromotedWellFormed(m, Members(DueIds(m, source.State(), now, limit)));
      case Delete(id) =>
        RemovedWellFormed(m, {id});
      case Cleanup(before, limit) =>
        RemovedWellFormed(m, Members(DueIds(m, Archived, before, limit)));
      case ExtendLease(claims, expires) =>
        ExtendedWellFormed(m, claims, expires);
      case _ =>
        var id := Target(m, op);
        WithWellFormed(m, id, Apply(m, op).tasks[id]);
    }
  }

  lemma {:induction false} RunWellFormed(m: Machine, ops: seq<Op>)
    requires WellFormed(m)
    ensures WellFormed(Run(m, ops))
    decreases |ops|
  {
    if ops != [] {
      ApplyWellFormed(m, ops[0]);
      RunWellFormed(Apply(m, ops[0]), ops[1..]);
    }
  }

  lemma NextUnique(m: Machine, a: string, b: string)
    requires IsNext(m, a) && IsNext(m, b)
    ensures a == b
  {
  }

  /** The five calls that rewrite one task; each either leaves the machine alone or puts
      its task in another state. */
  lemma PutApplies(m: Machine, op: Op)
    requires WellFormed(m)
    requires op.Ack? || op.ScheduleRetry? || op.Archive? || op.Requeue? || op.Replay?
    ensures WellFormed(Apply(m, op))
    ensures !Succeeds(m, op) ==> Apply(m, op) == m
    ensures op.Ack? ==> (Succeeds(m, op) <==> Holds(m, op.msg.id, op.attempt))
    ensures op.Ack? && Succeeds(m, op) ==>
      Apply(m, op) == With(m, op.msg.id, Put(m.tasks[op.msg.id], op.msg, Completed, 0))
    ensures op.ScheduleRetry? ==> (Succeeds(m, op) <==> Holds(m, op.msg.id, op.attempt))
    ensures op.ScheduleRetry? && Succeeds(m, op) ==>
      Apply(m, op) == With(m, op.msg.id, Put(m.tasks[op.msg.id], op.msg, Retry, op.at))
    ensures op.Archive? ==> (Succeeds(m, op) <==> Holds(m, op.msg.id, op.attempt))
    ensures op.Archive? && Succeeds(m, op) ==>
      Apply(m, op) == With(m, op.msg.id, Put(m.tasks[op.msg.id], op.msg, Archived, op.at))
    ensures op.Requeue? ==> (Succeeds(m, op) <==> Holds(m, op.id, op.attempt))
    ensures op.Requeue? && Succeeds(m, op) ==>
      Apply(m, op) == With(m, op.id, Put(m.tasks[op.id], m.tasks[op.id].msg, Pending, 0))
    ensures op.Replay? ==> (Succeeds(m, op) <==> op.id in Ids(m, Archived))
    ensures op.Replay? ==> (Succeeds(m, op) ==> Apply(m, op) == With(m, op.id, Put(m.tasks[op.id], op.msg, Pending, 0)))
  {
    ApplyWellFormed(m, op);
    hide WellFormed, With;
  }

  lemma CreateApplies(m: Machine, op: Op)
    requires WellFormed(m) && (op.Enqueue? || op.Schedule?)
    ensures WellFormed(Apply(m, op))
    ensures !CanCreate(m, op.msg.id) ==> Apply(m, op) == m
    ensures CanCreate(m, op.msg.id) && op.Enqueue? ==>
      Apply(m, op) == Create(m, op.msg.id, Task(op.msg, Pending, op.rank, m.sequence + 1, None, 0))
    ensures CanCreate(m, op.msg.id) && op.Schedule? ==>
      Apply(m, op) == Create(m, op.msg.id, Task(op.msg, Scheduled, op.rank, m.sequence + 1, None, op.at))
  {
    ApplyWellFormed(m, op);
    hide WellFormed, Create;
  }

  lemma ClaimApplies(m: Machine, attempt: string, expires: int)
    requires WellFormed(m)
    ensures WellFormed(Apply(m, Op.Claim(attempt, expires)))
    ensures Next(m).None? ==> Apply(m, Op.Claim(attempt, expires)) == m
    ensures Next(m).Some? ==>
      var id := Next(m).value;
      id in Ids(m, Pending) &&
      Apply(m, Op.Claim(attempt, expires)) ==
      With(m, id, m.tasks[id].(state := Active, attempt := Some(attempt), due := expires))
  {
    ApplyWellFormed(m, Op.Claim(attempt, expires));
    hide WellFormed, With;
  }

  lemma DeleteApplies(m: Machine, id: string)
    ensures id in Ids(m, Archived) ==> Apply(m, Op.Delete(id)) == Removed(m, {id})
    ensures id !in Ids(m, Archived) ==> Apply(m, Op.Delete(id)) == m
  {
    hide Removed;
  }

  // ---- the loops, one element at a time ----

  ghost predicate DistinctIds(ids: seq<string>) {
    forall i, j | 0 <= i < j < |ids| :: ids[i] != ids[j]
  }

  lemma MembersGrow(ids: seq<string>, i: nat)
    requires i < |ids| && DistinctIds(ids)
    ensures Members(ids[..i + 1]) == Members(ids[..i]) + {ids[i]} && ids[i] !in Members(ids[..i])
  {
    assert ids[..i + 1] == ids[..i] + [ids[i]];
  }

  lemma ListedIds(m: Machine, s: State, now: int)
    ensures
      var ids := Redis.RangeByScore(Index(m, s), now);
      DistinctIds(ids) && forall id :: id in ids <==> id in Ids(m, s) && m.tasks[id].due <= now
  {
    Redis.SortedLists(Redis.UpTo(Index(m, s), now));
  }

  lemma PromotedNone(m: Machine)
    ensures Promoted(m, {}) == m
  {
  }

  lemma PromotedGrows(m: Machine, done: set<string>, id: string)
    requires id in m.tasks && id !in done
    ensures
      var p := Promoted(m, done);
      id in p.tasks && p.tasks[id] == m.tasks[id] &&
      Promoted(m, done + {id}) == With(p, id, m.tasks[id].(state := Pending, due := 0))
  {
  }

  lemma PromoteNext(m: Machine, s: State, ids: seq<string>, i: nat)
    requires WellFormed(m) && s != Active && i < |ids| && DistinctIds(ids)
    requires forall id | id in ids :: id in Ids(m, s)
    ensures
      var p := Promoted(m, Members(ids[..i]));
      var p' := Promoted(m, Members(ids[..i + 1]));
      ids[i] in Ids(p, s) && WellFormed(p') && p' == With(p, ids[i], p.tasks[ids[i]].(state := Pending, due := 0))
  {
    assert ids[i] in ids;
    MembersGrow(ids, i);
    PromotedGrows(m, Members(ids[..i]), ids[i]);
    forall id | id in Members(ids[..i + 1])
      ensures id in m.tasks && m.tasks[id].state != Active
    {
      assert id in ids && id in Ids(m, s);
    }
    PromotedWellFormed(m, Members(ids[..i + 1]));
  }

  lemma RemoveNext(m: Machine, s: State, ids: seq<string>, i: nat)
    requires WellFormed(m) && i < |ids| && DistinctIds(ids)
    requires forall id | id in ids :: id in Ids(m, s)
    ensures
      var p := Removed(m, Members(ids[..i]));
      ids[i] in Ids(p, s) && WellFormed(p) && Removed(m, Members(ids[..i + 1])) == Removed(p, {ids[i]})
  {
    assert ids[i] in ids;
    MembersGrow(ids, i);
    RemovedWellFormed(m, Members(ids[..i]));
  }

  lemma ExtendedNone(m: Machine, claims: seq<(string, string)>, expires: int)
    requires forall c | c in claims :: !Holds(m, c.0, c.1)
    ensures Extended(m, claims, expires) == m
  {
  }

  lemma ExtendNext(m: Machine, claims: seq<(string, string)>, i: nat, expires: int)
    requires i < |claims|
    ensures
      var p := Extended(m, claims[..i], expires);
      var p' := Extended(m, claims[..i + 1], expires);
      var (id, a) := claims[i];
      && (Holds(p, id, a) <==> Holds(m, id, a))
      && p' == (if Holds(p, id, a) then With(p, id, p.tasks[id].(due := expires)) else p)
  {
    assert forall c :: c in claims[..i + 1] <==> c in claims[..i] || c == claims[i];
    var p := Extended(m, claims[..i], expires);
    var p' := Extended(m, claims[..i + 1], expires);
    var (id, a) := claims[i];
    forall x | x in m.tasks
      ensures p'.tasks[x] == if x == id && Holds(p, id, a) then p.tasks[id].(due := expires) else p.tasks[x]
    {
    }
  }
}
