/** The Go side of the store: what a worker, a replay and a dispatcher's MoveReady do with the scripts when
    nobody else calls in between. Protocol.dfy covers the interleavings. */
module ServerCalls {
  import opened Values
  import opened TaskMachine
  import opened Keys
  import opened QueueStore
  import opened StoreRuns
  import Protocol
  import ProtocolTheorems
  import QueueLaws
  import Redis

  datatype Error = TaskNotFound | InvalidTransition | AttemptMissing

  datatype Reply<T> = Ok(value: T) | Err(error: Error)

  /** The limit a call works with. */
  function OrDefault(limit: int): (n: nat)
    ensures limit > 0 ==> n == limit
    ensures limit <= 0 ==> n == 100
  {
    if limit <= 0 then 100 else limit
  }

  // ---- reads ----

  /** What a reader sees of a task: the message with the state and attempt of its record. */
  ghost function Seen(m: Machine, id: string): Reply<Message> {
    if id !in m.tasks then Err(TaskNotFound) else
    var t := m.tasks[id];
    if t.state != Active then Ok(t.msg.(state := t.state, attemptId := ""))
    else if t.attempt.None? || t.attempt.value == "" then Err(AttemptMissing)
    else Ok(Protocol.Claimed(t.msg, t.attempt.value))
  }

  /** The stored message with the state and attempt of its record. A task that is not stored, and an active one whose
      attempt id is empty, are errors. */
  method Get(q: Queue, id: string) returns (r: Reply<Message>)
    requires q.Valid()
    ensures r == Seen(q.machine, id)
    ensures r == Err(TaskNotFound) <==> id !in q.machine.tasks
    ensures r == Err(AttemptMissing) <==> Holds(q.machine, id, "")
    ensures r != Err(InvalidTransition)
    ensures r.Ok? ==> ReadsAs(r.value, q.machine.tasks[id])
  {
    hide Represents, Ids, Seen, ReadsAs, Holds;
    Recorded(q.keys, q.machine, id);
    SeenIs(q.machine, id);
    if id !in q.keys.tasks { return Err(TaskNotFound); }
    var record := q.keys.tasks[id];
    var msg := record.msg.(state := record.state, attemptId := "");
    if msg.state == Active {
      if record.attempt.None? || record.attempt.value == "" { return Err(AttemptMissing); }
      msg := msg.(attemptId := record.attempt.value);
    }
    return Ok(msg);
  }

  lemma Recorded(k: Keys, m: Machine, id: string)
    requires Represents(k, m)
    ensures WellFormed(m) && (id in k.tasks <==> id in m.tasks)
    ensures id in k.tasks ==>
      var r, t := k.tasks[id], m.tasks[id];
      && r.msg == t.msg && r.state == t.state && r.attempt == t.attempt
      && Seen(m, id) == (if r.state != Active then Ok(r.msg.(state := r.state, attemptId := ""))
                         else if r.attempt.None? || r.attempt.value == "" then Err(AttemptMissing)
                         else Ok(r.msg.(state := r.state, attemptId := r.attempt.value)))
  {
    hide Ids;
    Located(k, m, id);
    Sound(k, m);
    hide Represents, WellFormed;
  }

  lemma SeenIs(m: Machine, id: string)
    requires WellFormed(m)
    ensures Seen(m, id) == Err(TaskNotFound) <==> id !in m.tasks
    ensures Seen(m, id) == Err(AttemptMissing) <==> Holds(m, id, "")
    ensures Seen(m, id) != Err(InvalidTransition)
    ensures Seen(m, id).Ok? ==> ReadsAs(Seen(m, id).value, m.tasks[id])
  {
    assert id in m.tasks ==> GoodTask(m.tasks[id], m.sequence);
  }

  /** A message read from a record, field by field. */
  ghost predicate ReadsAs(msg: Message, t: Task) {
    && msg.state == t.state && msg.attemptId == (if t.state == Active && t.attempt.Some? then t.attempt.value else "")
    && Protocol.SameTask(msg, t.msg) && SameHistory(msg, t.msg)
  }

  /** Retry count, last failure, completion and run time. */
  predicate SameHistory(a: Message, b: Message) {
    && a.retryCount == b.retryCount && a.lastError == b.lastError && a.lastFailedAt == b.lastFailedAt
    && a.completedAt == b.completedAt && a.runAt == b.runAt
  }

  /** Once an acknowledgement has succeeded, every later reader finds the task completed, with the message that
      was acknowledged, however the run goes on. */
  lemma AckedReadsCompleted(m: Machine, msg: Message, attempt: string, later: seq<Op>)
    requires WellFormed(m) && Holds(m, msg.id, attempt)
    ensures
      var m' := Run(Apply(m, Op.Ack(msg, attempt)), later);
      && Seen(m', msg.id).Ok? && Seen(m', msg.id).value.state == Completed && Seen(m', msg.id).value.attemptId == ""
      && Protocol.SameTask(Seen(m', msg.id).value, msg) && SameHistory(Seen(m', msg.id).value, msg)
  {
    hide Apply, WellFormed, Run;
    QueueLaws.OutcomeExact(m, msg, 0, attempt);
    CompletedIsFinal(Apply(m, Op.Ack(msg, attempt)), later, msg.id);
  }

  method ExpiredIds(q: Queue, now: int, limit: int) returns (ids: seq<string>)
    requires q.Valid()
    ensures ids == DueIds(q.machine, Active, now, OrDefault(limit))
  {
    LeasesAre(q.keys, q.machine);
    hide Represents, Index, Redis.RangeByScore;
    var due := Redis.RangeByScore(q.keys.lease, now);
    var n := OrDefault(limit);
    ids := if |due| <= n then due else due[..n];
  }

  lemma LeasesAre(k: Keys, m: Machine)
    requires Represents(k, m)
    ensures k.lease == Index(m, Active)
  {
  }

  // ---- a dispatcher ----

  /** The copy a dispatcher gets: nothing if no task is pending; otherwise the head of the queue, which it then holds,
      with the stored message in all but state and attempt. */
  method Claim(q: Queue, attempt: string, expires: int) returns (r: Option<Message>)
    requires q.Valid()
    modifies q
    ensures q.Valid() && q.machine == Apply(old(q.machine), Op.Claim(attempt, expires))
    ensures r.None? <==> Ids(old(q.machine), Pending) == {}
    ensures r.None? ==> q.keys == old(q.keys)
    ensures r.Some? ==>
      && Next(old(q.machine)).Some? && Next(old(q.machine)).value in old(q.machine).tasks
      && var stored := old(q.machine).tasks[Next(old(q.machine)).value].msg;
         && r.value.state == Active && r.value.attemptId == attempt
         && Protocol.SameTask(r.value, stored) && SameHistory(r.value, stored)
         && r.value == Protocol.Claimed(stored, attempt)
  {
    hide Represents, WellFormed, Apply, Next, Ids;
    Standing(q);
    HeadOf(q.machine, attempt, expires);
    var claimed := q.Claim(attempt, expires);
    if claimed.None? { return None; }
    var msg := claimed.value;
    msg := msg.(state := Active, attemptId := attempt);
    return Some(msg);
  }

  lemma HeadOf(m: Machine, attempt: string, expires: int)
    requires WellFormed(m)
    ensures Next(m).None? <==> Ids(m, Pending) == {}
    ensures Next(m).Some? ==> Next(m).value in m.tasks
  {
    hide Apply, WellFormed;
    ClaimApplies(m, attempt, expires);
    QueueLaws.ClaimExact(m, attempt, expires);
  }

  // ---- a worker ----

  datatype Outcome = Success | Failure(reason: string, permanent: bool)

  /** Where a held task is after its attempt ended with this outcome at this time. */
  ghost predicate Ended(t: Task, msg: Message, outcome: Outcome, now: int) {
    && t.state == (if outcome.Success? then Completed
                   else if outcome.permanent || msg.retryCount >= msg.maxRetry then Archived else Retry)
    && t.msg.state == t.state && t.msg.attemptId == "" && t.attempt == None
    && Protocol.SameTask(t.msg, msg) && t.msg.runAt == msg.runAt
    && t.msg.retryCount == msg.retryCount + One(t.state == Retry)
    && t.msg.lastError == (if outcome.Failure? then outcome.reason else msg.lastError)
    && t.msg.lastFailedAt == (if t.state == Retry then now else msg.lastFailedAt)
    && t.msg.completedAt == (if t.state == Completed then now else msg.completedAt)
  }

  /** The end of `process`: acknowledge, archive or retry. A worker whose attempt is over changes nothing;
      one that still holds the task ends it as the outcome says, and touches no other task. */
  method Process(q: Queue, msg: Message, outcome: Outcome, now: int, at: int) returns (ok: bool)
    requires q.Valid()
    modifies q
    ensures q.Valid() && ok == Holds(old(q.machine), msg.id, msg.attemptId)
    ensures !ok ==> q.keys == old(q.keys) && q.machine == old(q.machine)
    ensures ok ==> msg.id in q.machine.tasks && Ended(q.machine.tasks[msg.id], msg, outcome, now)
    ensures ok ==> q.machine == With(old(q.machine), msg.id, q.machine.tasks[msg.id])
    ensures ok ==>
      q.machine.tasks[msg.id].due ==
      (if outcome.Success? then 0 else if q.machine.tasks[msg.id].state == Archived then now else at)
    ensures q.machine == Apply(old(q.machine), EndCall(msg, outcome, now, at))
  {
    hide *;
    Standing(q);
    EndApplies(q.machine, msg, outcome, now, at);
    EndCallIs(msg, outcome, now, at);
    match outcome {
      case Success =>
        ok := q.Ack(Protocol.Done(msg, now), msg.attemptId);
      case Failure(reason, permanent) =>
        if permanent || msg.retryCount >= msg.maxRetry {
          ok := q.Archive(Protocol.Dead(msg, reason), now, msg.attemptId);
        } else {
          var failed := msg.(retryCount := msg.retryCount + 1);
          ok := q.ScheduleRetry(Protocol.Failed(failed, now, reason), at, msg.attemptId);
        }
    }
  }

  /** The step of Protocol.dfy that a worker takes. */
  ghost function EndCall(msg: Message, outcome: Outcome, now: int, at: int): (op: Op)
    ensures op.Ack? || op.Archive? || op.ScheduleRetry?
  {
    match outcome
    case Success => Op.Ack(Protocol.Done(msg, now), msg.attemptId)
    case Failure(reason, permanent) => Protocol.FailureCall(msg, permanent, now, at, reason)
  }

  lemma EndCallIs(msg: Message, outcome: Outcome, now: int, at: int)
    ensures match outcome
      case Success => EndCall(msg, outcome, now, at) == Op.Ack(Protocol.Done(msg, now), msg.attemptId)
      case Failure(reason, permanent) =>
        EndCall(msg, outcome, now, at) ==
        if permanent || msg.retryCount >= msg.maxRetry then Op.Archive(Protocol.Dead(msg, reason), now, msg.attemptId)
        else Op.ScheduleRetry(Protocol.Failed(msg.(retryCount := msg.retryCount + 1), now, reason), at, msg.attemptId)
    ensures Protocol.Done(msg, now).id == msg.id
    ensures forall reason :: Protocol.Dead(msg, reason).id == msg.id
    ensures forall reason, failed: Message :: Protocol.Failed(failed, now, reason).id == failed.id
  {
  }

  lemma EndApplies(m: Machine, msg: Message, outcome: Outcome, now: int, at: int)
    requires WellFormed(m)
    ensures
      var m' := Apply(m, EndCall(msg, outcome, now, at));
      if Holds(m, msg.id, msg.attemptId) then
        && msg.id in m'.tasks && Ended(m'.tasks[msg.id], msg, outcome, now)
        && m' == With(m, msg.id, m'.tasks[msg.id])
        && m'.tasks[msg.id].due ==
           (if outcome.Success? then 0 else if m'.tasks[msg.id].state == Archived then now else at)
      else m' == m
  {
    PutApplies(m, EndCall(msg, outcome, now, at));
    hide Apply, Succeeds, WellFormed;
  }

  lemma Standing(q: Queue)
    requires q.Valid()
    ensures WellFormed(q.machine)
  {
  }

  // ---- a replay ----

  /** A dead letter put back: the same task at its old place, with its retry history cleared and its run time now. */
  ghost predicate Restored(t: Task, t': Task, now: int) {
    && QueueLaws.WaitsAt(t', t.rank, t.seqno) && Protocol.SameTask(t'.msg, t.msg)
    && t'.msg.state == Pending && t'.msg.attemptId == ""
    && t'.msg.retryCount == 0 && t'.msg.lastError == "" && t'.msg.lastFailedAt == 0
    && t'.msg.completedAt == 0 && t'.msg.runAt == now
  }

  lemma ArchivedIsSeen(m: Machine, id: string)
    ensures IsIn(m, id, Archived) <==> id in Ids(m, Archived)
    ensures IsIn(m, id, Archived) <==> Seen(m, id).Ok? && Seen(m, id).value.state == Archived
  {
  }

  lemma RestoreApplies(m: Machine, id: string, now: int)
    requires IsIn(m, id, Archived)
    ensures Seen(m, id).Ok?
    ensures
      var read := Seen(m, id).value;
      var blank := read.(state := Pending, retryCount := 0, lastError := "", lastFailedAt := 0, completedAt := 0);
      var msg := blank.(runAt := now);
      var m' := Apply(m, Op.Replay(id, msg));
      && id in m.tasks && id in m'.tasks && Restored(m.tasks[id], m'.tasks[id], now)
      && QueueLaws.OthersAsBefore(m, m', id) && m' == ProtocolTheorems.AtomicReplay(m, id, now)
  {
    var read := Seen(m, id).value;
    var blank := read.(state := Pending, retryCount := 0, lastError := "", lastFailedAt := 0, completedAt := 0);
    var msg := blank.(runAt := now);
    Protocol.ReplayApplies(m, id, msg);
    hide Apply;
  }

  /** ReplayDeadLetter with nobody in between: it succeeds exactly on dead letters, and then the task is
      pending at its old place with a full retry budget; otherwise nothing changes. */
  method ReplayDeadLetter(q: Queue, id: string, now: int) returns (r: Reply<()>)
    requires q.Valid()
    modifies q
    ensures q.Valid() && (r.Ok? <==> IsIn(old(q.machine), id, Archived))
    ensures r.Err? ==> q.keys == old(q.keys) && q.machine == old(q.machine)
    ensures r == Err(TaskNotFound) <==> id !in old(q.machine).tasks
    ensures r == Err(AttemptMissing) <==> Holds(old(q.machine), id, "")
    ensures r.Ok? ==> id in q.machine.tasks && Restored(old(q.machine).tasks[id], q.machine.tasks[id], now)
    ensures r.Ok? ==> QueueLaws.OthersAsBefore(old(q.machine), q.machine, id)
    ensures r.Ok? ==> q.machine == ProtocolTheorems.AtomicReplay(old(q.machine), id, now)
  {
    hide *;
    ghost var m := q.machine;
    Standing(q);
    SeenIs(m, id);
    ArchivedIsSeen(m, id);
    var found := Get(q, id);
    if found.Err? { return Err(found.error); }
    var msg := found.value;
    if msg.state != Archived { return Err(InvalidTransition); }
    RestoreApplies(m, id, now);
    msg := msg.(state := Pending, retryCount := 0, lastError := "", lastFailedAt := 0, completedAt := 0);
    msg := msg.(runAt := now);
    var ok := q.Replay(id, msg);
    return if ok then Ok(()) else Err(InvalidTransition);
  }
}
