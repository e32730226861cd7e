/** The store with the processes around it: clients, dispatchers, workers, recoverers and
    operators, each holding copies of messages that may have gone stale. */
module Protocol {
  import opened Values
  import opened TaskMachine
  import opened StoreRuns

  // ---- what the processes write ----

  function Claimed(msg: Message, attempt: string): Message {
    msg.(state := Active, attemptId := attempt)
  }

  function Done(msg: Message, now: int): Message {
    msg.(state := Completed, attemptId := "", completedAt := now)
  }

  function Failed(msg: Message, now: int, reason: string): Message {
    msg.(state := Retry, attemptId := "", lastError := reason, lastFailedAt := now)
  }

  function Dead(msg: Message, reason: string): Message {
    msg.(state := Archived, attemptId := "", lastError := reason)
  }

  /** What a replay writes: retry metadata cleared, run time now. */
  function Reset(msg: Message, now: int): Message {
    msg.(state := Pending, retryCount := 0, lastError := "", lastFailedAt := 0, completedAt := 0, runAt := now)
  }

  /** The part of a message no transition changes. */
  function Core(msg: Message): Message {
    Reset(msg, 0).(attemptId := "")
  }

  /** What a task is asked to do, field by field. */
  predicate SameTask(a: Message, b: Message) {
    && a.id == b.id && a.kind == b.kind && a.payload == b.payload && a.queue == b.queue
    && a.priority == b.priority && a.maxRetry == b.maxRetry
    && a.timeout == b.timeout && a.deadline == b.deadline && a.createdAt == b.createdAt
  }

  /** Two messages have the same core exactly when they ask for the same task. */
  lemma CoreIff(a: Message, b: Message)
    ensures Core(a) == Core(b) <==> SameTask(a, b)
  {
    var x, y := Core(a), Core(b);
    assert SameTask(a, x) && SameTask(b, y);
    assert x.retryCount == y.retryCount && x.runAt == y.runAt && x.state == y.state && x.attemptId == y.attemptId;
    assert x.lastError == y.lastError && x.lastFailedAt == y.lastFailedAt && x.completedAt == y.completedAt;
  }

  /** A failed or expired attempt: retry while the budget lasts, otherwise archive. */
  function FailureCall(msg: Message, permanent: bool, now: int, at: int, reason: string): Op {
    if permanent || msg.retryCount >= msg.maxRetry then Op.Archive(Dead(msg, reason), now, msg.attemptId)
    else Op.ScheduleRetry(Failed(msg.(retryCount := msg.retryCount + 1), now, reason), at, msg.attemptId)
  }

  // ---- the system ----

  /** An epoch of a task starts with its enqueue and with each replay. */
  datatype Origin = Origin(id: string, epoch: nat)

  datatype System = System(
    store: Machine,
    epoch: map<string, nat>,
    limits: map<Origin, int>,           // MaxRetry of the task, per epoch
    claims: map<string, Origin>,        // where each claimed attempt belongs
    requeued: set<string>,              // attempts given back unstarted
    started: map<string, nat>,          // attempts whose handler was started, and the epoch it was started in
    waiting: map<string, Message>,      // claimed copies a dispatcher has not handed over
    running: map<string, Message>,      // copies a worker is processing
    recovering: multiset<Message>,      // copies that recovery ticks have read and not yet used
    replaying: multiset<(Message, nat)>, // copies that replays have read and not yet written, with the sequence
                                        // number of the record
    crossed: set<string>)               // ids whose record was replayed from a copy of an earlier, deleted record

  const START := System(EMPTY, map[], map[], map[], {}, map[], map[], map[], multiset{}, multiset{}, {})

  datatype Step =
    | Enqueue(msg: Message, rank: int)
    | Schedule(msg: Message, rank: int, at: int)
    | MoveReady(source: Source, now: int, limit: nat)
    | Claim(attempt: string, expires: int)
    | StartHandler(attempt: string)
    | GiveBack(attempt: string)
    | Crash(lost: set<string>, recoveries: multiset<Message>, replays: multiset<(Message, nat)>)
    | Succeed(attempt: string, now: int)
    | Fail(attempt: string, permanent: bool, now: int, at: int, reason: string)
    | ReadExpired(id: string)
    | Recover(msg: Message, now: int, at: int)
    | Heartbeat(held: seq<(string, string)>, expires: int)
    | ReadDeadLetter(id: string)
    | WriteReplay(msg: Message, seqno: nat, now: int)
    | Delete(id: string)
    | Cleanup(olderThan: int, limit: nat)

  ghost predicate Enabled(s: System, step: Step) {
    match step
    case Enqueue(msg, _) => msg.retryCount == 0 <= msg.maxRetry
    case Schedule(msg, _, _) => msg.retryCount == 0 <= msg.maxRetry
    case Claim(attempt, _) => attempt !in s.claims
    case StartHandler(attempt) => attempt in s.waiting
    case GiveBack(attempt) => attempt in s.waiting
    case Succeed(attempt, _) => attempt in s.running
    case Fail(attempt, _, _, _, _) => attempt in s.running
    case Recover(msg, _, _) => msg in s.recovering
    case WriteReplay(msg, seqno, _) => (msg, seqno) in s.replaying
    case _ => true
  }

  /** The script a step runs, if it runs one. */
  ghost function Call(s: System, step: Step): Option<Op>
    requires Enabled(s, step)
  {
    match step
    case Enqueue(msg, rank) => Some(Op.Enqueue(msg, rank))
    case Schedule(msg, rank, at) => Some(Op.Schedule(msg, rank, at))
    case MoveReady(source, now, limit) => Some(Op.MoveReady(source, now, limit))
    case Claim(attempt, expires) => Some(Op.Claim(attempt, expires))
    case GiveBack(attempt) => Some(Op.Requeue(s.waiting[attempt].id, attempt))
    case Succeed(attempt, now) => Some(Op.Ack(Done(s.running[attempt], now), attempt))
    case Fail(attempt, permanent, now, at, reason) => Some(FailureCall(s.running[attempt], permanent, now, at, reason))
    case Recover(msg, now, at) => Some(FailureCall(msg, false, now, at, "task lease expired"))
    case Heartbeat(held, expires) => Some(Op.ExtendLease(held, expires))
    case WriteReplay(msg, _, now) => Some(Op.Replay(msg.id, Reset(msg, now)))
    case Delete(id) => Some(Op.Delete(id))
    case Cleanup(olderThan, limit) => Some(Op.Cleanup(olderThan, limit))
    case _ => None
  }

  function EpochOf(s: System, id: string): nat {
    if id in s.epoch then s.epoch[id] else 0
  }

  function NewEpoch(s: System, id: string, maxRetry: int): System {
    var e := EpochOf(s, id) + 1;
    s.(epoch := s.epoch[id := e], limits := s.limits[Origin(id, e) := maxRetry])
  }

  /** The copy Get returns of an active task. */
  function ActiveCopy(m: Machine, id: string): set<Message> {
    if IsIn(m, id, Active) && m.tasks[id].attempt.Some?
    then {Claimed(m.tasks[id].msg, m.tasks[id].attempt.value)}
    else {}
  }

  /** The copy GetDeadLetter returns. */
  function DeadCopy(m: Machine, id: string): set<(Message, nat)> {
    if IsIn(m, id, Archived) then {(m.tasks[id].msg.(state := Archived, attemptId := ""), m.tasks[id].seqno)} else {}
  }

  /** The copies held by recovery ticks under way after a step: one more when a tick has read a task, one less when
      it has ended the attempt, whether or not the script succeeded, and fewer after a crash. */
  function RecoveriesAfter(s: System, step: Step): multiset<Message> {
    match step
    case ReadExpired(id) => s.recovering + multiset(ActiveCopy(s.store, id))
    case Recover(msg, _, _) => s.recovering - multiset{msg}
    case Crash(_, recoveries, _) => s.recovering - recoveries
    case _ => s.recovering
  }

  /** The copies held by replays under way after a step, likewise. */
  function ReplaysAfter(s: System, step: Step): multiset<(Message, nat)> {
    match step
    case ReadDeadLetter(id) => s.replaying + multiset(DeadCopy(s.store, id))
    case WriteReplay(msg, seqno, _) => s.replaying - multiset{(msg, seqno)}
    case Crash(_, _, replays) => s.replaying - replays
    case _ => s.replaying
  }

  /** What the processes keep track of after a step whose script left `store` and succeeded or not. */
  ghost function Settle(s: System, step: Step, store: Machine, ok: bool): (s': System)
    requires Enabled(s, step)
    ensures s'.store == store && s'.recovering == RecoveriesAfter(s, step) && s'.replaying == ReplaysAfter(s, step)
  {
    var s' := s.(store := store, recovering := RecoveriesAfter(s, step), replaying := ReplaysAfter(s, step));
    match step
    case Enqueue(msg, _) => if ok then NewEpoch(s', msg.id, msg.maxRetry) else s'
    case Schedule(msg, _, _) => if ok then NewEpoch(s', msg.id, msg.maxRetry) else s'
    case Claim(attempt, _) =>
      if !ok || Next(s.store).None? || Next(s.store).value !in s.store.tasks then s' else
      var id := Next(s.store).value;
      s'.(claims := s.claims[attempt := Origin(id, EpochOf(s, id))],
          waiting := s.waiting[attempt := Claimed(s.store.tasks[id].msg, attempt)])
    case StartHandler(attempt) =>
      var epoch := if attempt in s.claims then EpochOf(s, s.claims[attempt].id) else 0;
      s'.(waiting := s.waiting - {attempt}, running := s.running[attempt := s.waiting[attempt]],
          started := s.started[attempt := epoch])
    case GiveBack(attempt) =>
      s'.(waiting := s.waiting - {attempt}, requeued := if ok then s.requeued + {attempt} else s.requeued)
    case Crash(lost, _, _) => s'.(waiting := s.waiting - lost, running := s.running - lost)
    case Succeed(attempt, _) => s'.(running := s.running - {attempt})
    case Fail(attempt, _, _, _, _) => s'.(running := s.running - {attempt})
    case WriteReplay(msg, seqno, _) =>
      if !ok then s' else
      var same := msg.id in s.store.tasks && s.store.tasks[msg.id].seqno == seqno;
      NewEpoch(s', msg.id, msg.maxRetry).(crossed := if same then s.crossed else s.crossed + {msg.id})
    case _ => s'
  }

  ghost function After(s: System, step: Step): System
    requires Enabled(s, step)
  {
    match Call(s, step)
    case Some(op) => Settle(s, step, Apply(s.store, op), Succeeds(s.store, op))
    case None => Settle(s, step, s.store, true)
  }

  ghost predicate Legal(s: System, steps: seq<Step>)
    decreases |steps|
  {
    steps == [] || (Enabled(s, steps[0]) && Legal(After(s, steps[0]), steps[1..]))
  }

  ghost function Runs(s: System, steps: seq<Step>): System
    requires Legal(s, steps)
    decreases |steps|
  {
    if steps == [] then s else Runs(After(s, steps[0]), steps[1..])
  }

  // ---- the invariant ----

  function Retries(t: Task): int {
    t.msg.retryCount
  }

  /** Attempts of the current epoch that were not given back: one per counted retry, plus the
      one that is running or ended the epoch. */
  function Spent(s: State): nat {
    One(s in {Active, Archived, Completed})
  }

  ghost function Tries(s: System, o: Origin): set<string> {
    set a | a in s.claims && s.claims[a] == o && a !in s.requeued
  }

  ghost predicate TasksOk(s: System) {
    forall id | id in s.store.tasks ::
      var t := s.store.tasks[id];
      && t.msg.id == id && 0 <= Retries(t) <= t.msg.maxRetry
      && id in s.epoch && Origin(id, s.epoch[id]) in s.limits && s.limits[Origin(id, s.epoch[id])] == t.msg.maxRetry
  }

  ghost predicate ClaimsOk(s: System) {
    && (forall a | a in s.claims :: s.claims[a] in s.limits)
    && (forall o | o in s.limits :: o.id in s.epoch && o.epoch <= s.epoch[o.id] && 0 <= s.limits[o])
    && (forall id, a | Holds(s.store, id, a) ::
          a in s.claims && id in s.epoch && s.claims[a] == Origin(id, s.epoch[id]) && a !in s.requeued)
  }

  /** A copy taken with attempt a matches the record for as long as the record holds a. */
  ghost predicate CopyOk(s: System, a: string, c: Message) {
    && a in s.claims && c.id == s.claims[a].id && c.attemptId == a
    && (Holds(s.store, c.id, a) ==> c == Claimed(s.store.tasks[c.id].msg, a))
  }

  ghost predicate CopiesOk(s: System) {
    && (forall a | a in s.waiting :: CopyOk(s, a, s.waiting[a]) && a !in s.started && a !in s.requeued)
    && (forall a | a in s.running :: CopyOk(s, a, s.running[a]) && a in s.started)
    && (forall c | c in s.recovering :: CopyOk(s, c.attemptId, c))
  }

  ghost predicate StartsOk(s: System) {
    && (forall a | a in s.started :: a in s.claims && a !in s.requeued)
    && (forall a | a in s.started :: s.claims[a].epoch <= s.started[a])
    && (forall a | a in s.requeued :: a in s.claims)
  }

  ghost predicate TriesOk(s: System) {
    && (forall id | id in s.store.tasks && id in s.epoch ::
          |Tries(s, Origin(id, s.epoch[id]))| == Retries(s.store.tasks[id]) + Spent(s.store.tasks[id].state))
    && (forall o | o in s.limits :: |Tries(s, o)| <= s.limits[o] + 1)
  }

  ghost predicate ReplaysOk(s: System) {
    forall r | r in s.replaying ::
      && r.0.attemptId == "" && r.0.state == Archived && r.1 <= s.store.sequence && 0 <= r.0.maxRetry
      && (r.0.id !in s.crossed && r.0.id in s.store.tasks && s.store.tasks[r.0.id].seqno == r.1 ==>
            Core(s.store.tasks[r.0.id].msg) == Core(r.0))
  }

  ghost predicate Inv(s: System) {
    WellFormed(s.store) && TasksOk(s) && ClaimsOk(s) && CopiesOk(s) && StartsOk(s) && TriesOk(s) && ReplaysOk(s)
  }

  // ---- steps that only move tasks along ----

  /** A task one step later in its epoch. */
  ghost predicate Follows(t: Task, t': Task) {
    && t'.seqno == t.seqno && Core(t'.msg) == Core(t.msg)
    && Retries(t') + Spent(t'.state) == Retries(t) + Spent(t.state)
    && 0 <= Retries(t') <= t'.msg.maxRetry
    && (t'.attempt.Some? ==> t'.attempt == t.attempt && t'.state == t.state && t'.msg == t.msg)
  }

  ghost predicate Succession(m: Machine, m': Machine) {
    && m.sequence <= m'.sequence
    && forall id | id in m'.tasks :: id in m.tasks && Follows(m.tasks[id], m'.tasks[id])
  }

  ghost predicate SameBooks(s: System, s': System) {
    && s'.epoch == s.epoch && s'.limits == s.limits && s'.claims == s.claims && s'.requeued == s.requeued
    && s'.started == s.started && s'.crossed == s.crossed
  }

  ghost predicate FewerCopies(s: System, s': System) {
    && (forall a | a in s'.waiting :: a in s.waiting && s'.waiting[a] == s.waiting[a])
    && (forall a | a in s'.running :: a in s.running && s'.running[a] == s.running[a])
    && s'.recovering <= s.recovering && s'.replaying <= s.replaying
  }

  lemma HoldsBefore(m: Machine, m': Machine, id: string, a: string)
    requires Succession(m, m') && Holds(m', id, a)
    ensures Holds(m, id, a) && m'.tasks[id].msg == m.tasks[id].msg
  {
  }

  lemma QuietTasks(s: System, s': System)
    requires TasksOk(s) && Succession(s.store, s'.store) && SameBooks(s, s')
    ensures TasksOk(s')
  {
  }

  lemma QuietClaims(s: System, s': System)
    requires ClaimsOk(s) && Succession(s.store, s'.store) && SameBooks(s, s')
    ensures ClaimsOk(s')
  {
    forall id, a | Holds(s'.store, id, a)
      ensures Holds(s.store, id, a)
    {
      HoldsBefore(s.store, s'.store, id, a);
    }
  }

  lemma QuietCopy(s: System, s': System, a: string, c: Message)
    requires CopyOk(s, a, c) && Succession(s.store, s'.store) && SameBooks(s, s')
    ensures CopyOk(s', a, c)
  {
    if Holds(s'.store, c.id, a) {
      HoldsBefore(s.store, s'.store, c.id, a);
    }
  }

  lemma QuietCopies(s: System, s': System)
    requires CopiesOk(s) && Succession(s.store, s'.store) && SameBooks(s, s') && FewerCopies(s, s')
    ensures CopiesOk(s')
  {
    hide CopyOk, Succession;
    forall a | a in s'.waiting
      ensures CopyOk(s', a, s'.waiting[a])
    {
      QuietCopy(s, s', a, s.waiting[a]);
    }
    forall a | a in s'.running
      ensures CopyOk(s', a, s'.running[a])
    {
      QuietCopy(s, s', a, s.running[a]);
    }
    forall c | c in s'.recovering
      ensures CopyOk(s', c.attemptId, c)
    {
      QuietCopy(s, s', c.attemptId, c);
    }
  }

  lemma SameTries(s: System, s': System, o: Origin)
    requires s'.claims == s.claims && s'.requeued == s.requeued
    ensures Tries(s', o) == Tries(s, o)
  {
  }

  lemma QuietTries(s: System, s': System)
    requires TriesOk(s) && Succession(s.store, s'.store) && SameBooks(s, s')
    ensures TriesOk(s')
  {
    forall o
      ensures Tries(s', o) == Tries(s, o)
    {
      SameTries(s, s', o);
    }
    hide Tries;
  }

  lemma QuietReplays(s: System, s': System)
    requires ReplaysOk(s) && Succession(s.store, s'.store) && SameBooks(s, s') && FewerCopies(s, s')
    ensures ReplaysOk(s')
  {
    hide Core;
  }

  lemma QuietKeeps(s: System, s': System)
    requires Inv(s) && WellFormed(s'.store) && Succession(s.store, s'.store) && SameBooks(s, s') && FewerCopies(s, s')
    ensures Inv(s')
  {
    hide WellFormed, TasksOk, ClaimsOk, CopiesOk, TriesOk, ReplaysOk, Succession, FewerCopies;
    QuietTasks(s, s');
    QuietClaims(s, s');
    QuietCopies(s, s');
    QuietTries(s, s');
    QuietReplays(s, s');
  }

  lemma PassiveSuccession(s: System, op: Op)
    requires WellFormed(s.store) && TasksOk(s)
    requires op.MoveReady? || op.ExtendLease? || op.Delete? || op.Cleanup?
    ensures Succession(s.store, Apply(s.store, op))
  {
    var m' := Apply(s.store, op);
    hide Apply;
    forall id | id in m'.tasks
      ensures id in s.store.tasks && Follows(s.store.tasks[id], m'.tasks[id])
    {
      EveryCallIsAnEdge(s.store, op, id);
    }
    EveryCallIsAnEdge(s.store, op, "");
  }

  /** The calls a worker or recoverer makes with its copy. */
  ghost predicate IsOutcome(c: Message, op: Op) {
    || (op.Ack? && op == Op.Ack(Done(c, op.msg.completedAt), c.attemptId))
    || (op.Archive? && op == Op.Archive(Dead(c, op.msg.lastError), op.at, c.attemptId))
    || (op.ScheduleRetry? && c.retryCount < c.maxRetry &&
        var failed := Failed(c.(retryCount := c.retryCount + 1), op.msg.lastFailedAt, op.msg.lastError);
        op == Op.ScheduleRetry(failed, op.at, c.attemptId))
  }

  /** Whatever copy a worker or recoverer holds, its outcome moves the task along by one try. */
  lemma OutcomeSuccession(s: System, c: Message, op: Op)
    requires WellFormed(s.store) && TasksOk(s) && CopyOk(s, c.attemptId, c) && IsOutcome(c, op)
    ensures Succession(s.store, Apply(s.store, op))
  {
    var m' := Apply(s.store, op);
    hide Apply, Succeeds;
    forall id | id in m'.tasks
      ensures id in s.store.tasks && Follows(s.store.tasks[id], m'.tasks[id])
    {
      EveryCallIsAnEdge(s.store, op, id);
    }
    EveryCallIsAnEdge(s.store, op, "");
  }

  // ---- claiming ----

  /** The system after a claim of task id. */
  ghost predicate ClaimedOne(s: System, s': System, id: string, a: string, expires: int) {
    && id in s.store.tasks && s.store.tasks[id].state == Pending && a !in s.claims
    && s' == s.(
      store := With(s.store, id, s.store.tasks[id].(state := Active, attempt := Some(a), due := expires)),
      claims := s.claims[a := Origin(id, EpochOf(s, id))],
      waiting := s.waiting[a := Claimed(s.store.tasks[id].msg, a)])
  }

  lemma ClaimTasks(s: System, s': System, id: string, a: string, expires: int)
    requires TasksOk(s) && ClaimsOk(s) && StartsOk(s) && ClaimedOne(s, s', id, a, expires)
    ensures TasksOk(s') && ClaimsOk(s')
  {
    hide Core;
    forall x, b | Holds(s'.store, x, b)
      ensures Holds(s.store, x, b) || (x == id && b == a)
    {
    }
  }

  lemma ClaimCopy(s: System, s': System, id: string, a: string, expires: int, b: string, c: Message)
    requires ClaimedOne(s, s', id, a, expires) && CopyOk(s, b, c)
    ensures CopyOk(s', b, c)
  {
  }

  lemma ClaimCopies(s: System, s': System, id: string, a: string, expires: int)
    requires TasksOk(s) && CopiesOk(s) && StartsOk(s) && ClaimedOne(s, s', id, a, expires)
    ensures CopiesOk(s') && StartsOk(s')
  {
    assert CopyOk(s', a, s'.waiting[a]);
    hide CopyOk;
    forall b | b in s'.waiting
      ensures CopyOk(s', b, s'.waiting[b]) && b !in s'.started && b !in s'.requeued
    {
      if b != a {
        ClaimCopy(s, s', id, a, expires, b, s.waiting[b]);
      }
    }
    forall b | b in s'.running
      ensures CopyOk(s', b, s'.running[b]) && b in s'.started
    {
      ClaimCopy(s, s', id, a, expires, b, s.running[b]);
    }
    forall c | c in s'.recovering
      ensures CopyOk(s', c.attemptId, c)
    {
      ClaimCopy(s, s', id, a, expires, c.attemptId, c);
    }
  }

  lemma TriesPlus(s: System, s': System, a: string, here: Origin, o: Origin)
    requires a !in s.claims && a !in s.requeued
    requires s'.claims == s.claims[a := here] && s'.requeued == s.requeued
    ensures |Tries(s', o)| == |Tries(s, o)| + One(o == here)
  {
    assert Tries(s', o) == if o == here then Tries(s, o) + {a} else Tries(s, o);
  }

  lemma TriesMinus(s: System, s': System, a: string, here: Origin, o: Origin)
    requires a in Tries(s, here)
    requires s'.claims == s.claims && s'.requeued == s.requeued + {a}
    ensures |Tries(s', o)| == |Tries(s, o)| - One(o == here)
  {
    assert Tries(s', o) == if o == here then Tries(s, o) - {a} else Tries(s, o);
  }

  lemma ClaimTries(s: System, s': System, id: string, a: string, expires: int)
    requires TasksOk(s) && StartsOk(s) && TriesOk(s) && ClaimedOne(s, s', id, a, expires)
    ensures TriesOk(s')
  {
    var here := Origin(id, EpochOf(s, id));
    hide Tries;
    forall o
      ensures |Tries(s', o)| == |Tries(s, o)| + One(o == here)
    {
      TriesPlus(s, s', a, here, o);
    }
    assert s.limits[here] == s.store.tasks[id].msg.maxRetry;
    assert |Tries(s, here)| == Retries(s.store.tasks[id]);
  }

  lemma ClaimReplays(s: System, s': System, id: string, a: string, expires: int)
    requires ReplaysOk(s) && ClaimedOne(s, s', id, a, expires)
    ensures ReplaysOk(s')
  {
    hide Core;
  }

  lemma ClaimKeeps(s: System, s': System, id: string, a: string, expires: int)
    requires Inv(s) && WellFormed(s'.store) && ClaimedOne(s, s', id, a, expires)
    ensures Inv(s')
  {
    hide WellFormed, TasksOk, ClaimsOk, CopiesOk, StartsOk, TriesOk, ReplaysOk, ClaimedOne;
    ClaimTasks(s, s', id, a, expires);
    ClaimCopies(s, s', id, a, expires);
    ClaimTries(s, s', id, a, expires);
    ClaimReplays(s, s', id, a, expires);
  }

  // ---- giving back ----

  /** The system after a claimed, unstarted task was requeued. */
  ghost predicate GaveBack(s: System, s': System, id: string, a: string) {
    && Holds(s.store, id, a) && a in s.waiting
    && s' == s.(
      store := With(s.store, id, Put(s.store.tasks[id], s.store.tasks[id].msg, Pending, 0)),
      waiting := s.waiting - {a}, requeued := s.requeued + {a})
  }

  lemma GiveBackHolds(s: System, s': System, id: string, a: string, x: string, b: string)
    requires ClaimsOk(s) && GaveBack(s, s', id, a) && Holds(s'.store, x, b)
    ensures Holds(s.store, x, b) && x != id && b != a && s'.store.tasks[x] == s.store.tasks[x]
  {
    assert x != id && Holds(s.store, x, b) && Holds(s.store, id, a);
  }

  lemma GiveBackTasks(s: System, s': System, id: string, a: string)
    requires TasksOk(s) && ClaimsOk(s) && GaveBack(s, s', id, a)
    ensures TasksOk(s') && ClaimsOk(s')
  {
    forall x, b | Holds(s'.store, x, b)
      ensures Holds(s.store, x, b) && b != a
    {
      GiveBackHolds(s, s', id, a, x, b);
    }
  }

  lemma GiveBackCopy(s: System, s': System, id: string, a: string, b: string, c: Message)
    requires ClaimsOk(s) && GaveBack(s, s', id, a) && CopyOk(s, b, c)
    ensures CopyOk(s', b, c)
  {
    if Holds(s'.store, c.id, b) {
      GiveBackHolds(s, s', id, a, c.id, b);
    }
  }

  lemma GiveBackCopies(s: System, s': System, id: string, a: string)
    requires ClaimsOk(s) && CopiesOk(s) && StartsOk(s) && GaveBack(s, s', id, a)
    ensures CopiesOk(s') && StartsOk(s')
  {
    assert a in s.claims;
    hide CopyOk, ClaimsOk;
    forall b | b in s'.waiting
      ensures CopyOk(s', b, s'.waiting[b])
    {
      GiveBackCopy(s, s', id, a, b, s.waiting[b]);
    }
    forall b | b in s'.running
      ensures CopyOk(s', b, s'.running[b])
    {
      GiveBackCopy(s, s', id, a, b, s.running[b]);
    }
    forall c | c in s'.recovering
      ensures CopyOk(s', c.attemptId, c)
    {
      GiveBackCopy(s, s', id, a, c.attemptId, c);
    }
  }

  lemma GiveBackTries(s: System, s': System, id: string, a: string)
    requires ClaimsOk(s) && TriesOk(s) && GaveBack(s, s', id, a)
    ensures TriesOk(s')
  {
    var here := Origin(id, s.epoch[id]);
    assert a in Tries(s, here);
    hide Tries;
    forall o
      ensures |Tries(s', o)| == |Tries(s, o)| - One(o == here)
    {
      TriesMinus(s, s', a, here, o);
    }
  }

  lemma GiveBackReplays(s: System, s': System, id: string, a: string)
    requires ReplaysOk(s) && GaveBack(s, s', id, a)
    ensures ReplaysOk(s')
  {
    hide Core;
  }

  lemma GiveBackKeeps(s: System, s': System, id: string, a: string)
    requires Inv(s) && WellFormed(s'.store) && GaveBack(s, s', id, a)
    ensures Inv(s')
  {
    hide WellFormed, TasksOk, ClaimsOk, CopiesOk, StartsOk, TriesOk, ReplaysOk, GaveBack;
    GiveBackReplays(s, s', id, a);
    GiveBackTasks(s, s', id, a);
    GiveBackCopies(s, s', id, a);
    GiveBackTries(s, s', id, a);
  }

  // ---- opening an epoch: enqueue, schedule and replay ----

  ghost predicate OthersSame(m: Machine, m': Machine, id: string) {
    && m.sequence <= m'.sequence
    && (forall x | x != id :: x in m'.tasks <==> x in m.tasks)
    && (forall x | x != id && x in m.tasks :: m'.tasks[x] == m.tasks[x])
  }

  ghost predicate OpensTask(s: System, s': System, id: string) {
    && id in s'.store.tasks
    && var t := s'.store.tasks[id];
    && t.attempt.None? && t.state in {Pending, Scheduled} && Retries(t) == 0 && t.msg.id == id && 0 <= t.msg.maxRetry
    && (if id in s.store.tasks then
          s.store.tasks[id].attempt.None? && t.seqno == s.store.tasks[id].seqno &&
          (id in s'.crossed || Core(t.msg) == Core(s.store.tasks[id].msg))
        else t.seqno > s.store.sequence)
  }

  ghost predicate Opened(s: System, s': System, id: string) {
    && OthersSame(s.store, s'.store, id) && OpensTask(s, s', id)
    && s.crossed <= s'.crossed && s'.replaying <= s.replaying
    && var t := s.(store := s'.store, crossed := s'.crossed, replaying := s'.replaying);
       s' == NewEpoch(t, id, s'.store.tasks[id].msg.maxRetry)
  }

  lemma OpenHolds(s: System, s': System, id: string, x: string, a: string)
    requires Opened(s, s', id) && Holds(s'.store, x, a)
    ensures Holds(s.store, x, a) && x != id && s'.store.tasks[x] == s.store.tasks[x]
  {
    hide Core;
  }

  lemma OpenTasks(s: System, s': System, id: string)
    requires TasksOk(s) && Opened(s, s', id)
    ensures TasksOk(s')
  {
    hide Core, Holds;
  }

  lemma OpenClaims(s: System, s': System, id: string)
    requires ClaimsOk(s) && Opened(s, s', id)
    ensures ClaimsOk(s')
  {
    hide Core;
    forall x, a | Holds(s'.store, x, a)
      ensures Holds(s.store, x, a) && x != id
    {
      OpenHolds(s, s', id, x, a);
    }
    hide Holds;
  }

  lemma OpenCopy(s: System, s': System, id: string, a: string, c: Message)
    requires Opened(s, s', id) && CopyOk(s, a, c)
    ensures CopyOk(s', a, c)
  {
    hide Core;
    if Holds(s'.store, c.id, a) {
      OpenHolds(s, s', id, c.id, a);
    }
  }

  lemma OpenCopies(s: System, s': System, id: string)
    requires CopiesOk(s) && StartsOk(s) && Opened(s, s', id)
    ensures CopiesOk(s') && StartsOk(s')
  {
    hide CopyOk, OpensTask, OthersSame;
    forall a | a in s'.waiting
      ensures CopyOk(s', a, s'.waiting[a])
    {
      OpenCopy(s, s', id, a, s.waiting[a]);
    }
    forall a | a in s'.running
      ensures CopyOk(s', a, s'.running[a])
    {
      OpenCopy(s, s', id, a, s.running[a]);
    }
    forall c | c in s'.recovering
      ensures CopyOk(s', c.attemptId, c)
    {
      OpenCopy(s, s', id, c.attemptId, c);
    }
  }

  lemma OpenTries(s: System, s': System, id: string)
    requires TasksOk(s) && ClaimsOk(s) && TriesOk(s) && Opened(s, s', id)
    ensures TriesOk(s')
  {
    hide Core, Holds;
    var here := Origin(id, s'.epoch[id]);
    assert Tries(s', here) == {};
    forall o
      ensures Tries(s', o) == Tries(s, o)
    {
      SameTries(s, s', o);
    }
    hide Tries;
  }

  lemma OpenReplays(s: System, s': System, id: string)
    requires ReplaysOk(s) && Opened(s, s', id)
    ensures ReplaysOk(s')
  {
    hide Core;
  }

  lemma OpenKeeps(s: System, s': System, id: string)
    requires Inv(s) && WellFormed(s'.store) && Opened(s, s', id)
    ensures Inv(s')
  {
    hide WellFormed, TasksOk, ClaimsOk, CopiesOk, StartsOk, TriesOk, ReplaysOk, Opened;
    OpenTasks(s, s', id);
    OpenClaims(s, s', id);
    OpenCopies(s, s', id);
    OpenTries(s, s', id);
    OpenReplays(s, s', id);
  }

  // ---- every step keeps the invariant ----

  lemma CreateOpens(s: System, msg: Message, t: Task, s': System)
    requires CanCreate(s.store, msg.id) && msg.retryCount == 0 <= msg.maxRetry
    requires t.msg == msg && t.state in {Pending, Scheduled} && t.attempt.None? && t.seqno == s.store.sequence + 1
    requires s' == NewEpoch(s.(store := Create(s.store, msg.id, t)), msg.id, msg.maxRetry)
    ensures Opened(s, s', msg.id)
  {
  }

  lemma CreateStep(s: System, step: Step)
    requires Inv(s) && Enabled(s, step) && (step.Enqueue? || step.Schedule?)
    ensures Inv(After(s, step))
  {
    hide Apply, WellFormed, TasksOk, ClaimsOk, CopiesOk, StartsOk, TriesOk, ReplaysOk, Create;
    var op := Call(s, step).value;
    var s' := After(s, step);
    CreateApplies(s.store, op);
    if CanCreate(s.store, step.msg.id) {
      var t := if step.Enqueue? then Task(step.msg, Pending, step.rank, s.store.sequence + 1, None, 0)
               else Task(step.msg, Scheduled, step.rank, s.store.sequence + 1, None, step.at);
      CreateOpens(s, step.msg, t, s');
      hide Inv, Opened;
      OpenKeeps(s, s', step.msg.id);
    }
  }

  lemma PassiveStep(s: System, step: Step)
    requires Inv(s) && Enabled(s, step)
    requires step.MoveReady? || step.Heartbeat? || step.Delete? || step.Cleanup? || step.Crash?
    ensures Inv(After(s, step))
  {
    hide Apply, Succession, Succeeds, WellFormed, TasksOk, ClaimsOk, CopiesOk, StartsOk, TriesOk, ReplaysOk;
    if step.Crash? {
      StandingStill(s);
    } else {
      var op := Call(s, step).value;
      ApplyWellFormed(s.store, op);
      PassiveSuccession(s, op);
    }
    hide Inv;
    QuietKeeps(s, After(s, step));
  }

  lemma ClaimStep(s: System, step: Step)
    requires Inv(s) && Enabled(s, step) && step.Claim?
    ensures Inv(After(s, step))
  {
    var op := Call(s, step).value;
    ApplyWellFormed(s.store, op);
    if Succeeds(s.store, op) {
      hide Inv, WellFormed;
      ClaimKeeps(s, After(s, step), Next(s.store).value, step.attempt, step.expires);
    } else {
      assert After(s, step) == s;
    }
  }

  lemma StandingStill(s: System)
    requires TasksOk(s)
    ensures Succession(s.store, s.store)
  {
  }

  lemma GiveBackApplies(m: Machine, id: string, a: string)
    ensures Succeeds(m, Op.Requeue(id, a)) <==> Holds(m, id, a)
    ensures Holds(m, id, a) ==>
      Apply(m, Op.Requeue(id, a)) == With(m, id, Put(m.tasks[id], m.tasks[id].msg, Pending, 0))
    ensures !Holds(m, id, a) ==> Apply(m, Op.Requeue(id, a)) == m
  {
    hide With;
  }

  lemma GiveBackStep(s: System, step: Step)
    requires Inv(s) && Enabled(s, step) && step.GiveBack?
    ensures Inv(After(s, step))
  {
    hide Apply, Succession, Succeeds, WellFormed, TasksOk, ClaimsOk, CopiesOk, StartsOk, TriesOk, ReplaysOk, With;
    var id := s.waiting[step.attempt].id;
    ApplyWellFormed(s.store, Op.Requeue(id, step.attempt));
    GiveBackApplies(s.store, id, step.attempt);
    if Holds(s.store, id, step.attempt) {
      hide Inv;
      GiveBackKeeps(s, After(s, step), id, step.attempt);
    } else {
      StandingStill(s);
      hide Inv;
      QuietKeeps(s, After(s, step));
    }
  }

  function CopyUsed(s: System, step: Step): Message
    requires step.Recover? || ((step.Succeed? || step.Fail?) && step.attempt in s.running)
  {
    if step.Recover? then step.msg else s.running[step.attempt]
  }

  lemma OutcomeCall(s: System, step: Step)
    requires CopiesOk(s) && Enabled(s, step) && (step.Succeed? || step.Fail? || step.Recover?)
    ensures CopyOk(s, CopyUsed(s, step).attemptId, CopyUsed(s, step))
    ensures Call(s, step).Some? && IsOutcome(CopyUsed(s, step), Call(s, step).value)
  {
  }

  predicate Spends(step: Step, ok: bool) {
    step.Succeed? || step.Fail? || step.Recover? || (step.WriteReplay? && !ok)
  }

  lemma ReadsGoDown(s: System, step: Step, ok: bool)
    requires Spends(step, ok)
    ensures RecoveriesAfter(s, step) <= s.recovering && ReplaysAfter(s, step) <= s.replaying
  {
  }

  lemma SpendSettles(s: System, step: Step, store: Machine, ok: bool)
    requires Enabled(s, step) && Spends(step, ok)
    ensures
      var spent := s.(store := store, recovering := RecoveriesAfter(s, step), replaying := ReplaysAfter(s, step));
      Settle(s, step, store, ok)
      == if step.Succeed? || step.Fail? then spent.(running := s.running - {step.attempt}) else spent
  {
    hide RecoveriesAfter, ReplaysAfter;
  }

  /** The end of an attempt, and a replay that comes too late, only use up copies. */
  lemma UsesUp(s: System, step: Step, store: Machine, ok: bool)
    requires Enabled(s, step) && Spends(step, ok)
    ensures SameBooks(s, Settle(s, step, store, ok)) && FewerCopies(s, Settle(s, step, store, ok))
  {
    hide Enabled, Settle, RecoveriesAfter, ReplaysAfter;
    SpendSettles(s, step, store, ok);
    ReadsGoDown(s, step, ok);
  }

  lemma OutcomeStep(s: System, step: Step)
    requires Inv(s) && Enabled(s, step) && (step.Succeed? || step.Fail? || step.Recover?)
    ensures Inv(After(s, step))
  {
    hide Apply, Succession, Succeeds, WellFormed, TasksOk, ClaimsOk, CopiesOk, CopyOk, StartsOk, TriesOk, ReplaysOk;
    hide Call, IsOutcome, Settle, SameBooks, FewerCopies;
    OutcomeCall(s, step);
    var op := Call(s, step).value;
    ApplyWellFormed(s.store, op);
    OutcomeSuccession(s, CopyUsed(s, step), op);
    UsesUp(s, step, Apply(s.store, op), Succeeds(s.store, op));
    hide Inv;
    QuietKeeps(s, After(s, step));
  }

  /** Steps that do not run a script change neither the store nor the accounts. */
  ghost predicate SameAccounts(s: System, s': System) {
    && s'.store == s.store && s'.epoch == s.epoch && s'.limits == s.limits
    && s'.claims == s.claims && s'.requeued == s.requeued
  }

  lemma AccountsKeep(s: System, s': System)
    requires TasksOk(s) && ClaimsOk(s) && TriesOk(s) && SameAccounts(s, s')
    ensures TasksOk(s') && ClaimsOk(s') && TriesOk(s')
  {
    forall o
      ensures Tries(s', o) == Tries(s, o)
    {
      SameTries(s, s', o);
    }
    hide Tries, Holds;
  }

  lemma CopyKept(s: System, s': System, a: string, c: Message)
    requires SameAccounts(s, s')
    ensures CopyOk(s', a, c) <==> CopyOk(s, a, c)
  {
  }

  lemma StartBooks(s: System, s': System, a: string, e: nat)
    requires ClaimsOk(s) && CopiesOk(s) && StartsOk(s) && a in s.waiting && SameAccounts(s, s')
    requires e == EpochOf(s, s.claims[a].id)
    requires s'.waiting == s.waiting - {a} && s'.running == s.running[a := s.waiting[a]]
    requires s'.started == s.started[a := e] && s'.recovering == s.recovering
    ensures CopiesOk(s') && StartsOk(s')
  {
    forall b, c
      ensures CopyOk(s', b, c) <==> CopyOk(s, b, c)
    {
      CopyKept(s, s', b, c);
    }
    assert CopyOk(s, a, s.waiting[a]) && s.claims[a] in s.limits;
    hide CopyOk, Holds;
  }

  lemma StartStep(s: System, step: Step)
    requires Inv(s) && Enabled(s, step) && step.StartHandler?
    ensures Inv(After(s, step))
  {
    hide Apply, Succeeds, WellFormed, TasksOk, ClaimsOk, StartsOk, TriesOk, ReplaysOk;
    var s' := After(s, step);
    assert CopyOk(s, step.attempt, s.waiting[step.attempt]);
    ReplaysKept(s, s');
    hide CopyOk, CopiesOk;
    AccountsKeep(s, s');
    StartBooks(s, s', step.attempt, EpochOf(s, s.claims[step.attempt].id));
  }

  lemma ReplaysKept(s: System, s': System)
    requires ReplaysOk(s) && s'.store == s.store && s'.replaying == s.replaying && s'.crossed == s.crossed
    ensures ReplaysOk(s')
  {
  }

  lemma ReadBooks(s: System, s': System, id: string)
    requires WellFormed(s.store) && TasksOk(s) && ClaimsOk(s) && CopiesOk(s) && StartsOk(s) && SameAccounts(s, s')
    requires s'.waiting == s.waiting && s'.running == s.running && s'.started == s.started
    requires s'.recovering == s.recovering || s'.recovering == s.recovering + multiset(ActiveCopy(s.store, id))
    ensures CopiesOk(s') && StartsOk(s')
  {
    forall c | c in ActiveCopy(s.store, id)
      ensures CopyOk(s, c.attemptId, c)
    {
      assert Holds(s.store, id, c.attemptId);
    }
    hide WellFormed, TasksOk, ClaimsOk, ActiveCopy;
    forall b, c
      ensures CopyOk(s', b, c) <==> CopyOk(s, b, c)
    {
      CopyKept(s, s', b, c);
    }
    hide CopyOk;
  }

  lemma ReadExpiredStep(s: System, step: Step)
    requires Inv(s) && Enabled(s, step) && step.ReadExpired?
    ensures Inv(After(s, step))
  {
    hide Apply, Succeeds, WellFormed, TasksOk, ClaimsOk, CopiesOk, StartsOk, TriesOk, ReplaysOk, ActiveCopy;
    var s' := After(s, step);
    ReplaysKept(s, s');
    AccountsKeep(s, s');
    ReadBooks(s, s', step.id);
  }

  lemma DeadCopyOk(s: System, s': System, id: string)
    requires WellFormed(s.store) && TasksOk(s) && ReplaysOk(s)
    requires s'.store == s.store && s'.crossed == s.crossed
    requires s'.replaying == s.replaying + multiset(DeadCopy(s.store, id))
    ensures ReplaysOk(s')
  {
    if IsIn(s.store, id, Archived) {
      assert Core(s.store.tasks[id].msg) == Core(s.store.tasks[id].msg.(state := Archived, attemptId := ""));
      assert GoodTask(s.store.tasks[id], s.store.sequence);
    }
    hide Core;
  }

  lemma ReadDeadLetterStep(s: System, step: Step)
    requires Inv(s) && Enabled(s, step) && step.ReadDeadLetter?
    ensures Inv(After(s, step))
  {
    hide Apply, Succeeds, WellFormed, TasksOk, ClaimsOk, CopiesOk, StartsOk, TriesOk, ReplaysOk, DeadCopy;
    var s' := After(s, step);
    DeadCopyOk(s, s', step.id);
    AccountsKeep(s, s');
    ReadBooks(s, s', step.id);
  }

  lemma ReplayApplies(m: Machine, id: string, msg: Message)
    ensures Succeeds(m, Op.Replay(id, msg)) <==> IsIn(m, id, Archived)
    ensures IsIn(m, id, Archived) ==> Apply(m, Op.Replay(id, msg)) == With(m, id, Put(m.tasks[id], msg, Pending, 0))
    ensures !IsIn(m, id, Archived) ==> Apply(m, Op.Replay(id, msg)) == m
  {
    hide With;
  }

  lemma ReplayOpens(s: System, msg: Message, seqno: nat, now: int, s': System)
    requires WellFormed(s.store) && ReplaysOk(s) && (msg, seqno) in s.replaying && IsIn(s.store, msg.id, Archived)
    requires
      var m' := With(s.store, msg.id, Put(s.store.tasks[msg.id], Reset(msg, now), Pending, 0));
      var crossed := if s.store.tasks[msg.id].seqno == seqno then s.crossed else s.crossed + {msg.id};
      var written := s.(store := m', replaying := s.replaying - multiset{(msg, seqno)});
      s' == NewEpoch(written, msg.id, msg.maxRetry).(crossed := crossed)
    ensures Opened(s, s', msg.id)
  {
    hide Core, WellFormed, ReplaysOk, Reset, NewEpoch, OpensTask;
    var m' := With(s.store, msg.id, Put(s.store.tasks[msg.id], Reset(msg, now), Pending, 0));
    var crossed := if s.store.tasks[msg.id].seqno == seqno then s.crossed else s.crossed + {msg.id};
    EpochAndCrossed(s.(store := m', replaying := s.replaying - multiset{(msg, seqno)}), msg.id, msg.maxRetry, crossed);
    NewRecordOpens(s, msg, seqno, now, s');
    ResetKeepsBudget(msg, now);
  }

  lemma EpochAndCrossed(s: System, id: string, maxRetry: int, crossed: set<string>)
    ensures
      var s' := NewEpoch(s, id, maxRetry).(crossed := crossed);
      && s' == NewEpoch(s.(crossed := crossed), id, maxRetry)
      && s'.store == s.store && s'.replaying == s.replaying
  {
  }

  lemma ResetKeepsBudget(msg: Message, now: int)
    ensures Reset(msg, now).maxRetry == msg.maxRetry
  {
  }

  lemma ResetKeepsCore(msg: Message, now: int)
    ensures Core(Reset(msg, now)) == Core(msg)
  {
  }

  lemma NewRecordOpens(s: System, msg: Message, seqno: nat, now: int, s': System)
    requires WellFormed(s.store) && ReplaysOk(s) && (msg, seqno) in s.replaying && IsIn(s.store, msg.id, Archived)
    requires s'.store == With(s.store, msg.id, Put(s.store.tasks[msg.id], Reset(msg, now), Pending, 0))
    requires s.store.tasks[msg.id].seqno != seqno ==> msg.id in s'.crossed
    requires s.crossed <= s'.crossed
    ensures OpensTask(s, s', msg.id)
  {
    hide Core;
    ResetKeepsCore(msg, now);
    assert GoodTask(s.store.tasks[msg.id], s.store.sequence);
    assert (msg, seqno).0 == msg && (msg, seqno).1 == seqno;
  }

  lemma WriteSettles(s: System, step: Step, store: Machine)
    requires Enabled(s, step) && step.WriteReplay?
    ensures
      var same := step.msg.id in s.store.tasks && s.store.tasks[step.msg.id].seqno == step.seqno;
      var written := s.(store := store, replaying := s.replaying - multiset{(step.msg, step.seqno)});
      var crossed := if same then s.crossed else s.crossed + {step.msg.id};
      Settle(s, step, store, true) == NewEpoch(written, step.msg.id, step.msg.maxRetry).(crossed := crossed)
  {
    hide EpochOf;
  }

  lemma WriteReplayStep(s: System, step: Step)
    requires Inv(s) && Enabled(s, step) && step.WriteReplay?
    ensures Inv(After(s, step))
  {
    hide Apply, Succession, Succeeds, WellFormed, TasksOk, ClaimsOk, CopiesOk, StartsOk, TriesOk, ReplaysOk;
    hide With, Reset, Settle, SameBooks, FewerCopies, NewEpoch, Opened;
    var op := Op.Replay(step.msg.id, Reset(step.msg, step.now));
    var s' := After(s, step);
    ApplyWellFormed(s.store, op);
    ReplayApplies(s.store, step.msg.id, Reset(step.msg, step.now));
    if IsIn(s.store, step.msg.id, Archived) {
      WriteSettles(s, step, Apply(s.store, op));
      ReplayOpens(s, step.msg, step.seqno, step.now, s');
      hide Inv;
      OpenKeeps(s, s', step.msg.id);
    } else {
      UsesUp(s, step, s.store, false);
      StandingStill(s);
      hide Inv;
      QuietKeeps(s, s');
    }
  }

  lemma StepKeeps(s: System, step: Step)
    requires Inv(s) && Enabled(s, step)
    ensures Inv(After(s, step))
  {
    hide Inv, Enabled, After;
    match step
    case Enqueue(_, _) => CreateStep(s, step);
    case Schedule(_, _, _) => CreateStep(s, step);
    case Claim(_, _) => ClaimStep(s, step);
    case StartHandler(_) => StartStep(s, step);
    case GiveBack(_) => GiveBackStep(s, step);
    case Succeed(_, _) => OutcomeStep(s, step);
    case Fail(_, _, _, _, _) => OutcomeStep(s, step);
    case Recover(_, _, _) => OutcomeStep(s, step);
    case ReadExpired(_) => ReadExpiredStep(s, step);
    case ReadDeadLetter(_) => ReadDeadLetterStep(s, step);
    case WriteReplay(_, _, _) => WriteReplayStep(s, step);
    case _ => PassiveStep(s, step);
  }

  lemma {:induction false} AlwaysInv(s: System, steps: seq<Step>)
    requires Inv(s) && Legal(s, steps)
    ensures Inv(Runs(s, steps))
    decreases |steps|
  {
    if steps != [] {
      StepKeeps(s, steps[0]);
      AlwaysInv(After(s, steps[0]), steps[1..]);
    }
  }
}
