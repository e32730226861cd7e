/** The recovery loop of one server on one queue. */
module Recovery {
  import opened Values
  import opened TaskMachine
  import opened QueueStore
  import opened StoreRuns
  import opened ServerCalls
  import Protocol
  import QueueLaws

  /** One tick: its time, the jittered delay drawn for each task by its retry count, and the clock as it is read
      while each task is ended. */
  datatype Tick = Tick(now: int, delay: (string, int) -> int, clock: string -> int)

  const EXPIRED := "task lease expired"

  /** Messages carry the ids of their records, as they do in every reachable state. */
  ghost predicate OwnIds(m: Machine) {
    forall id | id in m.tasks :: m.tasks[id].msg.id == id
  }

  /** An active task whose attempt ran out. */
  function Recovered(id: string, t: Task, k: Tick): Task {
    var retries := t.msg.retryCount;
    if retries >= t.msg.maxRetry then Put(t, Protocol.Dead(t.msg, EXPIRED), Archived, k.clock(id))
    else
      var failed := Protocol.Failed(t.msg.(retryCount := retries + 1), k.clock(id), EXPIRED);
      Put(t, failed, Retry, k.now + k.delay(id, retries))
  }

  predicate Recoverable(t: Task) {
    t.state == Active && t.attempt.Some? && t.attempt.value != ""
  }

  function AllRecovered(m: Machine, ids: set<string>, k: Tick): Machine {
    m.(tasks := map id | id in m.tasks ::
      if id in ids && Recoverable(m.tasks[id]) then Recovered(id, m.tasks[id], k) else m.tasks[id])
  }

  /** What one tick makes of a queue. */
  function Ticked(m: Machine, k: Tick): Machine {
    AllRecovered(m, Members(DueIds(m, Active, k.now, 100)), k)
  }

  lemma TickedIs(m: Machine, k: Tick)
    ensures Ticked(m, k) == AllRecovered(m, Members(DueIds(m, Active, k.now, 100)), k)
  {
  }

  function OneRecovered(m: Machine, id: string, k: Tick): Machine {
    if id in m.tasks && Recoverable(m.tasks[id]) then With(m, id, Recovered(id, m.tasks[id], k)) else m
  }

  /** An active task whose message carries its own id. */
  ghost predicate Held(m: Machine, id: string) {
    id in m.tasks && m.tasks[id].state == Active && m.tasks[id].msg.id == id
  }

  lemma RecoverNext(m: Machine, ids: seq<string>, i: nat, k: Tick)
    requires i < |ids| && DistinctIds(ids) && Held(m, ids[i])
    ensures Held(AllRecovered(m, Members(ids[..i]), k), ids[i])
    ensures
      OneRecovered(AllRecovered(m, Members(ids[..i]), k), ids[i], k)
      == AllRecovered(m, Members(ids[..i + 1]), k)
  {
    hide Members, Recovered, Recoverable, DistinctIds;
    MembersGrow(ids, i);
  }

  lemma RecoverNone(m: Machine, k: Tick)
    ensures AllRecovered(m, Members([]), k) == m
  {
  }

  lemma RecoverCall(m: Machine, id: string, k: Tick)
    requires WellFormed(m) && Held(m, id)
    ensures match Seen(m, id)
      case Ok(msg) =>
        && msg.state == Active
        && var op := EndCall(msg, Failure(EXPIRED, false), k.clock(id), k.now + k.delay(id, msg.retryCount));
        && Apply(m, op) == OneRecovered(m, id, k)
      case Err(_) => OneRecovered(m, id, k) == m
  {
    if Seen(m, id).Ok? {
      var msg := Seen(m, id).value;
      var op := EndCall(msg, Failure(EXPIRED, false), k.clock(id), k.now + k.delay(id, msg.retryCount));
      hide WellFormed, Apply, Succeeds;
      PutApplies(m, op);
    }
  }

  lemma ExpiredListed(m: Machine, now: int, limit: nat)
    requires OwnIds(m)
    ensures
      var ids := DueIds(m, Active, now, limit);
      DistinctIds(ids) && forall i | 0 <= i < |ids| :: Held(m, ids[i])
  {
    QueueLaws.DueIdsExact(m, Active, now, limit);
    hide DueIds;
    var ids := DueIds(m, Active, now, limit);
    forall i | 0 <= i < |ids|
      ensures Held(m, ids[i])
    {
      assert ids[i] in ids;
    }
  }

  /** Read one expired task and end its attempt. */
  method RecoverOne(q: Queue, id: string, k: Tick)
    requires q.Valid() && Held(q.machine, id)
    modifies q
    ensures q.Valid()
    ensures q.machine == OneRecovered(old(q.machine), id, k)
  {
    hide *;
    Standing(q);
    RecoverCall(q.machine, id, k);
    var r := Get(q, id);
    if r.Ok? && r.value.state == Active {
      var _ := Process(q, r.value, Failure(EXPIRED, false), k.clock(id), k.now + k.delay(id, r.value.retryCount));
    }
  }

  /** One tick of the recovery loop for one queue: up to a hundred expired leases, soonest first, each read,
      then retried with one more retry counted or archived when the budget is spent. */
  method RecoverTick(q: Queue, k: Tick)
    requires q.Valid() && OwnIds(q.machine)
    modifies q
    ensures q.Valid() && OwnIds(q.machine)
    ensures q.machine == Ticked(old(q.machine), k)
  {
    hide *;
    ghost var m0 := q.machine;
    TickedIs(m0, k);
    TickedKeeps(m0, k);
    ExpiredListed(m0, k.now, 100);
    RecoverNone(m0, k);
    var ids := ExpiredIds(q, k.now, 100);
    var i := 0;
    assert ids[..0] == [];
    while i < |ids|
      invariant 0 <= i <= |ids| && q.Valid()
      invariant q.machine == AllRecovered(m0, Members(ids[..i]), k)
    {
      RecoverNext(m0, ids, i, k);
      RecoverOne(q, ids[i], k);
      i := i + 1;
    }
    assert ids[..i] == ids;
  }

  /** What a tick leaves behind: every expired lease it listed is gone, its task one retry further or
      archived with its budget spent; all other tasks are as they were. With at most a hundred
      expired leases none is left. */
  lemma RecoverTickExact(m: Machine, k: Tick, id: string)
    requires WellFormed(m) && id in m.tasks
    ensures
      var ids := DueIds(m, Active, k.now, 100);
      var t, t' := m.tasks[id], Ticked(m, k).tasks[id];
      && (id !in ids ==> t' == t)
      && (id in ids && t.attempt != Some("") ==>
            && t'.state == (if t.msg.retryCount < t.msg.maxRetry then Retry else Archived)
            && Ended(t', t.msg, Failure("task lease expired", false), k.clock(id))
            && t'.due == (if t'.state == Retry then k.now + k.delay(id, t.msg.retryCount) else k.clock(id))
            && t'.rank == t.rank && t'.seqno == t.seqno)
      && (|ids| < 100 && t'.state == Active && t'.due <= k.now ==> t.attempt == Some(""))
  {
    hide DueIds, Recovered, Ended, QueueLaws.Sooner;
    QueueLaws.DueIdsExact(m, Active, k.now, 100);
    assert GoodTask(m.tasks[id], m.sequence);
    RecoveredIs(id, m.tasks[id], k);
  }

  lemma RecoveredIs(id: string, t: Task, k: Tick)
    ensures
      var t' := Recovered(id, t, k);
      && t'.state == (if t.msg.retryCount < t.msg.maxRetry then Retry else Archived)
      && Ended(t', t.msg, Failure("task lease expired", false), k.clock(id))
      && t'.due == (if t'.state == Retry then k.now + k.delay(id, t.msg.retryCount) else k.clock(id))
      && t'.rank == t.rank && t'.seqno == t.seqno
  {
  }

  // ---- tick after tick ----

  ghost function AllTicked(m: Machine, ks: seq<Tick>): Machine
    decreases |ks|
  {
    if ks == [] then m else AllTicked(Ticked(m, ks[0]), ks[1..])
  }

  /** No attempt id is empty: they are drawn as 32 hexadecimal digits. */
  ghost predicate NoBlanks(m: Machine) {
    forall id | id in m.tasks :: m.tasks[id].attempt != Some("")
  }

  lemma TickedKeeps(m: Machine, k: Tick)
    ensures NoBlanks(m) ==> NoBlanks(Ticked(m, k))
    ensures OwnIds(m) ==> OwnIds(Ticked(m, k))
    ensures Ticked(m, k).tasks.Keys == m.tasks.Keys
    ensures forall id | id in m.tasks && m.tasks[id].state != Active :: Ticked(m, k).tasks[id] == m.tasks[id]
  {
    hide DueIds;
  }

  lemma TickedAt(m: Machine, k: Tick, id: string)
    requires WellFormed(m) && NoBlanks(m) && id in m.tasks
    ensures
      var ids := DueIds(m, Active, k.now, 100);
      && id in Ticked(m, k).tasks
      && Ticked(m, k).tasks[id] == if id in ids then Recovered(id, m.tasks[id], k) else m.tasks[id]
  {
    QueueLaws.DueIdsExact(m, Active, k.now, 100);
    assert GoodTask(m.tasks[id], m.sequence);
    hide DueIds, Recovered;
  }

  lemma RecoveredEnds(id: string, t: Task, k: Tick)
    ensures Recovered(id, t, k).state in {Retry, Archived} && Recovered(id, t, k).attempt == None
    ensures Recovered(id, t, k).seqno == t.seqno
  {
  }

  lemma TickedWellFormed(m: Machine, k: Tick)
    requires WellFormed(m)
    ensures WellFormed(Ticked(m, k))
  {
    hide DueIds, Recovered;
    var m' := Ticked(m, k);
    forall id | id in m'.tasks
      ensures GoodTask(m'.tasks[id], m'.sequence) && m'.tasks[id].seqno == m.tasks[id].seqno
    {
      assert GoodTask(m.tasks[id], m.sequence);
      RecoveredEnds(id, m.tasks[id], k);
    }
  }

  /** One tick ends an expired attempt, or takes a hundred others out of its way. */
  lemma TickTurn(m: Machine, k: Tick, id: string)
    requires WellFormed(m) && NoBlanks(m) && IsIn(m, id, Active) && m.tasks[id].due <= k.now
    ensures
      var m' := Ticked(m, k);
      && id in m'.tasks
      && if |QueueLaws.Before(m, Active, id)| < 100 then m'.tasks[id] == Recovered(id, m.tasks[id], k)
         else
           && m'.tasks[id] == m.tasks[id]
           && |QueueLaws.Before(m', Active, id)| == |QueueLaws.Before(m, Active, id)| - 100
  {
    hide Ticked, DueIds, Recovered, WellFormed, NoBlanks, QueueLaws.Before;
    var ids, m' := DueIds(m, Active, k.now, 100), Ticked(m, k);
    QueueLaws.ListedIff(m, Active, k.now, 100, id);
    TickedAt(m, k, id);
    if id !in ids {
      QueueLaws.DueIdsExact(m, Active, k.now, 100);
      QueueLaws.SizeOfIds(ids);
      TickedKeeps(m, k);
      forall x | x in m.tasks
        ensures x in m'.tasks && m'.tasks[x] == if x in ids then Recovered(x, m.tasks[x], k) else m.tasks[x]
      {
        TickedAt(m, k, x);
      }
      forall x | x in ids
        ensures x in m'.tasks && m'.tasks[x].state != Active
      {
        RecoveredEnds(x, m.tasks[x], k);
      }
      QueueLaws.StillBefore(m, m', Active, ids, id);
    }
  }

  lemma {:induction false} EndedStays(m: Machine, ks: seq<Tick>, id: string)
    requires id in m.tasks && m.tasks[id].state != Active
    ensures id in AllTicked(m, ks).tasks && AllTicked(m, ks).tasks[id] == m.tasks[id]
    decreases |ks|
  {
    hide Ticked;
    if ks != [] {
      TickedKeeps(m, ks[0]);
      EndedStays(Ticked(m, ks[0]), ks[1..], id);
    }
  }

  /** However many leases expired before it, an expired attempt is ended after enough ticks: with fewer than
      a hundred times their number before it, one of the ticks retries or archives its task. */
  lemma {:induction false} RecoveredInTurn(m: Machine, ks: seq<Tick>, id: string) returns (i: nat)
    requires WellFormed(m) && NoBlanks(m) && IsIn(m, id, Active) && |QueueLaws.Before(m, Active, id)| < 100 * |ks|
    requires forall k | k in ks :: m.tasks[id].due <= k.now
    ensures i < |ks| && id in AllTicked(m, ks).tasks
    ensures AllTicked(m, ks).tasks[id] == Recovered(id, m.tasks[id], ks[i])
    decreases |ks|
  {
    hide Ticked, WellFormed, NoBlanks, QueueLaws.Before, Recovered;
    assert ks[0] in ks;
    var m' := Ticked(m, ks[0]);
    TickTurn(m, ks[0], id);
    if |QueueLaws.Before(m, Active, id)| < 100 {
      i := 0;
      RecoveredEnds(id, m.tasks[id], ks[0]);
      EndedStays(m', ks[1..], id);
    } else {
      TickedKeeps(m, ks[0]);
      TickedWellFormed(m, ks[0]);
      var j := RecoveredInTurn(m', ks[1..], id);
      i := j + 1;
    }
  }
}
