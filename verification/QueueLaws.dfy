/** The queue as its users see it: what MoveReady moves, what Claim serves and when, what the
    indexes count, and that an unfinished task is always where its next step looks. */
module QueueLaws {
  import opened Values
  import opened TaskMachine
  import opened StoreRuns
  import opened Keys
  import Redis
  import RankMember
  import Lexical

  // ---- what each call leaves behind ----

  /** All tasks but one are as they were. */
  ghost predicate OthersAsBefore(m: Machine, m': Machine, id: string) {
    forall j | j != id :: (j in m'.tasks <==> j in m.tasks) && (j in m.tasks ==> m'.tasks[j] == m.tasks[j])
  }

  /** A task waits in the queue: no attempt, no time, the place it was created with. */
  ghost predicate WaitsAt(t: Task, rank: int, seqno: nat) {
    t.state == Pending && t.attempt == None && t.due == 0 && t.rank == rank && t.seqno == seqno
  }

  /** A creation stores the caller's message under the next number, due when the caller says, or nothing at all. */
  lemma CreateExact(m: Machine, msg: Message, rank: int, at: int)
    ensures
      var stored := msg.id !in m.tasks && m.sequence < RankMember.MAX_SEQUENCE;
      var e, s := Apply(m, Op.Enqueue(msg, rank)), Apply(m, Op.Schedule(msg, rank, at));
      if stored then
        && msg.id in e.tasks && e.tasks[msg.id].msg == msg && WaitsAt(e.tasks[msg.id], rank, m.sequence + 1)
        && msg.id in s.tasks && s.tasks[msg.id].msg == msg && s.tasks[msg.id].state == Scheduled
        && s.tasks[msg.id].due == at && s.tasks[msg.id].attempt == None
        && s.tasks[msg.id].rank == rank && s.tasks[msg.id].seqno == m.sequence + 1
        && OthersAsBefore(m, e, msg.id) && OthersAsBefore(m, s, msg.id)
        && e.sequence == s.sequence == m.sequence + 1
      else e == m && s == m
  {
  }

  /** A claim leaves its head active, held by the attempt until its lease ends, with message and place unchanged. */
  lemma ClaimExact(m: Machine, attempt: string, expires: int)
    requires WellFormed(m)
    ensures
      var m' := Apply(m, Op.Claim(attempt, expires));
      if Ids(m, Pending) == {} then m' == m
      else
        && Next(m).Some? && IsNext(m, Next(m).value)
        && var id := Next(m).value;
           && Holds(m', id, attempt) && m'.tasks[id].due == expires && OthersAsBefore(m, m', id)
           && m'.tasks[id].msg == m.tasks[id].msg && m'.tasks[id].rank == m.tasks[id].rank
           && m'.tasks[id].seqno == m.tasks[id].seqno && m'.sequence == m.sequence
  {
    hide Apply, WellFormed;
    ClaimApplies(m, attempt, expires);
    if id :| id in Ids(m, Pending) {
      var _ := NextPending(m, id);
    }
  }

  /** Ack, retry and archive leave the holder's task in its new state, due when the caller says, with the message the
      caller wrote and its place kept; anyone else changes nothing. */
  lemma OutcomeExact(m: Machine, msg: Message, at: int, attempt: string)
    ensures
      var id := msg.id;
      var a, r, d := Apply(m, Op.Ack(msg, attempt)), Apply(m, Op.ScheduleRetry(msg, at, attempt)),
                     Apply(m, Op.Archive(msg, at, attempt));
      if id in m.tasks && m.tasks[id].state == Active && m.tasks[id].attempt == Some(attempt) then
        && EndsAs(m, a, msg, Completed, 0) && EndsAs(m, r, msg, Retry, at) && EndsAs(m, d, msg, Archived, at)
      else a == m && r == m && d == m
  {
  }

  ghost predicate EndsAs(m: Machine, m': Machine, msg: Message, s: State, due: int)
    requires msg.id in m.tasks
  {
    && msg.id in m'.tasks && m'.tasks[msg.id].msg == msg && m'.tasks[msg.id].state == s
    && m'.tasks[msg.id].due == due && m'.tasks[msg.id].attempt == None
    && m'.tasks[msg.id].rank == m.tasks[msg.id].rank && m'.tasks[msg.id].seqno == m.tasks[msg.id].seqno
    && OthersAsBefore(m, m', msg.id) && m'.sequence == m.sequence
  }

  /** A requeue puts the task back where it was, its message unchanged. */
  lemma RequeueExact(m: Machine, id: string, attempt: string)
    ensures
      var m' := Apply(m, Op.Requeue(id, attempt));
      if id in m.tasks && m.tasks[id].state == Active && m.tasks[id].attempt == Some(attempt) then
        && id in m'.tasks && WaitsAt(m'.tasks[id], m.tasks[id].rank, m.tasks[id].seqno)
        && m'.tasks[id].msg == m.tasks[id].msg && OthersAsBefore(m, m', id) && m'.sequence == m.sequence
      else m' == m
  {
  }

  /** A replay puts a dead letter back where it was, with the message the caller wrote. */
  lemma ReplayExact(m: Machine, id: string, msg: Message)
    ensures
      var m' := Apply(m, Op.Replay(id, msg));
      if IsIn(m, id, Archived) then
        && id in m'.tasks && WaitsAt(m'.tasks[id], m.tasks[id].rank, m.tasks[id].seqno)
        && m'.tasks[id].msg == msg && OthersAsBefore(m, m', id) && m'.sequence == m.sequence
      else m' == m
  {
  }

  /** A deletion removes a dead letter and nothing else. */
  lemma DeleteExact(m: Machine, id: string)
    ensures
      var m' := Apply(m, Op.Delete(id));
      if IsIn(m, id, Archived) then id !in m'.tasks && OthersAsBefore(m, m', id) && m'.sequence == m.sequence
      else m' == m
  {
    hide DueIds;
  }

  /** A cleanup removes the oldest dead letters, up to its limit, and nothing else. */
  lemma CleanupExact(m: Machine, before: int, limit: nat)
    ensures
      var ids, m' := DueIds(m, Archived, before, limit), Apply(m, Op.Cleanup(before, limit));
      && (forall id | id in ids :: IsIn(m, id, Archived) && m.tasks[id].due <= before && id !in m'.tasks)
      && (forall id | id in m.tasks && id !in ids :: id in m'.tasks && m'.tasks[id] == m.tasks[id])
      && (forall id | id in m'.tasks :: id in m.tasks) && m'.sequence == m.sequence
  {
    hide Apply, DueIds;
    DueIdsExact(m, Archived, before, limit);
    CleanupIs(m, before, limit);
  }

  lemma CleanupIs(m: Machine, before: int, limit: nat)
    ensures Apply(m, Op.Cleanup(before, limit)) == Removed(m, Members(DueIds(m, Archived, before, limit)))
  {
    hide DueIds, Redis.RangeByScore, Index;
    assert Members([]) == {} && m.tasks - {} == m.tasks;
  }

  /** A heartbeat gives the leases of exactly the listed holders their new end. */
  lemma ExtendExact(m: Machine, claims: seq<(string, string)>, expires: int, id: string)
    requires id in m.tasks
    ensures
      var m' := Apply(m, Op.ExtendLease(claims, expires));
      && m'.tasks.Keys == m.tasks.Keys && m'.sequence == m.sequence
      && m'.tasks[id] == if exists c | c in claims :: c.0 == id && Holds(m, id, c.1)
                         then m.tasks[id].(due := expires) else m.tasks[id]
  {
    ExtendApplied(m, claims, expires);
    hide Apply, Succeeds;
  }

  lemma ExtendApplied(m: Machine, claims: seq<(string, string)>, expires: int)
    ensures Apply(m, Op.ExtendLease(claims, expires)) == Extended(m, claims, expires)
  {
    if !Succeeds(m, Op.ExtendLease(claims, expires)) {
      ExtendedNone(m, claims, expires);
    }
    hide Extended;
  }

  // ---- MoveReady ----

  /** Listing order of an index: by time, then by id. */
  predicate Sooner(m: Machine, a: string, b: string)
    requires a in m.tasks && b in m.tasks
  {
    m.tasks[a].due < m.tasks[b].due || (m.tasks[a].due == m.tasks[b].due && Lexical.Less(a, b))
  }

  /** An id left out of a bounded listing comes after all that are in it. */
  lemma LeftOutIsLater(m: Machine, s: State, now: int, limit: nat, id: string)
    requires IsIn(m, id, s) && m.tasks[id].due <= now && id !in DueIds(m, s, now, limit)
    ensures |DueIds(m, s, now, limit)| == limit
    ensures forall x | x in DueIds(m, s, now, limit) :: x in m.tasks && Sooner(m, x, id)
  {
    var z := Redis.UpTo(Index(m, s), now);
    var all := Redis.Sorted(z);
    var ids := DueIds(m, s, now, limit);
    Redis.SortedMembers(z, id);
    var j :| 0 <= j < |all| && all[j] == id;
    assert ids == all[..limit];
    hide Redis.Sorted, DueIds;
    forall x | x in ids
      ensures x in m.tasks && Sooner(m, x, id)
    {
      var i :| 0 <= i < |ids| && ids[i] == x;
      assert all[i] == x;
      assert i < j;
      Redis.SortedAscends(z, i, j);
    }
  }

  /** What a bounded listing of an index holds: at most `limit` due ids, each once, the soonest ones. */
  lemma DueIdsExact(m: Machine, s: State, now: int, limit: nat)
    ensures
      var ids := DueIds(m, s, now, limit);
      && |ids| <= limit && DistinctIds(ids)
      && (forall id | id in ids :: IsIn(m, id, s) && m.tasks[id].due <= now)
      && (forall id | IsIn(m, id, s) && m.tasks[id].due <= now && id !in ids ::
            |ids| == limit && forall x | x in ids :: x in m.tasks && Sooner(m, x, id))
  {
    DueIdsMembers(m, s, now, limit);
    ListedIds(m, s, now);
    hide Index, Redis.RangeByScore;
    var ids := DueIds(m, s, now, limit);
    forall id | IsIn(m, id, s) && m.tasks[id].due <= now && id !in ids
      ensures |ids| == limit && forall x | x in ids :: x in m.tasks && Sooner(m, x, id)
    {
      LeftOutIsLater(m, s, now, limit, id);
    }
  }

  lemma {:induction false} SizeOfIds(ids: seq<string>)
    requires DistinctIds(ids)
    ensures |Members(ids)| == |ids|
  {
    if ids != [] {
      var n := |ids| - 1;
      SizeOfIds(ids[..n]);
      MembersGrow(ids, n);
      assert ids[..n + 1] == ids;
    }
  }

  lemma MoveReadyIs(m: Machine, source: Source, now: int, limit: nat)
    ensures Apply(m, Op.MoveReady(source, now, limit)) == Promoted(m, Members(DueIds(m, source.State(), now, limit)))
  {
    hide Promoted, DueIds, Redis.RangeByScore, Index;
    PromotedNone(m);
    assert Members([]) == {};
  }

  /** One MoveReady call: nothing before its millisecond, the soonest entries first, at most `limit`,
      each out of its index at once, and as many as pending grows by. */
  lemma MoveReadyExact(m: Machine, source: Source, now: int, limit: nat)
    ensures
      var ids := DueIds(m, source.State(), now, limit);
      var m' := Apply(m, Op.MoveReady(source, now, limit));
      && (forall id | id in ids :: IsIn(m, id, source.State()) && m.tasks[id].due <= now)
      && (forall id | id in ids :: IsIn(m', id, Pending) && id !in Index(m', source.State()))
      && (forall id | id in m.tasks && id !in ids :: id in m'.tasks && m'.tasks[id] == m.tasks[id])
      && |Ids(m', Pending)| == |Ids(m, Pending)| + |ids| && |ids| <= limit
  {
    var ids := DueIds(m, source.State(), now, limit);
    DueIdsExact(m, source.State(), now, limit);
    MoveReadyIs(m, source, now, limit);
    hide Apply, DueIds, Sooner;
    SizeOfIds(ids);
    var m' := Promoted(m, Members(ids));
    assert Ids(m', Pending) == Ids(m, Pending) + Members(ids);
    assert Ids(m, Pending) !! Members(ids);
  }

  // ---- due tasks are listed, and moved, in turn ----

  /** Tasks of a state that come before id in its index. */
  ghost function Before(m: Machine, s: State, id: string): set<string>
    requires id in m.tasks
  {
    set x | x in Ids(m, s) && Sooner(m, x, id)
  }

  lemma SoonerAsymmetric(m: Machine, a: string, b: string)
    requires a in m.tasks && b in m.tasks && Sooner(m, a, b)
    ensures !Sooner(m, b, a)
  {
    if m.tasks[a].due == m.tasks[b].due && Lexical.Less(b, a) {
      Lexical.Transitive(a, b, a);
      Lexical.Irreflexive(a);
    }
  }

  lemma ListedHasRoom(m: Machine, s: State, now: int, limit: nat, id: string)
    requires IsIn(m, id, s) && m.tasks[id].due <= now && id in DueIds(m, s, now, limit)
    ensures |Before(m, s, id)| < limit
  {
    hide DueIds;
    var ids := DueIds(m, s, now, limit);
    DueIdsExact(m, s, now, limit);
    SizeOfIds(ids);
    forall x | x in Before(m, s, id)
      ensures x in Members(ids) - {id}
    {
      SoonerAsymmetric(m, x, id);
    }
    hide Before, Sooner;
    SubsetSize(Before(m, s, id), Members(ids) - {id});
    assert Members(ids) == (Members(ids) - {id}) + {id};
  }

  lemma UnlistedHasNone(m: Machine, s: State, now: int, limit: nat, id: string)
    requires IsIn(m, id, s) && m.tasks[id].due <= now && id !in DueIds(m, s, now, limit)
    ensures Members(DueIds(m, s, now, limit)) <= Before(m, s, id) && |Before(m, s, id)| >= limit
  {
    hide DueIds;
    var ids := DueIds(m, s, now, limit);
    DueIdsExact(m, s, now, limit);
    SizeOfIds(ids);
    SubsetSize(Members(ids), Before(m, s, id));
  }

  /** A bounded listing holds a due task if and only if fewer than `limit` tasks of its state come before it. */
  lemma ListedIff(m: Machine, s: State, now: int, limit: nat, id: string)
    requires IsIn(m, id, s) && m.tasks[id].due <= now
    ensures id in DueIds(m, s, now, limit) <==> |Before(m, s, id)| < limit
    ensures id !in DueIds(m, s, now, limit) ==> Members(DueIds(m, s, now, limit)) <= Before(m, s, id)
  {
    hide DueIds, Before;
    if id in DueIds(m, s, now, limit) {
      ListedHasRoom(m, s, now, limit, id);
    } else {
      UnlistedHasNone(m, s, now, limit, id);
    }
  }

  /** One MoveReady call moves a due task, or takes `limit` tasks out of its way. */
  lemma MoveTurn(m: Machine, source: Source, now: int, limit: nat, id: string)
    requires IsIn(m, id, source.State()) && m.tasks[id].due <= now
    ensures
      var m' := Apply(m, Op.MoveReady(source, now, limit));
      if |Before(m, source.State(), id)| < limit then IsIn(m', id, Pending)
      else
        && IsIn(m', id, source.State()) && m'.tasks[id].due <= now
        && |Before(m', source.State(), id)| == |Before(m, source.State(), id)| - limit
  {
    hide Apply, DueIds;
    var s := source.State();
    var ids, m' := DueIds(m, s, now, limit), Apply(m, Op.MoveReady(source, now, limit));
    ListedIff(m, s, now, limit, id);
    MoveReadyExact(m, source, now, limit);
    MoveReadyAddsNone(m, source, now, limit);
    if id !in ids {
      DueIdsExact(m, s, now, limit);
      SizeOfIds(ids);
      StillBefore(m, m', s, ids, id);
    }
  }

  lemma MoveReadyAddsNone(m: Machine, source: Source, now: int, limit: nat)
    ensures forall x | x in Apply(m, Op.MoveReady(source, now, limit)).tasks :: x in m.tasks
  {
    hide DueIds;
    MoveReadyIs(m, source, now, limit);
  }

  lemma StillBefore(m: Machine, m': Machine, s: State, ids: seq<string>, id: string)
    requires IsIn(m, id, s) && id !in ids && Members(ids) <= Before(m, s, id) && |Members(ids)| == |ids|
    requires forall x | x in ids :: x in m'.tasks && m'.tasks[x].state != s
    requires forall x | x in m.tasks && x !in ids :: x in m'.tasks && m'.tasks[x] == m.tasks[x]
    requires forall x | x in m'.tasks :: x in m.tasks
    ensures IsIn(m', id, s) && |Before(m', s, id)| == |Before(m, s, id)| - |ids|
  {
    assert Before(m', s, id) == Before(m, s, id) - Members(ids) by {
      forall x
        ensures x in Before(m', s, id) <==> x in Before(m, s, id) - Members(ids)
      {
      }
    }
  }

  /** MoveReady n times over. */
  ghost function MoveAll(source: Source, now: int, limit: nat, n: nat): seq<Op> {
    seq(n, _ => Op.MoveReady(source, now, limit))
  }

  lemma {:induction false} PendingStays(m: Machine, source: Source, now: int, limit: nat, n: nat, id: string)
    requires IsIn(m, id, Pending)
    ensures IsIn(Run(m, MoveAll(source, now, limit, n)), id, Pending)
    decreases n
  {
    if n > 0 {
      var op := Op.MoveReady(source, now, limit);
      assert MoveAll(source, now, limit, n)[1..] == MoveAll(source, now, limit, n - 1);
      EveryCallIsAnEdge(m, op, id);
      hide Apply;
      PendingStays(Apply(m, op), source, now, limit, n - 1, id);
    }
  }

  lemma OneLess(n: nat, limit: nat, size: nat)
    requires size < n * limit
    ensures n > 0 && size - limit < (n - 1) * limit
  {
    assert n * limit == (n - 1) * limit + limit;
  }

  lemma MoveAllSplit(m: Machine, source: Source, now: int, limit: nat, n: nat)
    requires n > 0
    ensures
      Run(m, MoveAll(source, now, limit, n))
      == Run(Apply(m, Op.MoveReady(source, now, limit)), MoveAll(source, now, limit, n - 1))
  {
    hide Apply;
    assert MoveAll(source, now, limit, n)[1..] == MoveAll(source, now, limit, n - 1);
  }

  /** However many tasks are due before it, a due task is pending after enough calls: with fewer than
      n * limit before it, after n calls. */
  lemma {:induction false} MovedInTurn(m: Machine, source: Source, now: int, limit: nat, n: nat, id: string)
    requires IsIn(m, id, source.State()) && m.tasks[id].due <= now && |Before(m, source.State(), id)| < n * limit
    ensures IsIn(Run(m, MoveAll(source, now, limit, n)), id, Pending)
    decreases n
  {
    hide Apply, Before, Run, MoveAll;
    var m' := Apply(m, Op.MoveReady(source, now, limit));
    OneLess(n, limit, |Before(m, source.State(), id)|);
    MoveAllSplit(m, source, now, limit, n);
    MoveTurn(m, source, now, limit, id);
    if IsIn(m', id, Pending) {
      PendingStays(m', source, now, limit, n - 1, id);
    } else {
      MovedInTurn(m', source, now, limit, n - 1, id);
    }
  }

  // ---- Claim serves every pending task in its turn ----

  /** Pending tasks that are served before id. */
  ghost function Queued(m: Machine, id: string): set<string>
    requires id in m.tasks
  {
    set j | j in Ids(m, Pending) && Ahead(m, j, id)
  }

  ghost function ClaimAll(attempts: seq<string>, expires: int): seq<Op>
  {
    seq(|attempts|, i requires 0 <= i < |attempts| => Op.Claim(attempts[i], expires))
  }

  /** One claim serves id, or shortens the queue before it by one. */
  lemma ClaimServes(m: Machine, id: string, attempt: string, expires: int)
    requires WellFormed(m) && IsIn(m, id, Pending)
    ensures
      var m' := Apply(m, Op.Claim(attempt, expires));
      if Queued(m, id) == {} then Holds(m', id, attempt)
      else IsIn(m', id, Pending) && |Queued(m', id)| == |Queued(m, id)| - 1
  {
    var first := NextPending(m, id);
    ClaimApplies(m, attempt, expires);
    NextUnique(m, Next(m).value, first);
    var m' := Apply(m, Op.Claim(attempt, expires));
    hide Apply;
    assert first == id || first in Queued(m, id);
    if Queued(m, id) != {} {
      var j :| j in Queued(m, id);
      assert first != id;
      assert first in Queued(m, id);
      assert Queued(m', id) == Queued(m, id) - {first};
    }
  }

  /** A queue with a pending task has a head. */
  lemma NextPending(m: Machine, id: string) returns (first: string)
    requires WellFormed(m) && IsIn(m, id, Pending)
    ensures IsNext(m, first) && Next(m).Some?
  {
    assert id in Ids(m, Pending);
    first := Least(m, Ids(m, Pending));
    assert IsNext(m, first);
  }

  lemma {:induction false} Least(m: Machine, ids: set<string>) returns (first: string)
    requires WellFormed(m) && ids <= Ids(m, Pending) && ids != {}
    ensures first in ids && forall j | j in ids :: j == first || Ahead(m, first, j)
    decreases |ids|
  {
    var x :| x in ids;
    if ids == {x} {
      return x;
    }
    var y := Least(m, ids - {x});
    first := if Ahead(m, x, y) then x else y;
    assert ids == (ids - {x}) + {x};
  }

  /** With n pending tasks before it, a task is served by the claim number n + 1, whatever the attempts' names. */
  lemma {:induction false} ServedInTurn(m: Machine, id: string, attempts: seq<string>, expires: int)
    requires WellFormed(m) && IsIn(m, id, Pending) && |attempts| == |Queued(m, id)| + 1
    ensures Holds(Run(m, ClaimAll(attempts, expires)), id, attempts[|attempts| - 1])
    decreases |attempts|
  {
    var ops := ClaimAll(attempts, expires);
    var m' := Apply(m, ops[0]);
    assert ops[1..] == ClaimAll(attempts[1..], expires);
    ClaimServes(m, id, attempts[0], expires);
    ApplyWellFormed(m, ops[0]);
    hide Apply, WellFormed;
    if Queued(m, id) == {} {
      assert ops[1..] == [];
    } else {
      ServedInTurn(m', id, attempts[1..], expires);
    }
  }

  // ---- an unfinished task is where its next step looks ----

  ghost predicate Movable(m: Machine, source: Source, now: int, limit: nat, id: string) {
    exists n: nat :: IsIn(Run(m, MoveAll(source, now, limit, n)), id, Pending)
  }

  /** An unfinished task whose time has come is found by its next step, whatever the limit of that step:
      MoveReady comes to a scheduled or retrying task, Claim to a pending one, and recovery lists an
      active one as soon as fewer than `limit` leases expired before its own. */
  lemma NextStepFindsTask(m: Machine, id: string, now: int, limit: nat, expires: int)
    requires WellFormed(m) && id in m.tasks && m.tasks[id].due <= now && limit > 0
    ensures IsIn(m, id, Scheduled) ==> Movable(m, FromScheduled, now, limit, id)
    ensures IsIn(m, id, Retry) ==> Movable(m, FromRetry, now, limit, id)
    ensures IsIn(m, id, Pending) ==>
      forall attempts: seq<string> | |attempts| == |Queued(m, id)| + 1 ::
        Holds(Run(m, ClaimAll(attempts, expires)), id, attempts[|attempts| - 1])
    ensures IsIn(m, id, Active) ==> (id in DueIds(m, Active, now, limit) <==> |Before(m, Active, id)| < limit)
  {
    hide Run, DueIds, WellFormed, Before, MoveAll, ClaimAll, Queued;
    match m.tasks[id].state
    case Scheduled => FoundByMoving(m, FromScheduled, now, limit, id);
    case Retry => FoundByMoving(m, FromRetry, now, limit, id);
    case Active => ListedIff(m, Active, now, limit, id);
    case Pending =>
      forall attempts: seq<string> | |attempts| == |Queued(m, id)| + 1
        ensures Holds(Run(m, ClaimAll(attempts, expires)), id, attempts[|attempts| - 1])
      {
        ServedInTurn(m, id, attempts, expires);
      }
    case _ =>
  }

  lemma FoundByMoving(m: Machine, source: Source, now: int, limit: nat, id: string)
    requires IsIn(m, id, source.State()) && m.tasks[id].due <= now && limit > 0
    ensures Movable(m, source, now, limit, id)
  {
    hide Run, Before, MoveAll;
    var size := |Before(m, source.State(), id)|;
    Enough(size, limit);
    MovedInTurn(m, source, now, limit, size + 1, id);
  }

  lemma Enough(size: nat, limit: nat)
    requires limit > 0
    ensures size < (size + 1) * limit
  {
    assert (size + 1) * limit == (size + 1) * (limit - 1) + size + 1;
  }

  // ---- after an attempt has ended ----

  lemma {:induction false} RunAppend(m: Machine, a: seq<Op>, b: seq<Op>)
    ensures Run(m, a + b) == Run(Run(m, a), b)
    decreases |a|
  {
    if a == [] {
      assert a + b == b;
    } else {
      assert (a + b)[1..] == a[1..] + b;
      RunAppend(Apply(m, a[0]), a[1..], b);
    }
  }

  lemma {:induction false} EndCountAppend(m: Machine, a: seq<Op>, b: seq<Op>, attempt: string)
    ensures EndCount(m, a + b, attempt) == EndCount(m, a, attempt) + EndCount(Run(m, a), b, attempt)
    decreases |a|
  {
    if a == [] {
      assert a + b == b;
    } else {
      assert (a + b)[1..] == a[1..] + b;
      EndCountAppend(Apply(m, a[0]), a[1..], b, attempt);
    }
  }

  /** Once an attempt has had its outcome, any later call that carries it, heartbeats included,
      leaves the queue as it is, however the run went on. */
  lemma EndedAttemptIsFenced(ops: seq<Op>, later: seq<Op>, attempt: string, op: Op)
    requires Fresh(ops + later, {}) && EndCount(EMPTY, ops, attempt) == 1
    requires
      || ((op.Ack? || op.ScheduleRetry? || op.Archive? || op.Requeue?) && op.attempt == attempt)
      || (op.ExtendLease? && forall c | c in op.claims :: c.1 == attempt)
    ensures Apply(Run(EMPTY, ops + later), op) == Run(EMPTY, ops + later)
  {
    EndCountAppend(EMPTY, ops, later, attempt);
    OneOutcomePerAttempt(ops + later, attempt);
    StaleCallsDoNothing(Run(EMPTY, ops + later), op, attempt);
  }

  // ---- what the indexes count ----

  /** Members that each name their own id are as many as the ids. */
  lemma {:induction false} NamesCount(members: set<string>, names: map<string, string>)
    requires forall j | j in members :: RankMember.IdOf(j) in names && names[RankMember.IdOf(j)] == j
    requires forall id | id in names :: names[id] in members && RankMember.IdOf(names[id]) == id
    ensures |members| == |names|
    decreases |members|
  {
    hide RankMember.IdOf;
    if members == {} {
      assert names == map[];
    } else {
      var j :| j in members;
      var id := RankMember.IdOf(j);
      assert names.Keys == (names - {id}).Keys + {id};
      NamesCount(members - {j}, names - {id});
    }
  }

  /** PendingCount, a ZCARD of `pending_rank`, is the number of pending tasks. */
  lemma PendingCountIsExact(k: Keys, m: Machine)
    requires Represents(k, m)
    ensures |k.pendingRank| == |Ids(m, Pending)|
  {
    hide Represents, RankMember.Member, RankMember.IdOf;
    var names := map id | id in Ids(m, Pending) :: RankMember.Member(m.tasks[id].seqno, id);
    forall j | j in k.pendingRank
      ensures RankMember.IdOf(j) in names && names[RankMember.IdOf(j)] == j
    {
      RankLocated(k, m, j);
    }
    forall id | id in names
      ensures names[id] in k.pendingRank.Keys && RankMember.IdOf(names[id]) == id
    {
      Located(k, m, id);
      RankMember.IdRoundTrip(m.tasks[id].seqno, id);
    }
    NamesCount(k.pendingRank.Keys, names);
    assert names.Keys == Ids(m, Pending);
  }

  lemma IndexSize(m: Machine, s: State)
    ensures |Index(m, s)| == |Ids(m, s)|
  {
    assert Index(m, s).Keys == Ids(m, s);
  }

  lemma Peel(all: set<string>, part: set<string>)
    requires part <= all
    ensures |all| == |part| + |all - part|
  {
    assert all == part + (all - part);
  }

  function StateNumber(s: State): nat {
    match s
    case Pending => 0
    case Scheduled => 1
    case Retry => 2
    case Active => 3
    case Archived => 4
    case Completed => 5
  }

  /** Tasks whose states come at number n or later. */
  ghost function From(m: Machine, n: nat): set<string> {
    set id | id in m.tasks && n <= StateNumber(m.tasks[id].state)
  }

  lemma PeelState(m: Machine, s: State)
    ensures |From(m, StateNumber(s))| == |Ids(m, s)| + |From(m, StateNumber(s) + 1)|
  {
    var all, part, rest := From(m, StateNumber(s)), Ids(m, s), From(m, StateNumber(s) + 1);
    forall id
      ensures id in rest <==> id in all && id !in part
      ensures id in part ==> id in all
    {
    }
    hide From, Ids;
    assert rest == all - part;
    Peel(all, part);
  }

  lemma StatesPartition(m: Machine)
    ensures |m.tasks| == |Ids(m, Pending)| + |Ids(m, Scheduled)| + |Ids(m, Retry)| + |Ids(m, Active)|
                         + |Ids(m, Archived)| + |Ids(m, Completed)|
  {
    assert m.tasks.Keys == From(m, 0) && From(m, 6) == {};
    hide From, Ids;
    PeelState(m, Pending);
    PeelState(m, Scheduled);
    PeelState(m, Retry);
    PeelState(m, Active);
    PeelState(m, Archived);
    PeelState(m, Completed);
  }

  /** Every task is in one state: the tasks number the entries of the indexes plus the completed records. */
  lemma Census(k: Keys, m: Machine)
    requires Represents(k, m)
    ensures |k.tasks| == |k.pendingRank| + |k.scheduled| + |k.retry| + |k.lease| + |k.archived| + |Ids(m, Completed)|
    ensures |k.pending| == |k.pendingRank| && |k.active| == |k.lease|
  {
    hide Index, Ids, RankIndex, WellFormed;
    PendingCountIsExact(k, m);
    IndexSize(m, Scheduled);
    IndexSize(m, Retry);
    IndexSize(m, Active);
    IndexSize(m, Archived);
    StatesPartition(m);
    assert k.tasks.Keys == m.tasks.Keys;
    assert |multiset(k.pending)| == |multiset(Ids(m, Pending))| && |multiset(k.active)| == |multiset(Ids(m, Active))|;
  }

  // ---- the keys hide nothing ----

  lemma SameTask(k: Keys, a: Machine, b: Machine, id: string)
    requires Represents(k, a) && Represents(k, b) && id in a.tasks && id in b.tasks
    ensures a.tasks[id] == b.tasks[id]
  {
    var t, u := a.tasks[id], b.tasks[id];
    assert RecordOf(id, t) == k.tasks[id] == RecordOf(id, u);
    RankMember.MemberInjective(t.seqno, id, u.seqno, id);
    assert Index(a, t.state) == Index(b, t.state) || t.state in {Pending, Completed};
    hide RankIndex, Records, RankMember.Member;
    if t.state !in {Pending, Completed} {
      assert id in Index(a, t.state) && id in Index(b, t.state);
    }
  }

  /** Keys represent one machine at most, so what is proved of the machine is proved of the keys. */
  lemma KeysDetermineMachine(k: Keys, a: Machine, b: Machine)
    requires Represents(k, a) && Represents(k, b)
    ensures a == b
  {
    hide Index, Ids, Records, RankIndex, WellFormed;
    assert a.sequence == b.sequence;
    hide Represents;
    forall id
      ensures id in a.tasks <==> id in b.tasks
      ensures id in a.tasks ==> a.tasks[id] == b.tasks[id]
    {
      Located(k, a, id);
      Located(k, b, id);
      if id in a.tasks {
        SameTask(k, a, b, id);
      }
    }
    assert a.tasks == b.tasks;
  }
}
