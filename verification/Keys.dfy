/** The nine Redis keys of one queue, and what it means for them to hold a TaskMachine. */
module Keys {
  import opened Values
  import opened TaskMachine
  import Redis
  import RankMember

  /** A task hash. Fields a script reads with HGET may be absent. */
  datatype Record = Record(
    msg: Message, state: State, rank: Option<int>, rankMember: Option<string>, attempt: Option<string>)

  datatype Keys = Keys(
    tasks: map<string, Record>,
    pending: seq<string>, pendingRank: Redis.ZSet, sequence: nat,
    scheduled: Redis.ZSet, retry: Redis.ZSet,
    active: seq<string>, lease: Redis.ZSet, archived: Redis.ZSet)

  function RecordOf(id: string, t: Task): Record {
    Record(t.msg, t.state, Some(t.rank), Some(RankMember.Member(t.seqno, id)), t.attempt)
  }

  function Records(m: Machine): map<string, Record> {
    map id | id in m.tasks :: RecordOf(id, m.tasks[id])
  }

  predicate IsPendingMember(m: Machine, k: string) {
    var id := RankMember.IdOf(k);
    id in m.tasks && m.tasks[id].state == Pending && k == RankMember.Member(m.tasks[id].seqno, id)
  }

  function PendingMembers(m: Machine): set<string> {
    set id | id in m.tasks && m.tasks[id].state == Pending :: RankMember.Member(m.tasks[id].seqno, id)
  }

  lemma PendingMembersAre(m: Machine, k: string)
    ensures k in PendingMembers(m) <==> IsPendingMember(m, k)
  {
    if k in PendingMembers(m) {
      var id :| id in m.tasks && m.tasks[id].state == Pending && k == RankMember.Member(m.tasks[id].seqno, id);
      RankMember.IdRoundTrip(m.tasks[id].seqno, id);
    }
  }

  function RankIndex(m: Machine): Redis.ZSet {
    map k | k in PendingMembers(m) && IsPendingMember(m, k) :: m.tasks[RankMember.IdOf(k)].rank
  }

  ghost predicate Stores(k: Keys, m: Machine) {
    && k.tasks == Records(m)
    && k.sequence == m.sequence
    && k.pendingRank == RankIndex(m)
    && k.scheduled == Index(m, Scheduled)
    && k.retry == Index(m, Retry)
    && k.lease == Index(m, Active)
    && k.archived == Index(m, Archived)
    && multiset(k.pending) == multiset(Ids(m, Pending))
    && multiset(k.active) == multiset(Ids(m, Active))
  }

  ghost predicate Represents(k: Keys, m: Machine) {
    WellFormed(m) && Stores(k, m)
  }

  // ---- how the keys follow a change to one task ----

  ghost predicate SamePlace(m: Machine, id: string, t: Task) {
    id in m.tasks ==> m.tasks[id].seqno == t.seqno
  }

  lemma RecordsFollow(m: Machine, id: string, t: Task)
    ensures Records(With(m, id, t)) == Records(m)[id := RecordOf(id, t)]
  {
  }

  function IndexAfter(z: Redis.ZSet, s: State, id: string, t: Task): Redis.ZSet {
    if t.state == s then z[id := t.due] else z - {id}
  }

  lemma IndexFollows(m: Machine, id: string, t: Task, s: State)
    ensures Index(With(m, id, t), s) == IndexAfter(Index(m, s), s, id, t)
    ensures Ids(With(m, id, t), s) == if t.state == s then Ids(m, s) + {id} else Ids(m, s) - {id}
  {
  }

  lemma RankIndexHolds(m: Machine, k: string)
    ensures k in RankIndex(m) <==> IsPendingMember(m, k)
    ensures k in RankIndex(m) ==> RankIndex(m)[k] == m.tasks[RankMember.IdOf(k)].rank
  {
    PendingMembersAre(m, k);
  }

  lemma MemberFollows(m: Machine, id: string, t: Task, j: string)
    requires SamePlace(m, id, t)
    ensures IsPendingMember(With(m, id, t), j) <==>
            if j == RankMember.Member(t.seqno, id) then t.state == Pending else IsPendingMember(m, j)
    ensures IsPendingMember(m, j) && j != RankMember.Member(t.seqno, id) ==> RankMember.IdOf(j) != id
  {
    RankMember.IdRoundTrip(t.seqno, id);
  }

  function RankIndexAfter(z: Redis.ZSet, id: string, t: Task): Redis.ZSet {
    var k := RankMember.Member(t.seqno, id);
    if t.state == Pending then z[k := t.rank] else z - {k}
  }

  lemma RankIndexFollowsAt(m: Machine, id: string, t: Task, j: string)
    requires SamePlace(m, id, t)
    ensures j in RankIndex(With(m, id, t)) <==> j in RankIndexAfter(RankIndex(m), id, t)
    ensures j in RankIndex(With(m, id, t)) ==> RankIndex(With(m, id, t))[j] == RankIndexAfter(RankIndex(m), id, t)[j]
  {
    RankMember.IdRoundTrip(t.seqno, id);
    RankIndexHolds(m, j);
    RankIndexHolds(With(m, id, t), j);
    MemberFollows(m, id, t, j);
  }

  lemma SameZSet(a: Redis.ZSet, b: Redis.ZSet)
    requires forall j :: j in a <==> j in b
    requires forall j | j in a :: a[j] == b[j]
    ensures a == b
  {
  }

  lemma RankIndexFollows(m: Machine, id: string, t: Task)
    requires SamePlace(m, id, t)
    ensures RankIndex(With(m, id, t)) == RankIndexAfter(RankIndex(m), id, t)
  {
    var a, b := RankIndex(With(m, id, t)), RankIndexAfter(RankIndex(m), id, t);
    forall j
      ensures j in a <==> j in b
      ensures j in a ==> a[j] == b[j]
    {
      RankIndexFollowsAt(m, id, t, j);
    }
    SameZSet(a, b);
  }

  /** The list of a state after one of its tasks was added or dropped. */
  lemma ListFollows(before: seq<string>, ids: set<string>, id: string)
    requires multiset(before) == multiset(ids)
    ensures id !in ids ==> multiset([id] + before) == multiset(ids + {id})
    ensures id !in ids ==> multiset(before + [id]) == multiset(ids + {id})
    ensures multiset(Redis.Remove1(before, id)) == multiset(ids - {id})
    ensures id !in ids ==> Redis.Remove1(before, id) == before
  {
    Redis.Remove1Multiset(before, id);
    if id !in ids {
      assert id !in multiset(before);
      Remove1Absent(before, id);
    }
  }

  lemma {:induction false} Remove1Absent(s: seq<string>, id: string)
    requires id !in s
    ensures Redis.Remove1(s, id) == s
  {
    if s != [] {
      Remove1Absent(s[1..], id);
    }
  }

  /** Keys updated for one task hold the machine updated for that task. */
  lemma Follow(k: Keys, m: Machine, id: string, t: Task, k': Keys)
    requires Stores(k, m) && SamePlace(m, id, t)
    requires k'.tasks == k.tasks[id := RecordOf(id, t)] && k'.sequence == k.sequence
    requires k'.pendingRank == RankIndexAfter(k.pendingRank, id, t)
    requires k'.scheduled == IndexAfter(k.scheduled, Scheduled, id, t)
    requires k'.retry == IndexAfter(k.retry, Retry, id, t)
    requires k'.lease == IndexAfter(k.lease, Active, id, t)
    requires k'.archived == IndexAfter(k.archived, Archived, id, t)
    requires
      multiset(k'.pending) == multiset(if t.state == Pending then Ids(m, Pending) + {id} else Ids(m, Pending) - {id})
    requires multiset(k'.active) == multiset(if t.state == Active then Ids(m, Active) + {id} else Ids(m, Active) - {id})
    ensures Stores(k', With(m, id, t))
  {
    hide Index, Ids, Records, RankIndex, RankIndexAfter;
    RecordsFollow(m, id, t);
    RankIndexFollows(m, id, t);
    IndexFollows(m, id, t, Scheduled);
    IndexFollows(m, id, t, Retry);
    IndexFollows(m, id, t, Active);
    IndexFollows(m, id, t, Archived);
    IndexFollows(m, id, t, Pending);
  }

  lemma SequenceApart(m: Machine, n: nat)
    ensures
      var m' := m.(sequence := n);
      && Records(m') == Records(m) && RankIndex(m') == RankIndex(m)
      && (forall s :: Index(m', s) == Index(m, s) && Ids(m', s) == Ids(m, s))
  {
    var m' := m.(sequence := n);
    forall j
      ensures j in RankIndex(m) <==> j in RankIndex(m')
      ensures j in RankIndex(m) ==> RankIndex(m)[j] == RankIndex(m')[j]
    {
      RankIndexHolds(m, j);
      RankIndexHolds(m', j);
    }
    SameZSet(RankIndex(m), RankIndex(m'));
  }

  /** The rank member of a pending task, and of no other, is in `pending_rank`, with its rank. */
  lemma RankLocated(k: Keys, m: Machine, j: string)
    requires Represents(k, m)
    ensures
      var id := RankMember.IdOf(j);
      j in k.pendingRank <==> id in Ids(m, Pending) && j == RankMember.Member(m.tasks[id].seqno, id)
    ensures j in k.pendingRank ==> k.pendingRank[j] == m.tasks[RankMember.IdOf(j)].rank
  {
    hide Index, Records, RankIndex, WellFormed;
    RankIndexHolds(m, j);
  }

  /** Each task sits in exactly the index its state names, once; an id no task has is in no index. */
  lemma Located(k: Keys, m: Machine, id: string)
    requires Represents(k, m)
    ensures id in k.tasks <==> id in m.tasks
    ensures id in k.tasks ==> k.tasks[id] == RecordOf(id, m.tasks[id])
    ensures id in k.tasks ==>
      (RankMember.Member(m.tasks[id].seqno, id) in k.pendingRank <==> m.tasks[id].state == Pending)
    ensures forall s :: id in Ids(m, s) <==> id in m.tasks && m.tasks[id].state == s
    ensures id in k.scheduled <==> id in Ids(m, Scheduled)
    ensures id in k.retry <==> id in Ids(m, Retry)
    ensures id in k.lease <==> id in Ids(m, Active)
    ensures id in k.archived <==> id in Ids(m, Archived)
    ensures multiset(k.pending)[id] == if id in Ids(m, Pending) then 1 else 0
    ensures multiset(k.active)[id] == if id in Ids(m, Active) then 1 else 0
  {
    hide RankIndex, WellFormed;
    if id in m.tasks {
      RankLocated(k, m, RankMember.Member(m.tasks[id].seqno, id));
      RankMember.IdRoundTrip(m.tasks[id].seqno, id);
    }
  }

  function ZLeave(z: Redis.ZSet, s: State, id: string, t: Task): Redis.ZSet {
    if t.state == s then z - {id} else z
  }

  function ZEnter(z: Redis.ZSet, s: State, id: string, t: Task): Redis.ZSet {
    if t.state == s then z[id := t.due] else z
  }

  /** The keys after the commands that take a task out of the index of its state. */
  function Leave(k: Keys, id: string, t: Task): Keys {
    Keys(k.tasks,
         if t.state == Pending then Redis.Remove1(k.pending, id) else k.pending,
         if t.state == Pending then k.pendingRank - {RankMember.Member(t.seqno, id)} else k.pendingRank,
         k.sequence,
         ZLeave(k.scheduled, Scheduled, id, t), ZLeave(k.retry, Retry, id, t),
         if t.state == Active then Redis.Remove1(k.active, id) else k.active,
         ZLeave(k.lease, Active, id, t), ZLeave(k.archived, Archived, id, t))
  }

  /** The keys after the commands that record a task and put it in the index of its state. */
  function Enter(k: Keys, id: string, t: Task): Keys {
    Keys(k.tasks[id := RecordOf(id, t)],
         if t.state == Pending then [id] + k.pending else k.pending,
         if t.state == Pending then k.pendingRank[RankMember.Member(t.seqno, id) := t.rank] else k.pendingRank,
         k.sequence,
         ZEnter(k.scheduled, Scheduled, id, t), ZEnter(k.retry, Retry, id, t),
         if t.state == Active then k.active + [id] else k.active,
         ZEnter(k.lease, Active, id, t), ZEnter(k.archived, Archived, id, t))
  }

  lemma ZShift(z: Redis.ZSet, s: State, id: string, from: Task, to: Task)
    requires id in z <==> from.state == s
    requires from.state != to.state
    ensures ZEnter(ZLeave(z, s, id, from), s, id, to) == IndexAfter(z, s, id, to)
  {
  }

  lemma ListShift(before: seq<string>, ids: set<string>, id: string, from: bool, to: bool)
    requires multiset(before) == multiset(ids)
    requires (id in ids <==> from) && !(from && to)
    ensures
      var left := if from then Redis.Remove1(before, id) else before;
      var after := if to then ids + {id} else ids - {id};
      && multiset(if to then [id] + left else left) == multiset(after)
      && multiset(if to then left + [id] else left) == multiset(after)
  {
    ListFollows(before, ids, id);
  }

  lemma RankShift(k: Keys, m: Machine, id: string, from: Task, to: Task)
    requires RankMember.Member(from.seqno, id) in k.pendingRank <==> from.state == Pending
    requires from.seqno == to.seqno && from.state != to.state
    ensures Enter(Leave(k, id, from), id, to).pendingRank == RankIndexAfter(k.pendingRank, id, to)
  {
  }

  /** Moving a task from the index of one state to that of another keeps the representation. */
  lemma ShiftFollows(k: Keys, m: Machine, id: string, t: Task)
    requires Represents(k, m) && id in m.tasks && WellFormed(With(m, id, t))
    requires t.seqno == m.tasks[id].seqno && t.state != m.tasks[id].state
    ensures Represents(Enter(Leave(k, id, m.tasks[id]), id, t), With(m, id, t))
  {
    hide Index, Ids, Records, RankIndex, WellFormed, RecordOf, IndexAfter, RankIndexAfter, ZLeave, ZEnter, With;
    var from := m.tasks[id];
    Located(k, m, id);
    ListShift(k.pending, Ids(m, Pending), id, from.state == Pending, t.state == Pending);
    ListShift(k.active, Ids(m, Active), id, from.state == Active, t.state == Active);
    ZShift(k.scheduled, Scheduled, id, from, t);
    ZShift(k.retry, Retry, id, from, t);
    ZShift(k.lease, Active, id, from, t);
    ZShift(k.archived, Archived, id, from, t);
    RankShift(k, m, id, from, t);
    Follow(k, m, id, t, Enter(Leave(k, id, from), id, t));
  }

  lemma ZFresh(z: Redis.ZSet, s: State, id: string, t: Task)
    requires id !in z
    ensures ZEnter(z, s, id, t) == IndexAfter(z, s, id, t)
  {
  }

  lemma RankFresh(k: Keys, id: string, t: Task)
    requires RankMember.Member(t.seqno, id) !in k.pendingRank
    ensures Enter(k, id, t).pendingRank == RankIndexAfter(k.pendingRank, id, t)
  {
  }

  lemma EnterFollows(k: Keys, m: Machine, id: string, t: Task)
    requires Stores(k, m) && id !in m.tasks
    requires RankMember.Member(t.seqno, id) !in k.pendingRank
    requires id !in k.scheduled && id !in k.retry && id !in k.lease && id !in k.archived
    requires id !in Ids(m, Pending) && id !in Ids(m, Active)
    ensures Stores(Enter(k, id, t), With(m, id, t))
  {
    hide Index, Ids, Records, RankIndex, RecordOf, IndexAfter, RankIndexAfter, ZEnter, With;
    ListShift(k.pending, Ids(m, Pending), id, false, t.state == Pending);
    ListShift(k.active, Ids(m, Active), id, false, t.state == Active);
    ZFresh(k.scheduled, Scheduled, id, t);
    ZFresh(k.retry, Retry, id, t);
    ZFresh(k.lease, Active, id, t);
    ZFresh(k.archived, Archived, id, t);
    RankFresh(k, id, t);
    Follow(k, m, id, t, Enter(k, id, t));
  }

  /** Recording a new task under the next sequence number keeps the representation. */
  lemma CreateFollows(k: Keys, m: Machine, id: string, t: Task)
    requires Represents(k, m) && id !in m.tasks && WellFormed(Create(m, id, t))
    ensures Represents(Enter(k.(sequence := k.sequence + 1), id, t), Create(m, id, t))
  {
    hide Index, Ids, Records, RankIndex, WellFormed, RecordOf, Enter, RankMember.Member, RankMember.IdOf;
    var k0, m0 := k.(sequence := k.sequence + 1), m.(sequence := m.sequence + 1);
    SequenceApart(m, m.sequence + 1);
    Located(k, m, id);
    RankLocated(k, m, RankMember.Member(t.seqno, id));
    RankMember.IdRoundTrip(t.seqno, id);
    EnterFollows(k0, m0, id, t);
  }

  lemma PendingListed(k: Keys, m: Machine)
    requires Represents(k, m)
    ensures k.pendingRank == map[] <==> Ids(m, Pending) == {}
  {
    hide Stores, Index, Records, WellFormed, RankMember.Member, RankMember.IdOf;
    if k.pendingRank != map[] {
      var j :| j in k.pendingRank;
      RankLocated(k, m, j);
    }
    if Ids(m, Pending) != {} {
      var id :| id in Ids(m, Pending);
      Located(k, m, id);
    }
  }

  lemma MinIsNext(k: Keys, m: Machine)
    requires Represents(k, m) && k.pendingRank != map[]
    ensures
      var j := Redis.Min(k.pendingRank);
      var id := RankMember.IdOf(j);
      IsNext(m, id) && j == RankMember.Member(m.tasks[id].seqno, id)
  {
    hide Stores, Index, Records, WellFormed, RankMember.Member, RankMember.IdOf;
    var j := Redis.Min(k.pendingRank);
    var id := RankMember.IdOf(j);
    RankLocated(k, m, j);
    forall other | other in Ids(m, Pending) && other != id
      ensures Ahead(m, id, other)
    {
      MinIsAhead(k, m, id, other);
    }
  }

  /** The least member of `pending_rank` names the head of the priority queue. */
  lemma NextIsMin(k: Keys, m: Machine)
    requires Represents(k, m)
    ensures k.pendingRank == map[] ==> Next(m) == None
    ensures k.pendingRank != map[] ==>
      var j := Redis.Min(k.pendingRank);
      var id := RankMember.IdOf(j);
      Next(m) == Some(id) && IsNext(m, id) && j == RankMember.Member(m.tasks[id].seqno, id)
  {
    hide Represents, RankMember.Member, RankMember.IdOf;
    PendingListed(k, m);
    if k.pendingRank != map[] {
      MinIsNext(k, m);
      NextUnique(m, Next(m).value, RankMember.IdOf(Redis.Min(k.pendingRank)));
    }
  }

  lemma MinIsAhead(k: Keys, m: Machine, id: string, other: string)
    requires Represents(k, m) && id in Ids(m, Pending) && other in Ids(m, Pending) && other != id
    requires Redis.IsMin(k.pendingRank, RankMember.Member(m.tasks[id].seqno, id))
    ensures Ahead(m, id, other)
  {
    hide Stores, Index, Records, RankMember.Member, RankMember.IdOf;
    var j, j' := RankMember.Member(m.tasks[id].seqno, id), RankMember.Member(m.tasks[other].seqno, other);
    RankMember.IdRoundTrip(m.tasks[id].seqno, id);
    RankMember.IdRoundTrip(m.tasks[other].seqno, other);
    RankLocated(k, m, j);
    RankLocated(k, m, j');
    assert Redis.Before(k.pendingRank, j, j');
    RankMember.MemberOrder(m.tasks[id].seqno, id, m.tasks[other].seqno, other);
  }

  /** A heartbeat changes the lease's time and nothing else. */
  lemma LeaseFollows(k: Keys, m: Machine, id: string, due: int)
    requires Represents(k, m) && id in Ids(m, Active)
    ensures
      var m' := With(m, id, m.tasks[id].(due := due));
      WellFormed(m') && Represents(k.(lease := k.lease[id := due]), m')
  {
    var t := m.tasks[id].(due := due);
    LeaseWellFormed(m, id, due);
    hide Index, Records, RankIndex, WellFormed, RecordOf, RankIndexAfter, IndexAfter, Ids, With;
    SameTasks(k, m, id, due);
    LeaseIds(m, id);
    Follow(k, m, id, t, k.(lease := k.lease[id := due]));
  }

  lemma LeaseIds(m: Machine, id: string)
    requires id in Ids(m, Active)
    ensures Ids(m, Active) + {id} == Ids(m, Active) && Ids(m, Pending) - {id} == Ids(m, Pending)
  {
  }

  /** Commands that name an active task outside `lease` and `active` change nothing. */
  lemma SameTasks(k: Keys, m: Machine, id: string, due: int)
    requires Represents(k, m) && id in Ids(m, Active)
    ensures
      var t := m.tasks[id].(due := due);
      && k.lease[id := due] == IndexAfter(k.lease, Active, id, t)
      && k.tasks == k.tasks[id := RecordOf(id, t)]
      && k.pendingRank == RankIndexAfter(k.pendingRank, id, t)
      && k.scheduled == IndexAfter(k.scheduled, Scheduled, id, t)
      && k.retry == IndexAfter(k.retry, Retry, id, t)
      && k.archived == IndexAfter(k.archived, Archived, id, t)
  {
    hide Stores, Index, Records, RankIndex, WellFormed, RankMember.Member;
    Located(k, m, id);
  }

  lemma IndexDrops(m: Machine, id: string, s: State)
    ensures Index(Removed(m, {id}), s) == Index(m, s) - {id}
    ensures Ids(Removed(m, {id}), s) == Ids(m, s) - {id}
  {
  }

  lemma RankIndexDropsAt(m: Machine, id: string, j: string)
    requires id !in Ids(m, Pending)
    ensures j in RankIndex(Removed(m, {id})) <==> j in RankIndex(m)
    ensures j in RankIndex(m) ==> RankIndex(Removed(m, {id}))[j] == RankIndex(m)[j]
  {
    hide RankIndex, RankMember.IdOf, RankMember.Member;
    RankIndexHolds(m, j);
    RankIndexHolds(Removed(m, {id}), j);
  }

  lemma RankIndexDrops(m: Machine, id: string)
    requires id !in Ids(m, Pending)
    ensures RankIndex(Removed(m, {id})) == RankIndex(m)
  {
    hide RankIndex, Removed;
    var a, b := RankIndex(Removed(m, {id})), RankIndex(m);
    forall j
      ensures j in a <==> j in b
      ensures j in a ==> a[j] == b[j]
    {
      RankIndexDropsAt(m, id, j);
    }
    SameZSet(a, b);
  }

  lemma RecordsDrop(m: Machine, id: string)
    ensures Records(Removed(m, {id})) == Records(m) - {id}
    ensures Removed(m, {id}).sequence == m.sequence
    ensures forall s | id !in Ids(m, s) :: Index(m, s) - {id} == Index(m, s)
  {
  }

  /** Deleting a dead letter keeps the representation. */
  lemma DropFollows(k: Keys, m: Machine, id: string)
    requires Represents(k, m) && id in Ids(m, Archived)
    ensures Represents(k.(tasks := k.tasks - {id}, archived := k.archived - {id}), Removed(m, {id}))
  {
    hide Index, Records, RankIndex, WellFormed, RankMember.Member, Removed;
    RemovedWellFormed(m, {id});
    RankIndexDrops(m, id);
    RecordsDrop(m, id);
    IndexDrops(m, id, Scheduled);
    IndexDrops(m, id, Retry);
    IndexDrops(m, id, Active);
    IndexDrops(m, id, Archived);
    IndexDrops(m, id, Pending);
    assert Ids(m, Active) - {id} == Ids(m, Active) && Ids(m, Pending) - {id} == Ids(m, Pending);
  }
}
