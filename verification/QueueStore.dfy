/** The store of one queue: the Lua scripts, command by command, on the queue's Redis keys. */
module QueueStore {
  import opened Values
  import opened TaskMachine
  import opened Keys
  import Redis
  import RankMember

  datatype Created = Stored | AlreadyExists | CounterOverflow

  class Queue {
    var keys: Keys
    ghost var machine: Machine

    ghost predicate Valid()
      reads this
    {
      Represents(keys, machine)
    }

    constructor ()
      ensures Valid() && machine == EMPTY
    {
      keys := Keys(map[], [], map[], 0, map[], map[], [], map[], map[]);
      machine := EMPTY;
    }

    /** The commands of a script moved a task from one index to another. */
    ghost method Shift(before: Keys, op: Op, id: string, t: Task)
      requires Represents(before, machine) && id in machine.tasks
      requires WellFormed(Apply(machine, op)) && Apply(machine, op) == With(machine, id, t)
      requires t.seqno == machine.tasks[id].seqno && t.state != machine.tasks[id].state
      requires keys == Enter(Leave(before, id, machine.tasks[id]), id, t)
      modifies this`machine
      ensures Valid() && machine == Apply(old(machine), op)
    {
      hide Represents, WellFormed, With, Enter, Leave, Apply;
      ShiftFollows(before, machine, id, t);
      machine := With(machine, id, t);
    }

    method Enqueue(msg: Message, rank: int) returns (r: Created)
      requires Valid()
      modifies this
      ensures Valid() && machine == Apply(old(machine), Op.Enqueue(msg, rank))
      ensures r == AlreadyExists <==> msg.id in old(machine).tasks
      ensures r == Stored <==> msg.id !in old(machine).tasks && old(machine).sequence < RankMember.MAX_SEQUENCE
      ensures r != Stored ==> keys == old(keys)
    {
      hide Represents, WellFormed, Apply, Succeeds, With, Create, Ids, Index, Next, IsNext;
      hide Redis.Min, Redis.IsMin, Redis.Remove1, RankMember.Member, RankMember.IdOf;
      var id := msg.id;
      ghost var before, m := keys, machine;
      Located(before, m, id);
      Sound(before, m);
      CreateApplies(m, Op.Enqueue(msg, rank));
      if id in keys.tasks { return AlreadyExists; }
      if keys.sequence == RankMember.MAX_SEQUENCE { return CounterOverflow; }
      keys := keys.(sequence := keys.sequence + 1);
      var member := RankMember.Member(keys.sequence, id);
      keys := keys.(tasks := keys.tasks[id := Record(msg, Pending, Some(rank), Some(member), None)]);
      keys := keys.(pending := [id] + keys.pending);
      keys := keys.(pendingRank := keys.pendingRank[member := rank]);
      ghost var t := Task(msg, Pending, rank, m.sequence + 1, None, 0);
      CreateFollows(before, m, id, t);
      machine := Create(m, id, t);
      return Stored;
    }

    method Schedule(msg: Message, rank: int, at: int) returns (r: Created)
      requires Valid()
      modifies this
      ensures Valid() && machine == Apply(old(machine), Op.Schedule(msg, rank, at))
      ensures r == AlreadyExists <==> msg.id in old(machine).tasks
      ensures r == Stored <==> msg.id !in old(machine).tasks && old(machine).sequence < RankMember.MAX_SEQUENCE
      ensures r != Stored ==> keys == old(keys)
    {
      hide Represents, WellFormed, Apply, Succeeds, With, Create, Ids, Index, Next, IsNext;
      hide Redis.Min, Redis.IsMin, Redis.Remove1, RankMember.Member, RankMember.IdOf;
      var id := msg.id;
      ghost var before, m := keys, machine;
      Located(before, m, id);
      Sound(before, m);
      CreateApplies(m, Op.Schedule(msg, rank, at));
      if id in keys.tasks { return AlreadyExists; }
      if keys.sequence == RankMember.MAX_SEQUENCE { return CounterOverflow; }
      keys := keys.(sequence := keys.sequence + 1);
      var member := RankMember.Member(keys.sequence, id);
      keys := keys.(tasks := keys.tasks[id := Record(msg, Scheduled, Some(rank), Some(member), None)]);
      keys := keys.(scheduled := keys.scheduled[id := at]);
      ghost var t := Task(msg, Scheduled, rank, m.sequence + 1, None, at);
      CreateFollows(before, m, id, t);
      machine := Create(m, id, t);
      return Stored;
    }

    /** Hand out the head of the queue. The script trusts `pending_rank` and never reads the state. */
    method Claim(attempt: string, expires: int) returns (claimed: Option<Message>)
      requires Valid()
      modifies this
      ensures Valid() && machine == Apply(old(machine), Op.Claim(attempt, expires))
      ensures
        claimed == if Next(old(machine)).Some? then Some(old(machine).tasks[Next(old(machine)).value].msg) else None
      ensures claimed == None ==> keys == old(keys)
    {
      hide Represents, WellFormed, Apply, Succeeds, With, Create, Ids, Index, Next, IsNext;
      hide Redis.Min, Redis.IsMin, Redis.Remove1, RankMember.Member, RankMember.IdOf;
      ghost var before, m := keys, machine;
      NextIsMin(before, m);
      Sound(before, m);
      ClaimApplies(m, attempt, expires);
      if keys.pendingRank == map[] { return None; }
      var member := Redis.Min(keys.pendingRank);
      keys := keys.(pendingRank := keys.pendingRank - {member});
      var candidate := RankMember.IdOf(member);
      Located(before, m, candidate);
      var known := candidate in keys.tasks && keys.tasks[candidate].rankMember == Some(member);
      var id := if known then candidate else member;
      assert id == candidate;
      keys := keys.(pending := Redis.Remove1(keys.pending, id));
      if id !in keys.tasks { assert false; }
      claimed := Some(keys.tasks[id].msg);
      keys := keys.(tasks := keys.tasks[id := keys.tasks[id].(state := Active, attempt := Some(attempt))]);
      keys := keys.(active := keys.active + [id]);
      keys := keys.(lease := keys.lease[id := expires]);
      ghost var t := m.tasks[id].(state := Active, attempt := Some(attempt), due := expires);
      Shift(before, Op.Claim(attempt, expires), id, t);
    }

    method Ack(msg: Message, attempt: string) returns (ok: bool)
      requires Valid()
      modifies this
      ensures Valid() && machine == Apply(old(machine), Op.Ack(msg, attempt))
      ensures ok <==> Holds(old(machine), msg.id, attempt)
      ensures !ok ==> keys == old(keys)
    {
      hide Represents, WellFormed, Apply, Succeeds, With, Create, Ids, Index, Next, IsNext;
      hide Redis.Min, Redis.IsMin, Redis.Remove1, RankMember.Member, RankMember.IdOf;
      var id := msg.id;
      ghost var before, m := keys, machine;
      Located(before, m, id);
      Sound(before, m);
      PutApplies(m, Op.Ack(msg, attempt));
      if id !in keys.tasks || keys.tasks[id].state != Active { return false; }
      if keys.tasks[id].attempt != Some(attempt) { return false; }
      keys := keys.(active := Redis.Remove1(keys.active, id));
      keys := keys.(lease := keys.lease - {id});
      keys := keys.(tasks := keys.tasks[id := keys.tasks[id].(msg := msg, state := Completed, attempt := None)]);
      Shift(before, Op.Ack(msg, attempt), id, Put(m.tasks[id], msg, Completed, 0));
      return true;
    }

    method ScheduleRetry(msg: Message, at: int, attempt: string) returns (ok: bool)
      requires Valid()
      modifies this
      ensures Valid() && machine == Apply(old(machine), Op.ScheduleRetry(msg, at, attempt))
      ensures ok <==> Holds(old(machine), msg.id, attempt)
      ensures !ok ==> keys == old(keys)
    {
      hide Represents, WellFormed, Apply, Succeeds, With, Create, Ids, Index, Next, IsNext;
      hide Redis.Min, Redis.IsMin, Redis.Remove1, RankMember.Member, RankMember.IdOf;
      var id := msg.id;
      ghost var before, m := keys, machine;
      Located(before, m, id);
      Sound(before, m);
      PutApplies(m, Op.ScheduleRetry(msg, at, attempt));
      if id !in keys.tasks || keys.tasks[id].state != Active { return false; }
      if keys.tasks[id].attempt != Some(attempt) { return false; }
      keys := keys.(active := Redis.Remove1(keys.active, id));
      keys := keys.(lease := keys.lease - {id});
      keys := keys.(tasks := keys.tasks[id := keys.tasks[id].(msg := msg, state := Retry, attempt := None)]);
      keys := keys.(retry := keys.retry[id := at]);
      Shift(before, Op.ScheduleRetry(msg, at, attempt), id, Put(m.tasks[id], msg, Retry, at));
      return true;
    }

    method Archive(msg: Message, at: int, attempt: string) returns (ok: bool)
      requires Valid()
      modifies this
      ensures Valid() && machine == Apply(old(machine), Op.Archive(msg, at, attempt))
      ensures ok <==> Holds(old(machine), msg.id, attempt)
      ensures !ok ==> keys == old(keys)
    {
      hide Represents, WellFormed, Apply, Succeeds, With, Create, Ids, Index, Next, IsNext;
      hide Redis.Min, Redis.IsMin, Redis.Remove1, RankMember.Member, RankMember.IdOf;
      var id := msg.id;
      ghost var before, m := keys, machine;
      Located(before, m, id);
      Sound(before, m);
      PutApplies(m, Op.Archive(msg, at, attempt));
      if id !in keys.tasks || keys.tasks[id].state != Active { return false; }
      if keys.tasks[id].attempt != Some(attempt) { return false; }
      keys := keys.(active := Redis.Remove1(keys.active, id));
      keys := keys.(lease := keys.lease - {id});
      keys := keys.(tasks := keys.tasks[id := keys.tasks[id].(msg := msg, state := Archived, attempt := None)]);
      keys := keys.(archived := keys.archived[id := at]);
      Shift(before, Op.Archive(msg, at, attempt), id, Put(m.tasks[id], msg, Archived, at));
      return true;
    }

    method Requeue(id: string, attempt: string) returns (ok: bool)
      requires Valid()
      modifies this
      ensures Valid() && machine == Apply(old(machine), Op.Requeue(id, attempt))
      ensures ok <==> Holds(old(machine), id, attempt)
      ensures !ok ==> keys == old(keys)
    {
      hide Represents, WellFormed, Apply, Succeeds, With, Create, Ids, Index, Next, IsNext;
      hide Redis.Min, Redis.IsMin, Redis.Remove1, RankMember.Member, RankMember.IdOf;
      ghost var before, m := keys, machine;
      Located(before, m, id);
      Sound(before, m);
      PutApplies(m, Op.Requeue(id, attempt));
      if id !in keys.tasks || keys.tasks[id].state != Active { return false; }
      if keys.tasks[id].attempt != Some(attempt) { return false; }
      var rank := keys.tasks[id].rank;
      var member := if keys.tasks[id].rankMember.Some? then keys.tasks[id].rankMember.value else id;
      keys := keys.(active := Redis.Remove1(keys.active, id));
      keys := keys.(lease := keys.lease - {id});
      keys := keys.(tasks := keys.tasks[id := keys.tasks[id].(state := Pending, attempt := None)]);
      keys := keys.(pending := [id] + keys.pending);
      keys := keys.(pendingRank := keys.pendingRank[member := rank.value]);
      Shift(before, Op.Requeue(id, attempt), id, Put(m.tasks[id], m.tasks[id].msg, Pending, 0));
      return true;
    }

    method Replay(id: string, msg: Message) returns (ok: bool)
      requires Valid()
      modifies this
      ensures Valid() && machine == Apply(old(machine), Op.Replay(id, msg))
      ensures ok <==> id in Ids(old(machine), Archived)
      ensures !ok ==> keys == old(keys)
    {
      hide Represents, WellFormed, Apply, Succeeds, With, Create, Ids, Index, Next, IsNext;
      hide Redis.Min, Redis.IsMin, Redis.Remove1, RankMember.Member, RankMember.IdOf;
      ghost var before, m := keys, machine;
      Located(before, m, id);
      Sound(before, m);
      PutApplies(m, Op.Replay(id, msg));
      if id !in keys.tasks || keys.tasks[id].state != Archived { return false; }
      var rank := keys.tasks[id].rank;
      var member := if keys.tasks[id].rankMember.Some? then keys.tasks[id].rankMember.value else id;
      if rank.None? { assert false; }
      if id !in keys.archived { assert false; }
      keys := keys.(archived := keys.archived - {id});
      keys := keys.(tasks := keys.tasks[id := keys.tasks[id].(msg := msg, state := Pending)]);
      keys := keys.(pending := [id] + keys.pending);
      keys := keys.(pendingRank := keys.pendingRank[member := rank.value]);
      Shift(before, Op.Replay(id, msg), id, Put(m.tasks[id], msg, Pending, 0));
      return true;
    }

    method Delete(id: string) returns (ok: bool)
      requires Valid()
      modifies this
      ensures Valid() && machine == Apply(old(machine), Op.Delete(id))
      ensures ok <==> id in Ids(old(machine), Archived)
      ensures !ok ==> keys == old(keys)
    {
      hide Represents, WellFormed, Apply, Succeeds, With, Create, Ids, Index, Next, IsNext;
      hide Redis.Min, Redis.IsMin, Redis.Remove1, RankMember.Member, RankMember.IdOf;
      ghost var before, m := keys, machine;
      Located(before, m, id);
      DeleteApplies(m, id);
      if id !in keys.tasks || keys.tasks[id].state != Archived { return false; }
      if id !in keys.archived { assert false; }
      keys := keys.(archived := keys.archived - {id});
      keys := keys.(tasks := keys.tasks - {id});
      DropFollows(before, m, id);
      machine := Removed(m, {id});
      return true;
    }

    /** One turn of the move-ready loop; 1 if the task was moved. */
    method Promote(source: Source, id: string) returns (moved: nat)
      requires Valid() && id in Ids(machine, source.State())
      modifies this
      ensures Valid() && moved == 1
      ensures machine == With(old(machine), id, old(machine).tasks[id].(state := Pending, due := 0))
    {
      hide Represents, WellFormed, Apply, Succeeds, With, Create, Ids, Index, Next, IsNext;
      hide Redis.Min, Redis.IsMin, Redis.Remove1, RankMember.Member, RankMember.IdOf;
      ghost var before, m := keys, machine;
      Located(before, m, id);
      InSource(before, m, source, id);
      PromoteWellFormed(before, m, source.State(), id);
      moved := 0;
      if id in if source.FromScheduled? then keys.scheduled else keys.retry {
        if source.FromScheduled? {
          keys := keys.(scheduled := keys.scheduled - {id});
        } else {
          keys := keys.(retry := keys.retry - {id});
        }
        var rank := if id in keys.tasks then keys.tasks[id].rank else None;
        if rank.Some? {
          var member := if keys.tasks[id].rankMember.Some? then keys.tasks[id].rankMember.value else id;
          keys := keys.(tasks := keys.tasks[id := keys.tasks[id].(state := Pending)]);
          keys := keys.(pending := [id] + keys.pending);
          keys := keys.(pendingRank := keys.pendingRank[member := rank.value]);
          moved := 1;
        }
      }
      ShiftFollows(before, m, id, m.tasks[id].(state := Pending, due := 0));
      machine := With(m, id, m.tasks[id].(state := Pending, due := 0));
    }

    /** Move due tasks to pending, earliest first. The script trusts the index and never reads the state. */
    method MoveReady(source: Source, now: int, limit: nat) returns (moved: nat)
      requires Valid()
      modifies this
      ensures Valid() && machine == Apply(old(machine), Op.MoveReady(source, now, limit))
      ensures moved == |DueIds(old(machine), source.State(), now, limit)|
    {
      hide Represents, WellFormed, Apply, Succeeds, With, Ids, Index, Promoted, DueIds, Redis.RangeByScore;
      ghost var m0 := machine;
      Sound(keys, m0);
      SourceListed(keys, m0, source, now);
      PromotedNone(m0);
      var ids := Redis.RangeByScore(if source.FromScheduled? then keys.scheduled else keys.retry, now);
      moved := 0;
      var i := 0;
      assert Members(ids[..0]) == {};
      while i < |ids|
        invariant 0 <= i == moved <= |ids| && moved <= limit
        invariant Valid() && machine == Promoted(m0, Members(ids[..i]))
      {
        if moved >= limit { break; }
        PromoteNext(m0, source.State(), ids, i);
        var n := Promote(source, ids[i]);
        moved := moved + n;
        i := i + 1;
      }
      MoveApplies(m0, source, now, limit, ids, i);
    }

    /** Delete old dead letters, oldest first. */
    method Cleanup(olderThan: int, limit: nat) returns (removed: nat)
      requires Valid()
      modifies this
      ensures Valid() && machine == Apply(old(machine), Op.Cleanup(olderThan, limit))
      ensures removed == |DueIds(old(machine), Archived, olderThan, limit)|
    {
      hide Represents, WellFormed, Apply, Succeeds, Ids, Index, Removed, DueIds, Redis.RangeByScore;
      ghost var m0 := machine;
      Sound(keys, m0);
      ArchivedListed(keys, m0, olderThan);
      RemovedNone(m0);
      var ids := Redis.RangeByScore(keys.archived, olderThan);
      removed := 0;
      var i := 0;
      assert Members(ids[..0]) == {};
      while i < |ids|
        invariant 0 <= i == removed <= |ids| && removed <= limit
        invariant Valid() && machine == Removed(m0, Members(ids[..i]))
      {
        if removed >= limit { break; }
        RemoveNext(m0, Archived, ids, i);
        DeleteApplies(machine, ids[i]);
        var deleted := Delete(ids[i]);
        if deleted { removed := removed + 1; }
        i := i + 1;
      }
      CleanupApplies(m0, olderThan, limit, ids, i);
    }

    /** One turn of the heartbeat script's loop. */
    method ExtendOne(id: string, attempt: string, expires: int) returns (extended: nat)
      requires Valid()
      modifies this
      ensures Valid() && keys == old(keys).(lease := keys.lease)
      ensures Holds(old(machine), id, attempt) ==>
        machine == With(old(machine), id, old(machine).tasks[id].(due := expires)) && extended == 1
      ensures !Holds(old(machine), id, attempt) ==> machine == old(machine) && keys == old(keys) && extended == 0
    {
      hide Represents, WellFormed, With, Ids;
      ghost var m := machine;
      Located(keys, m, id);
      extended := 0;
      if id in keys.tasks && keys.tasks[id].state == Active {
        if keys.tasks[id].attempt == Some(attempt) {
          LeaseFollows(keys, m, id, expires);
          keys := keys.(lease := keys.lease[id := expires]);
          machine := With(m, id, m.tasks[id].(due := expires));
          extended := 1;
        }
      } else {
        assert keys.lease - {id} == keys.lease;
        keys := keys.(lease := keys.lease - {id});
      }
    }

    /** Renew the leases of the attempts that still own their tasks. */
    method ExtendLease(claims: seq<(string, string)>, expires: int) returns (extended: nat)
      requires Valid()
      modifies this
      ensures Valid() && machine == Apply(old(machine), Op.ExtendLease(claims, expires))
      ensures keys == old(keys).(lease := keys.lease)
      ensures extended == HeldCount(old(machine), claims)
      ensures extended == 0 ==> keys == old(keys)
    {
      hide Represents, WellFormed, Apply, Succeeds, With, Ids, Index, Extended, Holds;
      ghost var m0 := machine;
      ExtendedNone(m0, [], expires);
      extended := 0;
      var i := 0;
      assert claims[..0] == [];
      while i < |claims|
        invariant 0 <= i <= |claims|
        invariant Valid() && machine == Extended(m0, claims[..i], expires)
        invariant keys == old(keys).(lease := keys.lease)
        invariant extended == HeldCount(m0, claims[..i]) && (extended == 0 ==> keys == old(keys))
      {
        ExtendNext(m0, claims, i, expires);
        HeldCountGrows(m0, claims, i);
        var n := ExtendOne(claims[i].0, claims[i].1, expires);
        extended := extended + n;
        i := i + 1;
      }
      assert claims[..|claims|] == claims;
      ExtendApplies(m0, claims, expires);
    }

    /** One call of any script. */
    method Execute(op: Op)
      requires Valid()
      modifies this
      ensures Valid() && machine == Apply(old(machine), op)
    {
      hide Represents, Apply;
      match op
      case Enqueue(msg, rank) => var _ := Enqueue(msg, rank);
      case Schedule(msg, rank, at) => var _ := Schedule(msg, rank, at);
      case Claim(attempt, expires) => var _ := Claim(attempt, expires);
      case MoveReady(source, now, limit) => var _ := MoveReady(source, now, limit);
      case Ack(msg, attempt) => var _ := Ack(msg, attempt);
      case ScheduleRetry(msg, at, attempt) => var _ := ScheduleRetry(msg, at, attempt);
      case Archive(msg, at, attempt) => var _ := Archive(msg, at, attempt);
      case Requeue(id, attempt) => var _ := Requeue(id, attempt);
      case Replay(id, msg) => var _ := Replay(id, msg);
      case Delete(id) => var _ := Delete(id);
      case Cleanup(olderThan, limit) => var _ := Cleanup(olderThan, limit);
      case ExtendLease(claims, expires) => var _ := ExtendLease(claims, expires);
    }

    /** Any interleaving of scripts, from any callers, keeps the keys in step with the machine. */
    method ExecuteAll(ops: seq<Op>)
      requires Valid()
      modifies this
      ensures Valid() && machine == Run(old(machine), ops)
    {
      hide Represents, Apply;
      var i := 0;
      while i < |ops|
        invariant 0 <= i <= |ops| && Valid()
        invariant Run(machine, ops[i..]) == Run(old(machine), ops)
      {
        assert ops[i..][1..] == ops[i + 1..];
        Execute(ops[i]);
        i := i + 1;
      }
    }
  }

  /** How many of the listed claims hold their tasks, each listing counted. */
  ghost function HeldCount(m: Machine, claims: seq<(string, string)>): (n: nat)
    ensures n == 0 <==> forall c | c in claims :: !Holds(m, c.0, c.1)
  {
    if claims == [] then 0 else
    var last := |claims| - 1;
    assert claims == claims[..last] + [claims[last]];
    HeldCount(m, claims[..last]) + (if Holds(m, claims[last].0, claims[last].1) then 1 else 0)
  }

  lemma HeldCountGrows(m: Machine, claims: seq<(string, string)>, i: nat)
    requires i < |claims|
    ensures
      HeldCount(m, claims[..i + 1]) == HeldCount(m, claims[..i]) + (if Holds(m, claims[i].0, claims[i].1) then 1 else 0)
  {
    assert claims[..i + 1][..i] == claims[..i];
  }

  lemma Sound(k: Keys, m: Machine)
    requires Represents(k, m)
    ensures WellFormed(m) && k.sequence == m.sequence <= RankMember.MAX_SEQUENCE
    ensures forall id | id in m.tasks :: m.tasks[id].attempt.Some? <==> m.tasks[id].state == Active
  {
  }

  lemma SourceListed(k: Keys, m: Machine, source: Source, now: int)
    requires Represents(k, m)
    ensures
      var ids := Redis.RangeByScore(if source.FromScheduled? then k.scheduled else k.retry, now);
      && ids == Redis.RangeByScore(Index(m, source.State()), now)
      && DistinctIds(ids)
      && (forall id | id in ids :: id in Ids(m, source.State()))
  {
    hide Index, RankIndex, Records, WellFormed, Redis.RangeByScore;
    ListedIds(m, source.State(), now);
  }

  lemma InSource(k: Keys, m: Machine, source: Source, id: string)
    requires Represents(k, m) && id in Ids(m, source.State())
    ensures id in k.tasks && id in (if source.FromScheduled? then k.scheduled else k.retry)
  {
    hide Represents;
    Located(k, m, id);
  }

  lemma PromoteWellFormed(k: Keys, m: Machine, s: State, id: string)
    requires Represents(k, m) && id in Ids(m, s) && s != Active
    ensures WellFormed(With(m, id, m.tasks[id].(state := Pending, due := 0)))
  {
    WithWellFormed(m, id, m.tasks[id].(state := Pending, due := 0));
  }

  lemma MoveApplies(m: Machine, source: Source, now: int, limit: nat, ids: seq<string>, i: nat)
    requires ids == Redis.RangeByScore(Index(m, source.State()), now)
    requires i <= |ids| && i <= limit && (i == |ids| || i == limit)
    ensures DueIds(m, source.State(), now, limit) == ids[..i]
    ensures Apply(m, Op.MoveReady(source, now, limit)) == Promoted(m, Members(ids[..i]))
  {
    hide Index, Redis.RangeByScore;
    PromotedNone(m);
    assert ids[..|ids|] == ids;
    hide Promoted;
  }

  lemma ArchivedListed(k: Keys, m: Machine, max: int)
    requires Represents(k, m)
    ensures
      var ids := Redis.RangeByScore(k.archived, max);
      && ids == Redis.RangeByScore(Index(m, Archived), max)
      && DistinctIds(ids)
      && (forall id | id in ids :: id in Ids(m, Archived))
  {
    hide Index, RankIndex, Records, WellFormed, Redis.RangeByScore;
    ListedIds(m, Archived, max);
  }

  lemma RemovedNone(m: Machine)
    ensures Removed(m, {}) == m
  {
  }

  lemma CleanupApplies(m: Machine, max: int, limit: nat, ids: seq<string>, i: nat)
    requires ids == Redis.RangeByScore(Index(m, Archived), max)
    requires i <= |ids| && i <= limit && (i == |ids| || i == limit)
    ensures DueIds(m, Archived, max, limit) == ids[..i]
    ensures Apply(m, Op.Cleanup(max, limit)) == Removed(m, Members(ids[..i]))
  {
    hide Index, Redis.RangeByScore;
    RemovedNone(m);
    assert ids[..|ids|] == ids;
    hide Removed;
  }

  lemma ExtendApplies(m: Machine, claims: seq<(string, string)>, expires: int)
    ensures Apply(m, Op.ExtendLease(claims, expires)) == Extended(m, claims, expires)
  {
    if forall c | c in claims :: !Holds(m, c.0, c.1) {
      ExtendedNone(m, claims, expires);
    }
    hide Extended;
  }
}
