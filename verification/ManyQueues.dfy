/** MoveReady over all the queues a dispatcher serves. */
module ManyQueues {
  import opened Values
  import opened TaskMachine
  import opened Keys
  import opened QueueStore
  import opened StoreRuns
  import opened ServerCalls
  import QueueLaws

  ghost function Machines(queues: seq<Queue>): (ms: seq<Machine>)
    reads set q | q in queues
    ensures |ms| == |queues| && forall i | 0 <= i < |ms| :: ms[i] == queues[i].machine
  {
    if queues == [] then [] else Machines(queues[..|queues| - 1]) + [queues[|queues| - 1].machine]
  }

  ghost function TotalPending(ms: seq<Machine>): nat {
    if ms == [] then 0 else |Ids(ms[0], Pending)| + TotalPending(ms[1..])
  }

  lemma {:induction false} TotalPendingUpdate(ms: seq<Machine>, k: nat, m: Machine)
    requires k < |ms|
    ensures TotalPending(ms[k := m]) - TotalPending(ms) == |Ids(m, Pending)| - |Ids(ms[k], Pending)|
  {
    var updated := ms[k := m];
    if k == 0 {
      assert updated[1..] == ms[1..];
    } else {
      assert updated[1..] == ms[1..][k - 1 := m];
      TotalPendingUpdate(ms[1..], k - 1, m);
    }
  }

  /** What one queue goes through in a call: both sources, one script each. */
  ghost function BothMoved(m: Machine, now: int, limit: nat): Machine {
    Apply(Apply(m, Op.MoveReady(FromScheduled, now, limit)), Op.MoveReady(FromRetry, now, limit))
  }

  lemma BothMovedCounts(m: Machine, now: int, limit: nat, a: nat, b: nat)
    requires a == |DueIds(m, Scheduled, now, limit)|
    requires b == |DueIds(Apply(m, Op.MoveReady(FromScheduled, now, limit)), Retry, now, limit)|
    ensures |Ids(BothMoved(m, now, limit), Pending)| == |Ids(m, Pending)| + a + b && a <= limit && b <= limit
  {
    hide DueIds, Apply, Ids;
    QueueLaws.MoveReadyExact(m, FromScheduled, now, limit);
    QueueLaws.MoveReadyExact(Apply(m, Op.MoveReady(FromScheduled, now, limit)), FromRetry, now, limit);
  }

  /** Both sources of one queue. */
  method MoveBoth(q: Queue, now: int, limit: nat) returns (moved: nat)
    requires q.Valid()
    modifies q
    ensures q.Valid() && q.machine == BothMoved(old(q.machine), now, limit)
    ensures |Ids(q.machine, Pending)| == |Ids(old(q.machine), Pending)| + moved && moved <= 2 * limit
  {
    hide Represents, Apply, DueIds, Ids;
    ghost var m := q.machine;
    var a := q.MoveReady(FromScheduled, now, limit);
    var b := q.MoveReady(FromRetry, now, limit);
    BothMovedCounts(m, now, limit, a, b);
    moved := a + b;
  }

  /** The most that a call naming n queues moves. */
  function Most(n: nat, limit: nat): nat {
    2 * n * limit
  }

  lemma MostGrows(n: nat, limit: nat)
    ensures Most(n + 1, limit) == Most(n, limit) + 2 * limit && Most(0, limit) == 0
  {
  }

  lemma MostIs(n: nat, limit: nat)
    ensures Most(n, limit) == 2 * n * limit
  {
  }

  ghost predicate AllValid(all: seq<Queue>)
    reads set q | q in all
  {
    forall q | q in all :: q.Valid()
  }

  /** The tasks of a state whose time has come. */
  ghost function DueNow(m: Machine, s: State, now: int): set<string> {
    set id | id in m.tasks && m.tasks[id].state == s && m.tasks[id].due <= now
  }

  /** What a call owes each queue it names: of scheduled and of retrying tasks alike, all that are due are pending
      afterwards if they are within the limit, and otherwise at least as many of the soonest as the limit allows. */
  ghost predicate ServedBy(m: Machine, m': Machine, source: Source, now: int, limit: nat) {
    && (|DueNow(m, source.State(), now)| <= limit ==>
          DueNow(m', source.State(), now) == {} &&
          forall id | id in DueNow(m, source.State(), now) :: IsIn(m', id, Pending))
    && (|DueNow(m, source.State(), now)| > limit ==> |DueIds(m, source.State(), now, limit)| == limit)
    && (forall id | id in DueIds(m, source.State(), now, limit) :: IsIn(m', id, Pending))
  }

  ghost predicate Served(m: Machine, m': Machine, now: int, limit: nat) {
    ServedBy(m, m', FromScheduled, now, limit) && ServedBy(m, m', FromRetry, now, limit)
  }

  /** A queue later in the call: what was pending still is, and nothing came into the sources. */
  ghost predicate MovesOn(m: Machine, m': Machine) {
    && m'.tasks.Keys == m.tasks.Keys
    && forall id | id in m.tasks :: m'.tasks[id] == m.tasks[id] || IsIn(m', id, Pending)
  }

  lemma MoveMovesOn(m: Machine, source: Source, now: int, limit: nat)
    ensures MovesOn(m, Apply(m, Op.MoveReady(source, now, limit)))
  {
    hide Apply, DueIds;
    QueueLaws.MoveReadyIs(m, source, now, limit);
  }

  lemma MovesOnJoined(a: Machine, b: Machine, c: Machine)
    requires MovesOn(a, b) && MovesOn(b, c)
    ensures MovesOn(a, c)
  {
  }

  lemma NoneCameIn(m: Machine, m': Machine, source: Source, now: int)
    requires MovesOn(m, m') && DueNow(m, source.State(), now) == {}
    ensures DueNow(m', source.State(), now) == {}
  {
    assert DueNow(m', source.State(), now) <= DueNow(m, source.State(), now);
  }

  lemma StillServed(m: Machine, m': Machine, m'': Machine, now: int, limit: nat)
    requires Served(m, m', now, limit) && MovesOn(m', m'')
    ensures Served(m, m'', now, limit)
  {
    hide ServedBy, MovesOn;
    StillServedBy(m, m', m'', FromScheduled, now, limit);
    StillServedBy(m, m', m'', FromRetry, now, limit);
  }

  /** A listing with room for all lists all. */
  lemma AllListed(m: Machine, s: State, now: int, limit: nat)
    ensures |DueNow(m, s, now)| <= limit ==> Members(DueIds(m, s, now, limit)) == DueNow(m, s, now)
    ensures |DueNow(m, s, now)| > limit ==> |DueIds(m, s, now, limit)| == limit
  {
    hide DueIds, QueueLaws.Sooner;
    var ids := DueIds(m, s, now, limit);
    QueueLaws.DueIdsExact(m, s, now, limit);
    QueueLaws.SizeOfIds(ids);
    assert Members(ids) <= DueNow(m, s, now);
    if id :| id in DueNow(m, s, now) && id !in Members(ids) {
      assert id !in ids;
      assert |ids| == limit;
      SubsetSize(Members(ids) + {id}, DueNow(m, s, now));
    } else {
      assert Members(ids) == DueNow(m, s, now);
    }
  }

  lemma SourceServed(m: Machine, source: Source, now: int, limit: nat)
    ensures ServedBy(m, Apply(m, Op.MoveReady(source, now, limit)), source, now, limit)
  {
    hide Apply, DueIds;
    AllListed(m, source.State(), now, limit);
    QueueLaws.MoveReadyIs(m, source, now, limit);
    QueueLaws.MoveReadyExact(m, source, now, limit);
  }

  /** The scripts of one source leave the other source alone. */
  lemma OtherSourceKept(m: Machine, now: int, limit: nat)
    ensures
      var m' := Apply(m, Op.MoveReady(FromScheduled, now, limit));
      && DueNow(m', Retry, now) == DueNow(m, Retry, now)
      && DueIds(m', Retry, now, limit) == DueIds(m, Retry, now, limit)
  {
    hide Apply;
    var m' := Apply(m, Op.MoveReady(FromScheduled, now, limit));
    QueueLaws.MoveReadyIs(m, FromScheduled, now, limit);
    QueueLaws.DueIdsExact(m, Scheduled, now, limit);
    hide DueIds;
    assert Index(m', Retry) == Index(m, Retry);
    SameListing(m, m', now, limit);
  }

  lemma SameListing(m: Machine, m': Machine, now: int, limit: nat)
    requires Index(m, Retry) == Index(m', Retry)
    ensures DueIds(m, Retry, now, limit) == DueIds(m', Retry, now, limit)
  {
    hide Index;
  }

  lemma StillServedBy(m: Machine, m': Machine, m'': Machine, source: Source, now: int, limit: nat)
    requires ServedBy(m, m', source, now, limit) && MovesOn(m', m'')
    ensures ServedBy(m, m'', source, now, limit)
  {
    hide DueIds, DueNow;
    if DueNow(m', source.State(), now) == {} {
      NoneCameIn(m', m'', source, now);
    }
  }

  /** Both scripts together serve their queue. */
  lemma BothServed(m: Machine, now: int, limit: nat)
    ensures Served(m, BothMoved(m, now, limit), now, limit) && MovesOn(m, BothMoved(m, now, limit))
  {
    hide Apply, DueIds, Index, DueNow, ServedBy, MovesOn;
    var m1 := Apply(m, Op.MoveReady(FromScheduled, now, limit));
    var m2 := Apply(m1, Op.MoveReady(FromRetry, now, limit));
    SourceServed(m, FromScheduled, now, limit);
    SourceServed(m1, FromRetry, now, limit);
    MoveMovesOn(m, FromScheduled, now, limit);
    MoveMovesOn(m1, FromRetry, now, limit);
    MovesOnJoined(m, m1, m2);
    StillServedBy(m, m1, m2, FromScheduled, now, limit);
    RetryServed(m, m1, m2, now, limit);
  }

  lemma RetryServed(m: Machine, m1: Machine, m2: Machine, now: int, limit: nat)
    requires m1 == Apply(m, Op.MoveReady(FromScheduled, now, limit)) && ServedBy(m1, m2, FromRetry, now, limit)
    ensures ServedBy(m, m2, FromRetry, now, limit)
  {
    hide Apply, DueIds, DueNow, Index;
    OtherSourceKept(m, now, limit);
  }

  // ---- over many queues ----

  predicate NamedOnce(names: seq<nat>, k: nat) {
    multiset(names)[k] == 1
  }

  /** What a call owes all queues: those named are served, one named once ends as its two scripts leave it, and those
      not named are left alone. */
  ghost predicate AllServed(ms: seq<Machine>, ms': seq<Machine>, names: seq<nat>, now: int, limit: nat) {
    && |ms'| == |ms|
    && (forall k | 0 <= k < |ms| && k in names :: Served(ms[k], ms'[k], now, limit))
    && (forall k | 0 <= k < |ms| && NamedOnce(names, k) :: ms'[k] == BothMoved(ms[k], now, limit))
    && (forall k | 0 <= k < |ms| && k !in names :: ms'[k] == ms[k])
  }

  lemma NextServed(ms: seq<Machine>, ms': seq<Machine>, names: seq<nat>, k: nat, now: int, limit: nat)
    requires AllServed(ms, ms', names, now, limit) && k < |ms|
    ensures AllServed(ms, ms'[k := BothMoved(ms'[k], now, limit)], names + [k], now, limit)
  {
    hide Served, BothMoved;
    BothServed(ms'[k], now, limit);
    if k in names {
      StillServed(ms[k], ms'[k], BothMoved(ms'[k], now, limit), now, limit);
      assert multiset(names)[k] > 0;
    }
    assert multiset(names + [k]) == multiset(names) + multiset{k};
  }

  /** MoveReady on the queues a server serves, named by position in a list of all queues and possibly more
      than once: every queue named is served, a queue named once ends as its two scripts leave it, the others are
      left alone; the result is the growth of pending over all queues, and stays within the limit for each of two
      sources of each queue named. */
  method MoveReady(all: seq<Queue>, names: seq<nat>, now: int, limit: int) returns (moved: nat)
    requires forall i, j | 0 <= i < j < |all| :: all[i] != all[j]
    requires forall n | n in names :: n < |all|
    requires AllValid(all)
    modifies set q | q in all
    ensures AllValid(all)
    ensures TotalPending(Machines(all)) == old(TotalPending(Machines(all))) + moved
    ensures moved <= 2 * |names| * OrDefault(limit)
    ensures AllServed(old(Machines(all)), Machines(all), names, now, OrDefault(limit))
  {
    hide Represents, BothMoved, Ids, TotalPending, Most, Machines, AllServed;
    var most := OrDefault(limit);
    ghost var ms := Machines(all);
    MostGrows(0, most);
    NoneServed(ms, now, most);
    moved := 0;
    var i := 0;
    assert names[..0] == [];
    while i < |names|
      invariant 0 <= i <= |names| && moved <= Most(i, most)
      invariant AllValid(all)
      invariant TotalPending(Machines(all)) == TotalPending(ms) + moved
      invariant AllServed(ms, Machines(all), names[..i], now, most)
    {
      assert names[i] in names;
      var q := all[names[i]];
      assert q in all;
      ghost var before := Machines(all);
      var n := MoveBoth(q, now, most);
      assert Machines(all) == before[names[i] := q.machine];
      TotalPendingUpdate(before, names[i], q.machine);
      NextServed(ms, before, names[..i], names[i], now, most);
      MostGrows(i, most);
      assert names[..i + 1] == names[..i] + [names[i]];
      moved := moved + n;
      i := i + 1;
    }
    assert names[..i] == names;
    MostIs(|names|, most);
  }

  lemma NoneServed(ms: seq<Machine>, now: int, limit: nat)
    ensures AllServed(ms, ms, [], now, limit)
  {
  }
}
