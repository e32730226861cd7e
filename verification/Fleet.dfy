/** Several servers whose dispatchers share one token bucket. */
module Fleet {
  import opened Lifecycle
  import opened TokenBucket
  import BucketRuns
  import LifecycleTheorems

  datatype Fleet = Fleet(servers: seq<Server>, bucket: Bucket)

  /** One server takes a step; `now` and `expired` matter when it asks the bucket. */
  datatype Move = Move(server: nat, step: Step, now: int, expired: bool)

  function Ask(m: Move, amount: real): BucketRuns.Request {
    BucketRuns.Request(m.now, amount, m.expired)
  }

  /** The bucket's answer decides the dispatcher's branch. Its clock does not go back. */
  ghost predicate CanMove(c: Config, amount: real, f: Fleet, m: Move) {
    && m.server < |f.servers| && Enabled(f.servers[m.server], m.step)
    && (m.step.Acquire? ==>
          && NotAfter(f.bucket, m.now)
          && (m.expired ==> f.bucket.Bucket? && c.rate > 0.0 && f.bucket.last + Ttl(c) <= m.now)
          && m.step.allowed == BucketRuns.Use(c, f.bucket, Ask(m, amount)).1.allowed)
  }

  ghost function Moved(c: Config, amount: real, f: Fleet, m: Move): Fleet
    requires CanMove(c, amount, f, m)
  {
    Fleet(f.servers[m.server := After(f.servers[m.server], m.step)],
          if m.step.Acquire? then BucketRuns.Use(c, f.bucket, Ask(m, amount)).0 else f.bucket)
  }

  ghost predicate Legal(c: Config, amount: real, f: Fleet, moves: seq<Move>)
    decreases |moves|
  {
    moves == [] || (CanMove(c, amount, f, moves[0]) && Legal(c, amount, Moved(c, amount, f, moves[0]), moves[1..]))
  }

  ghost function Runs(c: Config, amount: real, f: Fleet, moves: seq<Move>): Fleet
    requires Legal(c, amount, f, moves)
    decreases |moves|
  {
    if moves == [] then f else Runs(c, amount, Moved(c, amount, f, moves[0]), moves[1..])
  }

  function Claims(servers: seq<Server>): nat {
    if servers == [] then 0 else servers[0].claims + Claims(servers[1..])
  }

  function Grants(servers: seq<Server>): nat {
    if servers == [] then 0 else servers[0].grants + Grants(servers[1..])
  }

  /** The tokens that n claims cost. */
  function Cost(amount: real, n: int): real {
    amount * n as real
  }

  /** The acquires among the moves, in order. */
  function Requests(moves: seq<Move>, amount: real): seq<BucketRuns.Request> {
    if moves == [] then [] else
    (if moves[0].step.Acquire? then [Ask(moves[0], amount)] else []) + Requests(moves[1..], amount)
  }

  ghost predicate AllInv(servers: seq<Server>) {
    forall s | s in servers :: Inv(s) && s.limited
  }

  lemma {:induction false} GrantsUpdate(servers: seq<Server>, i: nat, s: Server)
    requires i < |servers|
    ensures Grants(servers[i := s]) - Grants(servers) == s.grants - servers[i].grants
  {
    var updated := servers[i := s];
    if i == 0 {
      assert updated[1..] == servers[1..];
    } else {
      assert updated[1..] == servers[1..][i - 1 := s];
      GrantsUpdate(servers[1..], i - 1, s);
    }
  }

  lemma {:induction false} ClaimsWithinGrants(servers: seq<Server>)
    requires AllInv(servers)
    ensures Claims(servers) <= Grants(servers)
  {
    if servers != [] {
      assert servers[0] in servers;
      ClaimsWithinGrants(servers[1..]);
    }
  }

  lemma GrantsOfStep(s: Server, step: Step)
    requires Enabled(s, step)
    ensures After(s, step).grants == s.grants + (if step.Acquire? && step.allowed then 1 else 0)
    ensures After(s, step).limited == s.limited
  {
    match step
    case LookAtStop =>
    case Poll(_) =>
    case Acquire(_) =>
    case Claim(_) =>
    case Send(_) =>
    case _ =>
  }

  lemma MoveKeeps(c: Config, amount: real, f: Fleet, m: Move)
    requires AllInv(f.servers) && CanMove(c, amount, f, m)
    ensures AllInv(Moved(c, amount, f, m).servers)
    ensures
      Grants(Moved(c, amount, f, m).servers)
      == Grants(f.servers) + (if m.step.Acquire? && m.step.allowed then 1 else 0)
  {
    var s := f.servers[m.server];
    assert s in f.servers;
    StepKeeps(s, m.step);
    GrantsOfStep(s, m.step);
    GrantsUpdate(f.servers, m.server, After(s, m.step));
    hide Inv, Enabled, After, BucketRuns.Use, Grants;
    assert forall t | t in f.servers[m.server := After(s, m.step)] :: t == After(s, m.step) || t in f.servers;
  }

  lemma {:induction false} RunKeeps(c: Config, amount: real, f: Fleet, moves: seq<Move>)
    requires AllInv(f.servers) && Legal(c, amount, f, moves)
    ensures AllInv(Runs(c, amount, f, moves).servers)
    decreases |moves|
  {
    if moves != [] {
      MoveKeeps(c, amount, f, moves[0]);
      hide AllInv, CanMove, Moved;
      RunKeeps(c, amount, Moved(c, amount, f, moves[0]), moves[1..]);
    }
  }

  lemma RequestsHead(m: Move, moves: seq<Move>, amount: real)
    ensures
      var reqs, rest := Requests([m] + moves, amount), Requests(moves, amount);
      if m.step.Acquire? then reqs != [] && reqs[0] == Ask(m, amount) && reqs[1..] == rest else reqs == rest
  {
    assert ([m] + moves)[1..] == moves;
  }

  /** What the fleet asks is a timely run of the bucket. */
  lemma {:induction false} FleetIsTimely(c: Config, amount: real, f: Fleet, moves: seq<Move>)
    requires amount > 0.0 && Legal(c, amount, f, moves)
    ensures BucketRuns.Timely(c, f.bucket, Requests(moves, amount))
    decreases |moves|
  {
    if moves != [] {
      var m := moves[0];
      FleetIsTimely(c, amount, Moved(c, amount, f, m), moves[1..]);
      RequestsHead(m, moves[1..], amount);
      assert moves == [m] + moves[1..];
      hide Requests, Take, TokenBucket.Ttl, Enabled, After, BucketRuns.Use;
    }
  }

  lemma GrantedHead(c: Config, b: Bucket, r: BucketRuns.Request, reqs: seq<BucketRuns.Request>)
    requires reqs != [] && reqs[0] == r
    ensures
      var (b', reply) := BucketRuns.Use(c, b, r);
      BucketRuns.Granted(c, b, reqs) == (if reply.allowed then r.amount else 0.0) + BucketRuns.Granted(c, b', reqs[1..])
  {
  }

  lemma OneMore(amount: real, n: int)
    ensures Cost(amount, n + 1) == amount + Cost(amount, n)
    ensures Cost(amount, 0) == 0.0
  {
    assert (n + 1) as real == n as real + 1.0;
  }

  /** And the tokens granted in that run are those of the dispatchers' grants. */
  lemma {:induction false} FleetIsGranted(c: Config, amount: real, f: Fleet, moves: seq<Move>)
    requires AllInv(f.servers) && Legal(c, amount, f, moves)
    ensures
      var grants := Grants(Runs(c, amount, f, moves).servers) - Grants(f.servers);
      BucketRuns.Granted(c, f.bucket, Requests(moves, amount)) == Cost(amount, grants)
    decreases |moves|
  {
    hide Cost, AllInv, Grants, Enabled, After, BucketRuns.Use;
    OneMore(amount, 0);
    if moves != [] {
      var m := moves[0];
      MoveKeeps(c, amount, f, m);
      var f' := Moved(c, amount, f, m);
      FleetIsGranted(c, amount, f', moves[1..]);
      RequestsHead(m, moves[1..], amount);
      assert moves == [m] + moves[1..];
      var rest := Grants(Runs(c, amount, f', moves[1..]).servers) - Grants(f'.servers);
      OneMore(amount, rest);
      if m.step.Acquire? {
        GrantedHead(c, f.bucket, Ask(m, amount), Requests(moves, amount));
      }
    }
  }

  lemma CostWithinRate(c: Config, amount: real, n: nat, moves: seq<Move>)
    requires GoodConfig(c) && amount > 0.0
    requires Legal(c, amount, Fleet(seq(n, _ => Fresh(true)), Absent), moves)
    ensures
      var f := Runs(c, amount, Fleet(seq(n, _ => Fresh(true)), Absent), moves);
      var reqs := Requests(moves, amount);
      if reqs == [] then Claims(f.servers) == 0
      else Cost(amount, Claims(f.servers)) <= c.capacity + Gain(c, reqs[|reqs| - 1].now - reqs[0].now)
  {
    hide *;
    var start := Fleet(seq(n, _ => Fresh(true)), Absent);
    StartIsFresh(n);
    FleetIsTimely(c, amount, start, moves);
    FleetIsGranted(c, amount, start, moves);
    RunKeeps(c, amount, start, moves);
    var f := Runs(c, amount, start, moves);
    ClaimsWithinGrants(f.servers);
    var reqs := Requests(moves, amount);
    if reqs != [] {
      AbsentIsGood(c);
      BucketRuns.GrantsWithinRate(c, Absent, reqs);
      Scale(amount, Claims(f.servers), Grants(f.servers));
    } else {
      NothingGranted(c);
      Positive(amount, Grants(f.servers));
    }
  }

  /** The rate limit reaches the store: however many dispatchers share a bucket, the tasks they have claimed,
      each costing `amount`, stay within the capacity plus what dripped in since the first request. */
  lemma ClaimsWithinRate(c: Config, amount: real, n: nat, moves: seq<Move>)
    requires GoodConfig(c) && amount > 0.0
    requires Legal(c, amount, Fleet(seq(n, _ => Fresh(true)), Absent), moves)
    ensures
      var f := Runs(c, amount, Fleet(seq(n, _ => Fresh(true)), Absent), moves);
      var reqs := Requests(moves, amount);
      if reqs == [] then Claims(f.servers) == 0
      else amount * Claims(f.servers) as real <= c.capacity + Gain(c, reqs[|reqs| - 1].now - reqs[0].now)
  {
    hide *;
    CostWithinRate(c, amount, n, moves);
    var f := Runs(c, amount, Fleet(seq(n, _ => Fresh(true)), Absent), moves);
    CostIs(amount, Claims(f.servers));
  }

  lemma CostIs(amount: real, n: int)
    ensures Cost(amount, n) == amount * n as real
  {
  }

  lemma AbsentIsGood(c: Config)
    ensures GoodBucket(c, Absent)
  {
  }

  lemma NothingGranted(c: Config)
    ensures BucketRuns.Granted(c, Absent, []) == 0.0
  {
  }

  lemma StartIsFresh(n: nat)
    ensures
      var f := Fleet(seq(n, _ => Fresh(true)), Absent);
      AllInv(f.servers) && Grants(f.servers) == 0
  {
    LifecycleTheorems.FreshInv(true);
    NoGrantsYet(seq(n, _ => Fresh(true)));
  }

  lemma {:induction false} NoGrantsYet(servers: seq<Server>)
    requires forall s | s in servers :: s.grants == 0
    ensures Grants(servers) == 0
  {
    if servers != [] {
      assert servers[0] in servers;
      NoGrantsYet(servers[1..]);
    }
  }

  lemma Scale(amount: real, a: nat, b: nat)
    requires amount > 0.0 && a <= b
    ensures Cost(amount, a) <= Cost(amount, b)
  {
    Product(amount, (b - a) as real);
    assert amount * b as real - amount * a as real == amount * (b - a) as real;
  }

  lemma Positive(amount: real, n: nat)
    requires amount > 0.0 && Cost(amount, n) == 0.0
    ensures n == 0
  {
  }
}
