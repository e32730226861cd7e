/** Laws of the token bucket over whole runs of acquires. */
module BucketRuns {
  import opened TokenBucket

  /** One acquire: when, how much, and whether Redis had dropped the key by then. */
  datatype Request = Request(now: int, amount: real, expired: bool)

  /** Requests in clock order, none before the bucket's last use, none that drops a key early. */
  ghost predicate Timely(c: Config, b: Bucket, reqs: seq<Request>)
    decreases |reqs|
  {
    reqs == [] ||
    (&& NotAfter(b, reqs[0].now) && reqs[0].amount > 0.0
     && (reqs[0].expired ==> b.Bucket? && c.rate > 0.0 && b.last + Ttl(c) <= reqs[0].now)
     && Timely(c, Use(c, b, reqs[0]).0, reqs[1..]))
  }

  function Use(c: Config, b: Bucket, r: Request): (Bucket, Reply) {
    Take(c, if r.expired then Absent else b, r.now, r.amount)
  }

  ghost function Replies(c: Config, b: Bucket, reqs: seq<Request>): seq<Reply>
    decreases |reqs|
  {
    if reqs == [] then [] else [Use(c, b, reqs[0]).1] + Replies(c, Use(c, b, reqs[0]).0, reqs[1..])
  }

  ghost function Granted(c: Config, b: Bucket, reqs: seq<Request>): real
    decreases |reqs|
  {
    if reqs == [] then 0.0 else
    (if Use(c, b, reqs[0]).1.allowed then reqs[0].amount else 0.0) + Granted(c, Use(c, b, reqs[0]).0, reqs[1..])
  }

  // ---- expiry ----

  lemma TtlRefills(c: Config)
    requires GoodConfig(c) && c.rate > 0.0
    ensures Gain(c, Ttl(c)) >= c.capacity
  {
    GainReaches(c, c.capacity, Ttl(c));
    var q := c.capacity / c.rate;
    Quotient(c.capacity, c.rate);
    CeilGrows(q * 1000.0, q * 2000.0);
  }

  lemma Quotient(a: real, b: real)
    requires a > 0.0 && b > 0.0
    ensures a / b > 0.0
  {
    var q := a / b;
    assert q * b == a;
    if q <= 0.0 {
      Product(-q, b);
    }
  }

  lemma CeilGrows(x: real, y: real)
    requires x <= y
    ensures Ceil(x) <= Ceil(y)
  {
    CeilLeast(x, Ceil(y));
    CeilBounds(y);
  }

  /** A bucket idle for its time to live is full again, so losing it makes no difference to anyone. */
  lemma ExpiredIsFull(c: Config, b: Bucket, now: int)
    requires GoodConfig(c) && GoodBucket(c, b) && b.Bucket? && c.rate > 0.0 && b.last + Ttl(c) <= now
    ensures Level(c, b, now) == Level(c, Absent, now)
  {
    TtlRefills(c);
    GainGrows(c, Ttl(c), now - b.last);
    hide Gain, Ttl;
  }

  lemma TakeKeepsGood(c: Config, b: Bucket, now: int, amount: real)
    requires GoodConfig(c) && GoodBucket(c, b) && NotAfter(b, now) && amount > 0.0
    ensures GoodBucket(c, Take(c, b, now, amount).0)
  {
    LevelInRange(c, b, now);
    hide Level;
  }

  function Kept(reqs: seq<Request>): seq<Request> {
    seq(|reqs|, i requires 0 <= i < |reqs| => reqs[i].(expired := false))
  }

  lemma ExpiryOfOne(c: Config, b: Bucket, r: Request)
    requires GoodConfig(c) && GoodBucket(c, b) && NotAfter(b, r.now)
    requires r.expired ==> b.Bucket? && c.rate > 0.0 && b.last + Ttl(c) <= r.now
    ensures Use(c, b, r) == Use(c, b, r.(expired := false))
  {
    if r.expired {
      ExpiredIsFull(c, b, r.now);
    }
    hide Level;
  }

  /** Expiry is unobservable: any run of acquires gives the same replies, token counts included,
      whether or not Redis drops the key when it may. */
  lemma {:induction false} ExpiryUnobservable(c: Config, b: Bucket, reqs: seq<Request>)
    requires GoodConfig(c) && GoodBucket(c, b) && Timely(c, b, reqs)
    ensures Replies(c, b, reqs) == Replies(c, b, Kept(reqs))
    decreases |reqs|
  {
    if reqs != [] {
      var r := reqs[0];
      ExpiryOfOne(c, b, r);
      TakeKeepsGood(c, b, r.now, r.amount);
      assert Kept(reqs)[1..] == Kept(reqs[1..]);
      hide Use, Take;
      UseIsTake(c, b, r);
      ExpiryUnobservable(c, Use(c, b, r).0, reqs[1..]);
    }
  }

  lemma UseIsTake(c: Config, b: Bucket, r: Request)
    ensures Use(c, b, r.(expired := false)) == Take(c, b, r.now, r.amount)
  {
  }

  // ---- conservation ----

  lemma LevelRises(c: Config, b: Bucket, s: int, t: int)
    requires GoodConfig(c) && s <= t && NotAfter(b, s)
    ensures Level(c, b, t) <= Level(c, b, s) + Gain(c, t - s)
  {
    GainGrows(c, 0, t - s);
    GainZero(c);
    if b.Bucket? {
      GainAdds(c, s - b.last, t - s);
    }
    hide Gain;
  }

  /** Tokens granted in a stretch of a run plus what is left never exceed what was there plus the drip. */
  lemma {:induction false} GrantsBalance(c: Config, b: Bucket, reqs: seq<Request>, start: int)
    requires GoodConfig(c) && GoodBucket(c, b) && Timely(c, b, reqs)
    requires NotAfter(b, start) && (reqs != [] ==> start <= reqs[0].now)
    ensures reqs != [] ==> start <= reqs[|reqs| - 1].now
    ensures
      var end := if reqs == [] then start else reqs[|reqs| - 1].now;
      Granted(c, b, reqs) <= Level(c, b, start) + Gain(c, end - start)
    decreases |reqs|
  {
    GainZero(c);
    LevelInRange(c, b, start);
    if reqs != [] {
      var r := reqs[0];
      var end := reqs[|reqs| - 1].now;
      ExpiryOfOne(c, b, r);
      UseIsTake(c, b, r);
      TakeKeepsGood(c, b, r.now, r.amount);
      LevelRises(c, b, start, r.now);
      var b' := Use(c, b, r).0;
      LevelAfter(c, b, r);
      assert reqs[1..] != [] ==> reqs[1..][|reqs[1..]| - 1] == reqs[|reqs| - 1];
      hide Level, Gain, Use, Take;
      NextNotBefore(c, b, reqs);
      GrantsBalance(c, b', reqs[1..], r.now);
      GainAdds(c, r.now - start, end - r.now);
    }
  }

  lemma NextNotBefore(c: Config, b: Bucket, reqs: seq<Request>)
    requires reqs != [] && Timely(c, b, reqs)
    ensures NotAfter(Use(c, b, reqs[0]).0, reqs[0].now)
    ensures reqs[1..] != [] ==> reqs[0].now <= reqs[1..][0].now
  {
  }

  lemma LevelAfter(c: Config, b: Bucket, r: Request)
    requires GoodConfig(c) && GoodBucket(c, b) && NotAfter(b, r.now) && r.amount > 0.0
    requires Use(c, b, r) == Take(c, b, r.now, r.amount)
    ensures
      var (b', reply) := Use(c, b, r);
      Level(c, b', r.now) == Level(c, b, r.now) - (if reply.allowed then r.amount else 0.0)
  {
    GainZero(c);
    LevelInRange(c, b, r.now);
    hide Gain;
  }

  /** The rate limit: in any stretch of any run, at most the capacity plus the drip over its length. */
  lemma GrantsWithinRate(c: Config, b: Bucket, reqs: seq<Request>)
    requires GoodConfig(c) && GoodBucket(c, b) && Timely(c, b, reqs) && reqs != []
    ensures Granted(c, b, reqs) <= c.capacity + Gain(c, reqs[|reqs| - 1].now - reqs[0].now)
  {
    GrantsBalance(c, b, reqs, reqs[0].now);
    LevelInRange(c, b, reqs[0].now);
    hide Level, Gain;
  }

  // ---- retry-after ----

  /** Refill composes: looking at the bucket in between does not change what it will hold. */
  lemma RefillComposes(c: Config, b: Bucket, s: int, t: int)
    requires GoodConfig(c) && GoodBucket(c, b) && NotAfter(b, s) && s <= t
    ensures Level(c, Bucket(Level(c, b, s), s), t) == Level(c, b, t)
  {
    GainGrows(c, 0, t - s);
    GainZero(c);
    if b.Bucket? {
      GainAdds(c, s - b.last, t - s);
    }
    hide Gain;
  }

  ghost predicate AllDenied(c: Config, b: Bucket, reqs: seq<Request>)
    decreases |reqs|
  {
    reqs == [] || (!Use(c, b, reqs[0]).1.allowed && AllDenied(c, Use(c, b, reqs[0]).0, reqs[1..]))
  }

  ghost function Final(c: Config, b: Bucket, reqs: seq<Request>): Bucket
    decreases |reqs|
  {
    if reqs == [] then b else Final(c, Use(c, b, reqs[0]).0, reqs[1..])
  }

  /** Denied polls, of any amounts and any number, leave the bucket's future alone. */
  lemma {:induction false} DenialsLeaveNoTrace(c: Config, b: Bucket, polls: seq<Request>, t: int)
    requires GoodConfig(c) && GoodBucket(c, b) && Timely(c, b, polls) && AllDenied(c, b, polls)
    requires NotAfter(b, t) && (polls != [] ==> polls[|polls| - 1].now <= t)
    ensures GoodBucket(c, Final(c, b, polls)) && NotAfter(Final(c, b, polls), t)
    ensures Level(c, Final(c, b, polls), t) == Level(c, b, t)
    decreases |polls|
  {
    if polls != [] {
      var r := polls[0];
      ExpiryOfOne(c, b, r);
      UseIsTake(c, b, r);
      TakeKeepsGood(c, b, r.now, r.amount);
      OrderedEnd(c, b, polls);
      RefillComposes(c, b, r.now, t);
      assert Use(c, b, r).0 == Bucket(Level(c, b, r.now), r.now);
      assert polls[1..] != [] ==> polls[1..][|polls[1..]| - 1] == polls[|polls| - 1];
      hide Level, Use, Take;
      DenialsLeaveNoTrace(c, Bucket(Level(c, b, r.now), r.now), polls[1..], t);
    }
  }

  lemma {:induction false} OrderedEnd(c: Config, b: Bucket, reqs: seq<Request>)
    requires reqs != [] && Timely(c, b, reqs)
    ensures reqs[0].now <= reqs[|reqs| - 1].now
    decreases |reqs|
  {
    if |reqs| > 1 {
      NextNotBefore(c, b, reqs);
      OrderedEnd(c, Use(c, b, reqs[0]).0, reqs[1..]);
    }
  }

  /** RetryAfter is exact: after a denial at `now` and any further denied polls, a request for the same
      amount is granted at a later time t if and only if the promised wait is over; if the amount
      exceeds the capacity, or nothing drips in, it is never granted. */
  lemma RetryAfterIsExact(c: Config, b: Bucket, now: int, amount: real, polls: seq<Request>, t: int)
    requires GoodConfig(c) && GoodBucket(c, b) && NotAfter(b, now) && amount > 0.0
    requires !Take(c, b, now, amount).1.allowed
    requires
      var b' := Take(c, b, now, amount).0;
      Timely(c, b', polls) && AllDenied(c, b', polls) && now <= t && (polls != [] ==> polls[|polls| - 1].now <= t)
    ensures
      var (b', reply) := Take(c, b, now, amount);
      Take(c, Final(c, b', polls), t, amount).1.allowed <==>
      c.rate > 0.0 && amount <= c.capacity && t >= now + reply.retryMs
  {
    var b' := Take(c, b, now, amount).0;
    var level := Level(c, b, now);
    TakeKeepsGood(c, b, now, amount);
    assert b' == Bucket(level, now);
    DenialsLeaveNoTrace(c, b', polls, t);
    if c.rate > 0.0 {
      GainReaches(c, amount - level, t - now);
    }
    assert Take(c, Final(c, b', polls), t, amount).1.allowed <==> Level(c, b', t) >= amount;
    hide Gain, Ceil, Timely, AllDenied, Final;
  }
}
