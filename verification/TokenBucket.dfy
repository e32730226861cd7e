/** The Redis token bucket, over reals and an integer millisecond clock. */
module TokenBucket {
  import opened Values

  datatype Config = Config(capacity: real, rate: real)

  predicate GoodConfig(c: Config) {
    c.capacity > 0.0 && c.rate >= 0.0
  }

  /** The hash at the bucket's key, if there is one. */
  datatype Bucket = Absent | Bucket(tokens: real, last: int)

  datatype Reply = Reply(allowed: bool, retryMs: int, tokens: real)

  const NEVER_MS: int := 31_536_000_000

  function Ceil(x: real): int {
    -((-x).Floor)
  }

  /** Tokens that drip in over some milliseconds. */
  function Gain(c: Config, ms: int): real {
    ms as real / 1000.0 * c.rate
  }

  function MinReal(a: real, b: real): real {
    if a < b then a else b
  }

  /** Tokens in the bucket at a time, refill included. */
  function Level(c: Config, b: Bucket, now: int): real {
    match b
    case Absent => c.capacity
    case Bucket(tokens, last) => if c.rate > 0.0 then MinReal(c.capacity, tokens + Gain(c, now - last)) else tokens
  }

  function RetryAfter(c: Config, level: real, amount: real): int {
    if level >= amount then 0
    else if c.rate > 0.0 then Ceil((amount - level) / c.rate * 1000.0)
    else NEVER_MS
  }

  function Take(c: Config, b: Bucket, now: int, amount: real): (Bucket, Reply) {
    var level := Level(c, b, now);
    var left := if level >= amount then level - amount else level;
    (Bucket(left, now), Reply(level >= amount, RetryAfter(c, level, amount), left))
  }

  /** Lifetime of the key, in milliseconds. */
  function Ttl(c: Config): int
    requires c.rate > 0.0
  {
    Ceil(c.capacity / c.rate * 2000.0)
  }

  /** The key lives as long as it takes to fill the bucket twice. */
  lemma TtlFillsTwice(c: Config, ms: int)
    requires c.rate > 0.0
    ensures Gain(c, ms) >= 2.0 * c.capacity <==> ms >= Ttl(c)
  {
    GainReaches(c, 2.0 * c.capacity, ms);
    var q := c.capacity / c.rate;
    assert q * c.rate == c.capacity;
    Divides(2.0 * c.capacity, c.rate, 2.0 * q);
    hide Gain, Ceil;
  }

  lemma Divides(a: real, b: real, q: real)
    requires b > 0.0 && q * b == a
    ensures a / b == q
  {
    var p := a / b;
    assert p * b == a;
    if p != q {
      assert (p - q) * b == 0.0;
    }
  }

  predicate GoodBucket(c: Config, b: Bucket) {
    b.Bucket? ==> 0.0 <= b.tokens <= c.capacity
  }

  /** The bucket was last used no later than this. */
  predicate NotAfter(b: Bucket, now: int) {
    b.Bucket? ==> b.last <= now
  }

  /** The key as the script sees it and changes it. */
  class Store {
    const config: Config
    var tokens: Option<real>
    var lastMs: Option<int>
    var expiresAt: Option<int>

    function View(): Bucket
      reads this
    {
      if tokens.Some? && lastMs.Some? then Bucket(tokens.value, lastMs.value) else Absent
    }

    ghost predicate Valid()
      reads this
    {
      && GoodConfig(config) && GoodBucket(config, View())
      && (tokens.Some? <==> lastMs.Some?)
      && (View().Bucket? && config.rate > 0.0 ==> expiresAt == Some(View().last + Ttl(config)))
      && (View().Absent? || config.rate == 0.0 ==> expiresAt == None)
    }

    constructor (config: Config)
      requires GoodConfig(config)
      ensures Valid() && View() == Absent && this.config == config
    {
      this.config := config;
      tokens, lastMs, expiresAt := None, None, None;
    }

    /** One call of the script at time now. `expired` says that Redis has dropped the key, which it may
        do from the expiry time on. */
    method Acquire(now: int, amount: real, expired: bool) returns (reply: Option<Reply>)
      requires Valid() && NotAfter(View(), now)
      requires expired ==> expiresAt.Some? && expiresAt.value <= now
      modifies this
      ensures Valid()
      ensures amount <= 0.0 <==> reply == None
      ensures reply.Some? ==>
        (View(), reply.value) == Take(config, if expired then Absent else old(View()), now, amount)
      ensures reply.None? ==> View() == old(View())
      ensures reply.Some? ==>
        var level := Level(config, if expired then Absent else old(View()), now);
        && reply.value.allowed == (level >= amount) && View().Bucket? && View().last == now
        && reply.value.tokens == View().tokens == (if level >= amount then level - amount else level)
        && (reply.value.allowed ==> reply.value.retryMs == 0)
        && (!reply.value.allowed && config.rate == 0.0 ==> reply.value.retryMs == 31_536_000_000)
    {
      if amount <= 0.0 { return None; }
      ghost var b := if expired then Absent else View();
      LevelInRange(config, b, now);
      if expired { tokens, lastMs, expiresAt := None, None, None; }
      var level, last := tokens, lastMs;
      if level.None? || last.None? {
        level, last := Some(config.capacity), Some(now);
      }
      GainZero(config);
      hide Gain, Ceil;
      var t := level.value;
      if config.rate > 0.0 {
        t := MinReal(config.capacity, t + Gain(config, now - last.value));
      }
      assert t == Level(config, b, now);
      var allowed, retry := false, 0;
      if t >= amount {
        t := t - amount;
        allowed := true;
      } else if config.rate > 0.0 {
        retry := Ceil((amount - t) / config.rate * 1000.0);
      } else {
        retry := NEVER_MS;
      }
      tokens, lastMs := Some(t), Some(now);
      if config.rate > 0.0 { expiresAt := Some(now + Ttl(config)); }
      reply := Some(Reply(allowed, retry, t));
    }
  }

  // ---- arithmetic of the drip ----

  lemma Product(a: real, b: real)
    requires a >= 0.0 && b >= 0.0
    ensures a * b >= 0.0
  {
  }

  lemma GainZero(c: Config)
    ensures Gain(c, 0) == 0.0
  {
  }

  lemma GainAdds(c: Config, a: int, b: int)
    ensures Gain(c, a + b) == Gain(c, a) + Gain(c, b)
  {
    var x, y := a as real / 1000.0, b as real / 1000.0;
    assert (a + b) as real / 1000.0 == x + y;
    assert (x + y) * c.rate == x * c.rate + y * c.rate;
  }

  lemma GainGrows(c: Config, a: int, b: int)
    requires c.rate >= 0.0 && a <= b
    ensures Gain(c, a) <= Gain(c, b)
  {
    GainAdds(c, a, b - a);
    Product((b - a) as real / 1000.0, c.rate);
  }

  lemma CeilBounds(x: real)
    ensures x <= Ceil(x) as real < x + 1.0
  {
  }

  /** The least number of whole milliseconds that drips in x tokens. */
  lemma GainReaches(c: Config, x: real, ms: int)
    requires c.rate > 0.0
    ensures Gain(c, ms) >= x <==> ms >= Ceil(x / c.rate * 1000.0)
  {
    var q := x / c.rate;
    assert q * c.rate == x;
    var d := ms as real / 1000.0 - q;
    assert Gain(c, ms) - x == d * c.rate by {
      assert (ms as real / 1000.0 - q) * c.rate == ms as real / 1000.0 * c.rate - q * c.rate;
    }
    if d >= 0.0 {
      Product(d, c.rate);
    } else {
      Negative(d, c.rate);
    }
    assert d >= 0.0 <==> ms as real >= q * 1000.0;
    CeilLeast(q * 1000.0, ms);
  }

  lemma Negative(a: real, b: real)
    requires a < 0.0 && b > 0.0
    ensures a * b < 0.0
  {
  }

  lemma CeilLeast(x: real, n: int)
    ensures n as real >= x <==> n >= Ceil(x)
  {
    CeilBounds(x);
  }

  lemma LevelInRange(c: Config, b: Bucket, now: int)
    requires GoodConfig(c) && GoodBucket(c, b) && NotAfter(b, now)
    ensures 0.0 <= Level(c, b, now) <= c.capacity
  {
    if b.Bucket? {
      GainGrows(c, 0, now - b.last);
      GainZero(c);
    }
    hide Gain;
  }
}
