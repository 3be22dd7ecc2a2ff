/**
 * The per-client rate limiter: a bounded, self-pruning, resettable map of token buckets.
 * Buckets follow golang.org/x/time/rate over the reals: a request reserves one token, and
 * a request that would have to wait cancels its reservation again.
 */
module RateLimit {

  datatype Limits = Limits(rate: real, burst: int, ttl: real, maxEntries: int) {
    function WithDefaults(): Limits {
      Limits(if rate <= 0.0 then 0.2 else rate,
             if burst <= 0 then 5 else burst,
             if ttl <= 0.0 then 900.0 else ttl,
             if maxEntries <= 0 then 50_000 else maxEntries)
    }

    predicate Valid() { rate > 0.0 && burst >= 1 && ttl > 0.0 && maxEntries >= 1 }

    function Cap(): real { burst as real }

    /** Tokens that accrue in a span of time. */
    function Earned(from: real, to: real): real { rate * (to - from) }
  }

  datatype Bucket = Bucket(tokens: real, last: real, lastEvent: real, lastSeen: real)

  function MinReal(a: real, b: real): real { if a < b then a else b }

  // --------------------------------------------------------- x/time/rate

  /** Limiter.advance: the tokens available at t, never more than the burst. */
  function Advance(l: Limits, b: Bucket, t: real): real {
    var last := if t < b.last then t else b.last;
    MinReal(l.Cap(), b.tokens + l.Earned(last, t))
  }

  function NewBucket(l: Limits, now: real): Bucket {
    Bucket(l.Cap(), 0.0, 0.0, now)
  }

  datatype Reservation = Reservation(ok: bool, timeToAct: real)

  /** Limiter.ReserveN(t, 1) with no bound on the wait. */
  function Reserve(l: Limits, b: Bucket, t: real): (Bucket, Reservation)
    requires l.rate > 0.0
  {
    var tokens := Advance(l, b, t) - 1.0;
    var wait := if tokens < 0.0 then (-tokens) / l.rate else 0.0;
    if l.burst < 1 then (b, Reservation(false, t))
    else (b.(tokens := tokens, last := t, lastEvent := t + wait), Reservation(true, t + wait))
  }

  /** Reservation.CancelAt(t): gives the token back, less what later reservations consumed. */
  function Cancel(l: Limits, b: Bucket, r: Reservation, t: real): Bucket
    requires l.rate > 0.0
  {
    var restore := 1.0 - l.rate * (b.lastEvent - r.timeToAct);
    if !r.ok || r.timeToAct < t || restore <= 0.0 then b
    else
      var prev := r.timeToAct - 1.0 / l.rate;
      b.(tokens := MinReal(l.Cap(), Advance(l, b, t) + restore),
         last := t,
         lastEvent := if r.timeToAct == b.lastEvent && !(prev < t) then prev else b.lastEvent)
  }

  datatype Decision = Decision(bucket: Bucket, allowed: bool, delay: real)

  /** One request against one bucket: reserve, and cancel if it would have to wait. */
  function Decide(l: Limits, b: Bucket, now: real): Decision
    requires l.rate > 0.0
  {
    var (reserved, r) := Reserve(l, b, now);
    if !r.ok then Decision(reserved, false, 1.0 / l.rate)
    else if r.timeToAct - now > 0.0 then Decision(Cancel(l, reserved, r, now), false, r.timeToAct - now)
    else Decision(reserved, true, 0.0)
  }

  // --------------------------------------------------------- the bucket map

  type Buckets = map<string, Bucket>

  /** At capacity a new client resets the whole map. */
  function WithBucket(l: Limits, m: Buckets, key: string, now: real): Buckets {
    if key in m then m
    else (if |m| >= l.maxEntries then map[] else m)[key := NewBucket(l, now)]
  }

  datatype Answer = Answer(buckets: Buckets, allowed: bool, delay: real)

  function AllowIn(l: Limits, m: Buckets, key: string, now: real): Answer
    requires l.rate > 0.0
  {
    var ready := WithBucket(l, m, key, now);
    var d := Decide(l, ready[key].(lastSeen := now), now);
    Answer(ready[key := d.bucket], d.allowed, d.delay)
  }

  predicate Idle(l: Limits, b: Bucket, now: real) { now - b.lastSeen > l.ttl }

  function PruneIn(l: Limits, m: Buckets, now: real): Buckets {
    map k | k in m && !Idle(l, m[k], now) :: m[k]
  }

  class RateLimiter {
    const cfg: Limits
    var buckets: Buckets

    constructor (cfg: Limits)
      ensures this.cfg == cfg.WithDefaults() && this.cfg.Valid()
      ensures this.cfg.rate == (if cfg.rate <= 0.0 then 0.2 else cfg.rate)
      ensures this.cfg.burst == (if cfg.burst <= 0 then 5 else cfg.burst)
      ensures this.cfg.ttl == (if cfg.ttl <= 0.0 then 900.0 else cfg.ttl)
      ensures this.cfg.maxEntries == (if cfg.maxEntries <= 0 then 50_000 else cfg.maxEntries)
      ensures buckets == map[]
    {
      this.cfg := cfg.WithDefaults();
      buckets := map[];
    }

    method Allow(key: string, now: real) returns (allowed: bool, delay: real)
      requires cfg.rate > 0.0
      modifies this
      ensures Answer(buckets, allowed, delay) == AllowIn(cfg, old(buckets), key, now)
    {
      if key !in buckets {
        if |buckets| >= cfg.maxEntries {
          buckets := map[];
        }
        buckets := buckets[key := NewBucket(cfg, now)];
      }
      var b := buckets[key].(lastSeen := now);
      var (reserved, r) := Reserve(cfg, b, now);
      buckets := buckets[key := reserved];
      if !r.ok {
        return false, 1.0 / cfg.rate;
      }
      var wait := r.timeToAct - now;
      if wait > 0.0 {
        buckets := buckets[key := Cancel(cfg, reserved, r, now)];
        return false, wait;
      }
      return true, 0.0;
    }

    method Prune(now: real)
      modifies this
      ensures buckets == PruneIn(cfg, old(buckets), now)
      ensures forall k :: k in buckets <==> k in old(buckets) && !(now - old(buckets)[k].lastSeen > cfg.ttl)
      ensures forall k :: k in buckets ==> buckets[k] == old(buckets)[k]
    {
      var keys := buckets.Keys;
      while keys != {}
        invariant keys <= old(buckets).Keys
        invariant forall k :: k in buckets <==>
                    k in old(buckets) && (k in keys || !Idle(cfg, old(buckets)[k], now))
        invariant forall k :: k in buckets ==> buckets[k] == old(buckets)[k]
        decreases keys
      {
        var k :| k in keys;
        if Idle(cfg, buckets[k], now) {
          buckets := buckets - {k};
        }
        keys := keys - {k};
      }
    }
  }

  // ------------------------------------------------------- time and tokens

  lemma EarnedAdds(l: Limits, a: real, b: real, c: real)
    ensures l.Earned(a, c) == l.Earned(a, b) + l.Earned(b, c)
  {
    assert c - a == (b - a) + (c - b);
  }

  lemma EarnedSign(l: Limits, a: real, b: real)
    requires l.rate > 0.0 && a <= b
    ensures l.Earned(a, b) >= 0.0
  {}

  /** A bucket as a run of requests leaves it. */
  predicate Sane(l: Limits, b: Bucket, now: real) {
    0.0 <= b.tokens <= l.Cap() && b.last <= now && b.lastSeen <= now
  }

  lemma LevelLater(l: Limits, b: Bucket, t1: real, t2: real)
    requires l.Valid() && b.last <= t1 <= t2
    ensures Advance(l, b, t2) == MinReal(l.Cap(), Advance(l, b, t1) + l.Earned(t1, t2))
  {
    EarnedAdds(l, b.last, t1, t2);
    EarnedSign(l, t1, t2);
  }

  lemma WaitEarnsExactly(l: Limits, need: real)
    requires l.rate > 0.0 && need >= 0.0
    ensures l.rate * (need / l.rate) == need
  {}

  /**
   * Reserve-and-cancel is the textbook bucket: a request passes exactly when a whole token
   * is there, takes it if it passes, and otherwise leaves the level as it was. The delay is
   * the time until the level reaches one.
   */
  lemma DecideIsTokenBucket(l: Limits, b: Bucket, now: real)
    requires l.Valid() && Sane(l, b, now)
    ensures var level, d := Advance(l, b, now), Decide(l, b, now);
            && d.allowed == (level >= 1.0)
            && d.bucket.tokens == (if d.allowed then level - 1.0 else level)
            && d.bucket.last == now && d.bucket.lastSeen == b.lastSeen
            && (d.allowed ==> d.delay == 0.0)
            && (!d.allowed ==> d.delay > 0.0 && l.rate * d.delay == 1.0 - level)
            && 0.0 <= level <= l.Cap()
  {
    var level := Advance(l, b, now);
    EarnedSign(l, b.last, now);
    if level < 1.0 {
      WaitEarnsExactly(l, 1.0 - level);
      WaitPositive(l, 1.0 - level);
      var (reserved, r) := Reserve(l, b, now);
      assert r.timeToAct - now == (1.0 - level) / l.rate;
      assert l.rate * (reserved.lastEvent - r.timeToAct) == 0.0;
      assert Advance(l, reserved, now) == level - 1.0;
    }
  }

  lemma WaitPositive(l: Limits, need: real)
    requires l.rate > 0.0 && need > 0.0
    ensures need / l.rate > 0.0
  {}
}
