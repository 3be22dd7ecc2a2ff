/** The bounded limiter against an unbounded per-client reference, over whole histories. */
module RateLimitProofs {
  import opened RateLimit

  datatype Op = Request(key: string, at: real) | Prune(at: real)

  /** The reference: one textbook bucket per client, never pruned and never reset. */
  datatype RefBucket = RefBucket(tokens: real, last: real)

  function RefLevel(l: Limits, r: RefBucket, t: real): real {
    MinReal(l.Cap(), r.tokens + l.Earned(r.last, t))
  }

  function RefAfter(l: Limits, r: RefBucket, t: real): RefBucket {
    var level := RefLevel(l, r, t);
    RefBucket(if level >= 1.0 then level - 1.0 else level, t)
  }

  /** Both limiters side by side, seen from one client. */
  datatype Track = Track(
    buckets: Buckets, ref: RefBucket, granted: int, refGranted: int, discards: int, now: real)

  function One(b: bool): int { if b then 1 else 0 }

  function Step(l: Limits, client: string, s: Track, op: Op): Track
    requires l.rate > 0.0
  {
    match op
    case Request(key, t) =>
      var a := AllowIn(l, s.buckets, key, t);
      if key == client then
        Track(a.buckets, RefAfter(l, s.ref, t), s.granted + One(a.allowed),
              s.refGranted + One(RefLevel(l, s.ref, t) >= 1.0), s.discards, t)
      else
        s.(buckets := a.buckets, now := t,
           discards := s.discards + One(client in s.buckets && client !in a.buckets))
    case Prune(t) =>
      var kept := PruneIn(l, s.buckets, t);
      s.(buckets := kept, now := t,
         discards := s.discards + One(client in s.buckets && client !in kept))
  }

  function Play(l: Limits, client: string, s: Track, ops: seq<Op>): Track
    requires l.rate > 0.0
    decreases |ops|
  {
    if ops == [] then s else Play(l, client, Step(l, client, s, ops[0]), ops[1..])
  }

  /** Calls are sequential: the clock never runs backwards. */
  predicate Ordered(now: real, ops: seq<Op>)
    decreases |ops|
  {
    ops == [] || (now <= ops[0].at && Ordered(ops[0].at, ops[1..]))
  }

  function Start(l: Limits, now: real): Track {
    Track(map[], RefBucket(l.Cap(), now), 0, 0, 0, now)
  }

  // -------------------------------------------------------- the client's level

  ghost predicate SaneMap(l: Limits, m: Buckets, now: real) {
    && now >= 0.0 && |m| <= l.maxEntries
    && forall k :: k in m ==> Sane(l, m[k], now) && m[k].lastSeen == m[k].last
  }

  /** A client without a bucket will be given a full one. */
  function KeyLevel(l: Limits, m: Buckets, k: string, t: real): real {
    if k in m then Advance(l, m[k], t) else l.Cap()
  }

  lemma KeyLevelLater(l: Limits, m: Buckets, k: string, t1: real, t2: real)
    requires l.Valid() && SaneMap(l, m, t1) && t1 <= t2
    ensures KeyLevel(l, m, k, t2) == MinReal(l.Cap(), KeyLevel(l, m, k, t1) + l.Earned(t1, t2))
    ensures 0.0 <= KeyLevel(l, m, k, t1) <= l.Cap()
    ensures SaneMap(l, m, t2)
  {
    EarnedSign(l, t1, t2);
    if k in m {
      LevelLater(l, m[k], t1, t2);
      EarnedSign(l, m[k].last, t1);
    }
  }

  lemma RefLevelLater(l: Limits, r: RefBucket, t1: real, t2: real)
    requires l.Valid() && r.last <= t1 <= t2
    ensures RefLevel(l, r, t2) == MinReal(l.Cap(), RefLevel(l, r, t1) + l.Earned(t1, t2))
  {
    EarnedAdds(l, r.last, t1, t2);
    EarnedSign(l, t1, t2);
  }

  lemma NewBucketIsFull(l: Limits, now: real)
    requires l.Valid() && now >= 0.0
    ensures Advance(l, NewBucket(l, now), now) == l.Cap() && Sane(l, NewBucket(l, now), now)
  {
    EarnedSign(l, 0.0, now);
  }

  lemma LevelAtLast(l: Limits, b: Bucket)
    requires b.tokens <= l.Cap()
    ensures Advance(l, b, b.last) == b.tokens
  {}

  lemma ReadyFits(l: Limits, m: Buckets, key: string, now: real)
    requires l.Valid() && |m| <= l.maxEntries
    ensures |WithBucket(l, m, key, now)| <= l.maxEntries
  {
    var ready := WithBucket(l, m, key, now);
    assert ready.Keys == m.Keys || ready.Keys == m.Keys + {key} || ready.Keys == {key};
  }

  lemma DecidedIsSane(l: Limits, b: Bucket, now: real)
    requires l.Valid() && Sane(l, b, now) && b.lastSeen == now
    ensures Sane(l, Decide(l, b, now).bucket, now)
    ensures Decide(l, b, now).bucket.lastSeen == Decide(l, b, now).bucket.last
  {
    DecideIsTokenBucket(l, b, now);
  }

  /** The map never grows past its bound, whoever asks. */
  lemma RequestKeepsSane(l: Limits, m: Buckets, key: string, now: real)
    requires l.Valid() && SaneMap(l, m, now)
    ensures SaneMap(l, AllowIn(l, m, key, now).buckets, now)
  {
    var ready, after := WithBucket(l, m, key, now), AllowIn(l, m, key, now).buckets;
    ReadyFits(l, m, key, now);
    NewBucketIsFull(l, now);
    DecidedIsSane(l, ready[key].(lastSeen := now), now);
    assert after.Keys == ready.Keys;
    assert |after| == |ready|;
  }

  /** A client's own request is decided by its level and costs one token if granted. */
  lemma OwnRequest(l: Limits, m: Buckets, key: string, now: real)
    requires l.Valid() && SaneMap(l, m, now)
    ensures var a, level := AllowIn(l, m, key, now), KeyLevel(l, m, key, now);
            && a.allowed == (level >= 1.0)
            && KeyLevel(l, a.buckets, key, now) == (if a.allowed then level - 1.0 else level)
            && (!a.allowed ==> a.delay > 0.0 && l.rate * a.delay == 1.0 - level)
  {
    var ready := WithBucket(l, m, key, now);
    NewBucketIsFull(l, now);
    var b := ready[key].(lastSeen := now);
    DecideIsTokenBucket(l, b, now);
    LevelAtLast(l, Decide(l, b, now).bucket);
  }

  /** Another client's request leaves the level alone, or resets it to full. */
  lemma OtherRequest(l: Limits, m: Buckets, client: string, key: string, now: real)
    requires l.rate > 0.0 && key != client
    ensures var after := AllowIn(l, m, key, now).buckets;
            && KeyLevel(l, after, client, now) == (if client in m && client !in after then l.Cap() else KeyLevel(l, m, client, now))
            && (client in after ==> client in m && after[client] == m[client])
  {}

  lemma PruneKeepsSane(l: Limits, m: Buckets, now: real)
    requires l.Valid() && SaneMap(l, m, now)
    ensures SaneMap(l, PruneIn(l, m, now), now)
  {
    var kept := PruneIn(l, m, now);
    assert kept.Keys <= m.Keys;
    assert |m.Keys| == |kept.Keys| + |m.Keys - kept.Keys|;
  }

  /**
   * One step as the client sees it: time refills its bucket, then its own request spends a
   * whole token if there is one, and anything else leaves it alone or discards it.
   */
  ghost predicate Moves(l: Limits, client: string, s: Track, e: Track, own: bool) {
    var before, after := KeyLevel(l, s.buckets, client, e.now), KeyLevel(l, e.buckets, client, e.now);
    && SaneMap(l, s.buckets, s.now) && SaneMap(l, e.buckets, e.now) && s.now <= e.now
    && if own then
         && e.granted == s.granted + One(before >= 1.0) && e.discards == s.discards
         && after == (if before >= 1.0 then before - 1.0 else before)
         && e.ref == RefAfter(l, s.ref, e.now)
         && e.refGranted == s.refGranted + One(RefLevel(l, s.ref, e.now) >= 1.0)
       else
         && e.granted == s.granted && e.ref == s.ref && e.refGranted == s.refGranted
         && ((e.discards == s.discards && after == before) || (e.discards == s.discards + 1 && after == l.Cap()))
  }

  lemma StepMoves(l: Limits, client: string, s: Track, op: Op)
    requires l.Valid() && SaneMap(l, s.buckets, s.now) && s.now <= op.at
    ensures Moves(l, client, s, Step(l, client, s, op), op.Request? && op.key == client)
    ensures Step(l, client, s, op).now == op.at
  {
    KeyLevelLater(l, s.buckets, client, s.now, op.at);
    if op.Request? {
      RequestKeepsSane(l, s.buckets, op.key, op.at);
      if op.key == client {
        OwnRequest(l, s.buckets, client, op.at);
      } else {
        OtherRequest(l, s.buckets, client, op.key, op.at);
      }
    } else {
      PruneKeepsSane(l, s.buckets, op.at);
    }
  }

  // --------------------------------------------------------------- dominance

  /** Ahead in grants, and ahead in grants plus tokens to spend. */
  ghost predicate Ahead(l: Limits, client: string, s: Track) {
    && SaneMap(l, s.buckets, s.now) && s.ref.last <= s.now && 0.0 <= s.ref.tokens
    && s.granted >= s.refGranted
    && s.granted as real + KeyLevel(l, s.buckets, client, s.now) >= s.refGranted as real + RefLevel(l, s.ref, s.now)
  }

  lemma MoveKeepsAhead(l: Limits, client: string, s: Track, e: Track, own: bool)
    requires l.Valid() && Ahead(l, client, s) && Moves(l, client, s, e, own)
    ensures Ahead(l, client, e)
  {
    KeyLevelLater(l, s.buckets, client, s.now, e.now);
    RefLevelLater(l, s.ref, s.now, e.now);
    EarnedSign(l, s.now, e.now);
    EarnedSign(l, s.ref.last, e.now);
    var level, refLevel := KeyLevel(l, s.buckets, client, e.now), RefLevel(l, s.ref, e.now);
    assert s.granted as real + level >= s.refGranted as real + refLevel;
    if own && refLevel >= 1.0 && level < 1.0 {
      // The reference spends a token the real one lacks: the real one is already ahead.
      assert s.granted as real > s.refGranted as real;
    }
  }

  lemma {:induction false} PlayKeepsAhead(l: Limits, client: string, s: Track, ops: seq<Op>)
    requires l.Valid() && Ahead(l, client, s) && Ordered(s.now, ops)
    ensures Ahead(l, client, Play(l, client, s, ops))
    decreases |ops|
  {
    if ops != [] {
      var e := Step(l, client, s, ops[0]);
      StepMoves(l, client, s, ops[0]);
      MoveKeepsAhead(l, client, s, e, ops[0].Request? && ops[0].key == client);
      PlayKeepsAhead(l, client, e, ops[1..]);
    }
  }

  /**
   * After every sequential history, with whatever prunes and capacity resets it contains,
   * each client has been granted at least what the reference would have granted, and the
   * map holds at most MaxEntries buckets.
   */
  lemma BoundedDominatesReference(l: Limits, client: string, now: real, ops: seq<Op>)
    requires l.Valid() && now >= 0.0 && Ordered(now, ops)
    ensures var s := Play(l, client, Start(l, now), ops);
            s.granted >= s.refGranted && |s.buckets| <= l.maxEntries
  {
    PlayKeepsAhead(l, client, Start(l, now), ops);
  }

  // ------------------------------------------------------------- upper bound

  function Bursts(l: Limits, n: int): real { n as real * l.Cap() }

  lemma OneMoreBurst(l: Limits, n: int)
    ensures Bursts(l, n + 1) == Bursts(l, n) + l.Cap()
  {
    assert (n + 1) as real == n as real + 1.0;
  }

  /** What may have been granted since s0: one burst at hand, one a discard, and the refill. */
  ghost predicate Within(l: Limits, client: string, s0: Track, s: Track) {
    && SaneMap(l, s.buckets, s.now) && s0.now <= s.now
    && (s.granted - s0.granted) as real + KeyLevel(l, s.buckets, client, s.now)
       <= Bursts(l, s.discards - s0.discards + 1) + l.Earned(s0.now, s.now)
  }

  lemma MoveKeepsWithin(l: Limits, client: string, s0: Track, s: Track, e: Track, own: bool)
    requires l.Valid() && Within(l, client, s0, s) && Moves(l, client, s, e, own)
    ensures Within(l, client, s0, e)
  {
    var before, after := KeyLevel(l, s.buckets, client, e.now), KeyLevel(l, e.buckets, client, e.now);
    var bound := Bursts(l, s.discards - s0.discards + 1) + l.Earned(s0.now, e.now);
    LevelWithin(l, client, s0, s, e.now);
    assert (s.granted - s0.granted) as real + before <= bound;
    KeyLevelLater(l, e.buckets, client, e.now, e.now);
    if own {
      assert (e.granted - s0.granted) as real == (s.granted - s0.granted) as real + One(before >= 1.0) as real;
    } else if e.discards == s.discards {
      assert after == before;
    } else {
      KeyLevelLater(l, s.buckets, client, e.now, e.now);
      OneMoreBurst(l, s.discards - s0.discards + 1);
      assert e.discards - s0.discards + 1 == s.discards - s0.discards + 1 + 1;
    }
  }

  /** Letting time pass keeps the bound: what the bucket gains, the span has earned. */
  lemma LevelWithin(l: Limits, client: string, s0: Track, s: Track, t: real)
    requires l.Valid() && Within(l, client, s0, s) && s.now <= t
    ensures (s.granted - s0.granted) as real + KeyLevel(l, s.buckets, client, t)
            <= Bursts(l, s.discards - s0.discards + 1) + l.Earned(s0.now, t)
    ensures SaneMap(l, s.buckets, t)
  {
    KeyLevelLater(l, s.buckets, client, s.now, t);
    EarnedAdds(l, s0.now, s.now, t);
    assert KeyLevel(l, s.buckets, client, t) <= KeyLevel(l, s.buckets, client, s.now) + l.Earned(s.now, t);
  }

  lemma {:induction false} WithinHolds(l: Limits, client: string, s0: Track, s: Track, ops: seq<Op>)
    requires l.Valid() && Within(l, client, s0, s) && Ordered(s.now, ops)
    ensures Within(l, client, s0, Play(l, client, s, ops))
    decreases |ops|
  {
    if ops != [] {
      var e := Step(l, client, s, ops[0]);
      StepMoves(l, client, s, ops[0]);
      MoveKeepsWithin(l, client, s0, s, e, ops[0].Request? && ops[0].key == client);
      WithinHolds(l, client, s0, e, ops[1..]);
    }
  }

  /**
   * From any state, over any span: with r discards of the client's bucket, at most
   * (r + 1) * Burst + Rate * length requests are granted.
   */
  lemma GrantsAreBounded(l: Limits, client: string, s: Track, ops: seq<Op>)
    requires l.Valid() && SaneMap(l, s.buckets, s.now) && Ordered(s.now, ops)
    ensures var e := Play(l, client, s, ops);
            (e.granted - s.granted) as real <= Bursts(l, e.discards - s.discards + 1) + l.Earned(s.now, e.now)
  {
    WithinStarts(l, client, s);
    WithinHolds(l, client, s, s, ops);
    WithinBounds(l, client, s, Play(l, client, s, ops));
  }

  lemma WithinStarts(l: Limits, client: string, s: Track)
    requires l.Valid() && SaneMap(l, s.buckets, s.now)
    ensures Within(l, client, s, s)
  {
    KeyLevelLater(l, s.buckets, client, s.now, s.now);
    assert Bursts(l, 1) == l.Cap();
  }

  lemma WithinBounds(l: Limits, client: string, s0: Track, s: Track)
    requires l.Valid() && Within(l, client, s0, s)
    ensures (s.granted - s0.granted) as real <= Bursts(l, s.discards - s0.discards + 1) + l.Earned(s0.now, s.now)
  {
    KeyLevelLater(l, s.buckets, client, s.now, s.now);
  }

  // ------------------------------------------------ denials and Retry-After

  /** A denial changes nothing a later request could notice. */
  lemma DenialIsNeutral(l: Limits, m: Buckets, key: string, now: real, t: real)
    requires l.Valid() && SaneMap(l, m, now) && now <= t && !AllowIn(l, m, key, now).allowed
    ensures KeyLevel(l, AllowIn(l, m, key, now).buckets, key, t) == KeyLevel(l, m, key, t)
  {
    OwnRequest(l, m, key, now);
    RequestKeepsSane(l, m, key, now);
    KeyLevelLater(l, m, key, now, t);
    KeyLevelLater(l, AllowIn(l, m, key, now).buckets, key, now, t);
  }

  lemma EarnedStrict(l: Limits, a: real, b: real)
    requires l.rate > 0.0 && a < b
    ensures l.Earned(a, b) > 0.0
  {}

  /** The level reaches one exactly when the delay has passed, and not before. */
  lemma LevelAfterDelay(l: Limits, m: Buckets, key: string, now: real, delay: real, t: real)
    requires l.Valid() && SaneMap(l, m, now) && now <= t
    requires delay > 0.0 && l.rate * delay == 1.0 - KeyLevel(l, m, key, now)
    ensures KeyLevel(l, m, key, t) >= 1.0 <==> t >= now + delay
  {
    KeyLevelLater(l, m, key, now, t);
    assert (now + delay) - now == delay;
    assert l.Earned(now, now + delay) == 1.0 - KeyLevel(l, m, key, now);
    if t >= now + delay {
      EarnedAdds(l, now, now + delay, t);
      EarnedSign(l, now + delay, t);
    } else {
      EarnedAdds(l, now, t, now + delay);
      EarnedStrict(l, t, now + delay);
    }
  }

  /** The client has less than a token until the given instant, and enough from then on. */
  ghost predicate WaitsUntil(l: Limits, client: string, s: Track, at: real) {
    && SaneMap(l, s.buckets, s.now) && s.now < at
    && forall t :: s.now <= t ==> (KeyLevel(l, s.buckets, client, t) >= 1.0 <==> at <= t)
  }

  lemma MoveKeepsWaiting(l: Limits, client: string, s: Track, e: Track, own: bool, at: real)
    requires l.Valid() && WaitsUntil(l, client, s, at) && Moves(l, client, s, e, own)
    requires e.now < at && e.discards == s.discards
    ensures e.granted == s.granted && WaitsUntil(l, client, e, at)
  {
    assert KeyLevel(l, s.buckets, client, e.now) < 1.0;
    forall t | e.now <= t ensures KeyLevel(l, e.buckets, client, t) == KeyLevel(l, s.buckets, client, t) {
      KeyLevelLater(l, s.buckets, client, s.now, e.now);
      KeyLevelLater(l, s.buckets, client, e.now, t);
      KeyLevelLater(l, e.buckets, client, e.now, t);
    }
  }

  lemma {:induction false} DiscardsOnlyGrow(l: Limits, client: string, s: Track, ops: seq<Op>)
    requires l.rate > 0.0
    ensures Play(l, client, s, ops).discards >= s.discards
    decreases |ops|
  {
    if ops != [] {
      DiscardsOnlyGrow(l, client, Step(l, client, s, ops[0]), ops[1..]);
    }
  }

  lemma {:induction false} PlayKeepsWaiting(l: Limits, client: string, s: Track, ops: seq<Op>, at: real)
    requires l.Valid() && WaitsUntil(l, client, s, at) && Ordered(s.now, ops)
    requires forall op :: op in ops ==> op.at < at
    requires Play(l, client, s, ops).discards == s.discards
    ensures Play(l, client, s, ops).granted == s.granted
    ensures WaitsUntil(l, client, Play(l, client, s, ops), at)
    decreases |ops|
  {
    if ops != [] {
      assert ops[0] in ops;
      var e := Step(l, client, s, ops[0]);
      StepMoves(l, client, s, ops[0]);
      DiscardsOnlyGrow(l, client, e, ops[1..]);
      MoveKeepsWaiting(l, client, s, e, ops[0].Request? && ops[0].key == client, at);
      PlayKeepsWaiting(l, client, e, ops[1..], at);
    }
  }

  /** A denied client waits until its delay has passed. */
  lemma DenialStartsWait(l: Limits, client: string, s: Track)
    requires l.Valid() && SaneMap(l, s.buckets, s.now)
    requires !AllowIn(l, s.buckets, client, s.now).allowed
    ensures var e := Step(l, client, s, Request(client, s.now));
            && e.granted == s.granted && e.now == s.now
            && WaitsUntil(l, client, e, s.now + AllowIn(l, s.buckets, client, s.now).delay)
  {
    var a := AllowIn(l, s.buckets, client, s.now);
    OwnRequest(l, s.buckets, client, s.now);
    RequestKeepsSane(l, s.buckets, client, s.now);
    forall x | s.now <= x ensures KeyLevel(l, a.buckets, client, x) >= 1.0 <==> s.now + a.delay <= x {
      LevelAfterDelay(l, a.buckets, client, s.now, a.delay, x);
    }
  }

  lemma WaitEnds(l: Limits, client: string, s: Track, at: real, t: real)
    requires l.Valid() && WaitsUntil(l, client, s, at) && at <= t
    ensures AllowIn(l, s.buckets, client, t).allowed
  {
    KeyLevelLater(l, s.buckets, client, s.now, t);
    OwnRequest(l, s.buckets, client, t);
  }

  /**
   * A denial's delay is honest. Whatever anyone does before it has passed, every request of
   * the client is denied unless its bucket is discarded; the first one at or after is granted.
   */
  lemma RetryAfterIsHonest(l: Limits, client: string, s: Track, e: Track, ops: seq<Op>, at: real, t: real)
    requires l.Valid() && SaneMap(l, s.buckets, s.now)
    requires !AllowIn(l, s.buckets, client, s.now).allowed && at == s.now + AllowIn(l, s.buckets, client, s.now).delay
    requires e == Step(l, client, s, Request(client, s.now))
    requires Ordered(s.now, ops) && (forall op :: op in ops ==> op.at < at) && at <= t
    requires Play(l, client, e, ops).discards == e.discards
    ensures Play(l, client, e, ops).granted == s.granted
    ensures AllowIn(l, Play(l, client, e, ops).buckets, client, t).allowed
  {
    DenialStartsWait(l, client, s);
    PlayKeepsWaiting(l, client, e, ops, at);
    WaitEnds(l, client, Play(l, client, e, ops), at, t);
  }

  /** The Retry-After header: whole seconds, rounded up, at least one. */
  function RetryAfterSeconds(delay: real): (seconds: int)
    ensures seconds >= 1 && seconds as real >= delay
    ensures seconds > 1 ==> (seconds - 1) as real < delay
  {
    var ceil := -((-delay).Floor);
    if ceil < 1 then 1 else ceil
  }

  // ------------------------------------------------------------------ pruning

  lemma IdleBucketIsFull(l: Limits, b: Bucket, now: real, t: real)
    requires l.Valid() && l.rate * l.ttl >= l.Cap()
    requires Sane(l, b, now) && b.lastSeen == b.last && Idle(l, b, now) && now <= t
    ensures Advance(l, b, t) == l.Cap()
  {
    EarnedAdds(l, b.last, b.last + l.ttl, t);
    EarnedSign(l, b.last + l.ttl, t);
    assert l.Earned(b.last, b.last + l.ttl) == l.rate * l.ttl;
  }

  // ------------------------------------------------- exactly the reference

  ghost predicate InStep(l: Limits, client: string, s: Track, clients: set<string>) {
    && SaneMap(l, s.buckets, s.now) && s.buckets.Keys <= clients && |clients| <= l.maxEntries
    && s.ref.last <= s.now && 0.0 <= s.ref.tokens
    && s.granted == s.refGranted
    && KeyLevel(l, s.buckets, client, s.now) == RefLevel(l, s.ref, s.now)
  }

  lemma RoomForOneMore(m: Buckets, clients: set<string>, key: string)
    requires m.Keys <= clients && key in clients && key !in m
    ensures |m| < |clients|
  {
    assert m.Keys <= clients - {key};
    assert |clients - {key}| == |m.Keys| + |(clients - {key}) - m.Keys|;
  }

  /** Nobody is thrown out for lack of room, so only pruning removes buckets. */
  lemma StepKeepsClients(l: Limits, client: string, s: Track, op: Op, clients: set<string>)
    requires l.Valid() && s.buckets.Keys <= clients && |clients| <= l.maxEntries
    requires op.Request? ==> op.key in clients
    ensures Step(l, client, s, op).buckets.Keys <= clients
    ensures op.Request? ==> Step(l, client, s, op).discards == s.discards
  {
    if op.Request? && op.key !in s.buckets { RoomForOneMore(s.buckets, clients, op.key); }
  }

  lemma MoveStaysInStep(l: Limits, client: string, s: Track, e: Track, own: bool, clients: set<string>)
    requires l.Valid() && InStep(l, client, s, clients) && Moves(l, client, s, e, own)
    requires e.buckets.Keys <= clients
    requires e.discards == s.discards || KeyLevel(l, s.buckets, client, e.now) == l.Cap()
    ensures InStep(l, client, e, clients)
  {
    KeyLevelLater(l, s.buckets, client, s.now, e.now);
    RefLevelLater(l, s.ref, s.now, e.now);
    EarnedSign(l, s.ref.last, e.now);
  }

  lemma PrunedWasFull(l: Limits, client: string, s: Track, t: real)
    requires l.Valid() && l.rate * l.ttl >= l.Cap() && SaneMap(l, s.buckets, s.now) && s.now <= t
    ensures var e := Step(l, client, s, Prune(t));
            e.discards == s.discards || KeyLevel(l, s.buckets, client, t) == l.Cap()
  {
    if client in s.buckets && Idle(l, s.buckets[client], t) {
      IdleBucketIsFull(l, s.buckets[client], t, t);
    }
  }

  lemma StepStaysInStep(l: Limits, client: string, s: Track, op: Op, clients: set<string>)
    requires l.Valid() && l.rate * l.ttl >= l.Cap() && InStep(l, client, s, clients)
    requires s.now <= op.at && (op.Request? ==> op.key in clients)
    ensures InStep(l, client, Step(l, client, s, op), clients)
  {
    StepMoves(l, client, s, op);
    StepKeepsClients(l, client, s, op, clients);
    if op.Prune? { PrunedWasFull(l, client, s, op.at); }
    MoveStaysInStep(l, client, s, Step(l, client, s, op), op.Request? && op.key == client, clients);
  }

  /**
   * When all clients fit the map and idle buckets have time to refill, the bounded limiter
   * is the reference: after every history each client has been granted exactly the same.
   */
  lemma {:induction false} EnoughRoomMeansReference(l: Limits, client: string, s: Track, ops: seq<Op>, clients: set<string>)
    requires l.Valid() && l.rate * l.ttl >= l.Cap() && InStep(l, client, s, clients)
    requires Ordered(s.now, ops) && forall op :: op in ops && op.Request? ==> op.key in clients
    ensures Play(l, client, s, ops).granted == Play(l, client, s, ops).refGranted
    decreases |ops|
  {
    if ops != [] {
      assert ops[0] in ops;
      StepStaysInStep(l, client, s, ops[0], clients);
      EnoughRoomMeansReference(l, client, Step(l, client, s, ops[0]), ops[1..], clients);
    }
  }
}
