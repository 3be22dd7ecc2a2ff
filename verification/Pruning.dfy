/**
 * When pruning idle buckets can be noticed. Two histories are compared: one with its prunes
 * and the same one without them. A prune that comes too early forgives a drained client; and
 * in a map that can fill up, a prune also decides whether the next client resets everyone.
 */
module Pruning {
  import opened RateLimit
  import opened RateLimitProofs

  function WithoutPrunes(ops: seq<Op>): seq<Op> {
    if ops == [] then [] else (if ops[0].Prune? then [] else [ops[0]]) + WithoutPrunes(ops[1..])
  }

  predicate AskedBy(ops: seq<Op>, clients: set<string>) {
    forall op :: op in ops && op.Request? ==> op.key in clients
  }

  function Granted(l: Limits, client: string, now: real, ops: seq<Op>): int
    requires l.rate > 0.0
  {
    Play(l, client, Start(l, now), ops).granted
  }

  /** Whatever these clients ask, and whenever the map is pruned, all are granted the same. */
  ghost predicate PruneUnobservable(l: Limits, clients: set<string>)
    requires l.rate > 0.0
  {
    forall now, ops, client :: now >= 0.0 && Ordered(now, ops) && AskedBy(ops, clients) ==>
      Granted(l, client, now, ops) == Granted(l, client, now, WithoutPrunes(ops))
  }

  // ------------------------------------------------------- histories in pieces

  lemma {:induction false} PlaySplit(l: Limits, client: string, s: Track, a: seq<Op>, b: seq<Op>)
    requires l.rate > 0.0
    ensures Play(l, client, s, a + b) == Play(l, client, Play(l, client, s, a), b)
    decreases |a|
  {
    if a == [] {
      assert a + b == b;
    } else {
      assert (a + b)[1..] == a[1..] + b;
      PlaySplit(l, client, Step(l, client, s, a[0]), a[1..], b);
    }
  }

  lemma PlayOne(l: Limits, client: string, s: Track, op: Op)
    requires l.rate > 0.0
    ensures Play(l, client, s, [op]) == Step(l, client, s, op)
  {
    assert [op][1..] == [];
  }

  lemma {:induction false} WithoutPrunesSplit(a: seq<Op>, b: seq<Op>)
    ensures WithoutPrunes(a + b) == WithoutPrunes(a) + WithoutPrunes(b)
    decreases |a|
  {
    if a == [] {
      assert a + b == b;
    } else {
      assert (a + b)[1..] == a[1..] + b;
      WithoutPrunesSplit(a[1..], b);
    }
  }

  lemma {:induction false} NothingToRemove(ops: seq<Op>)
    requires forall op :: op in ops ==> op.Request?
    ensures WithoutPrunes(ops) == ops
    decreases |ops|
  {
    if ops != [] {
      assert ops[0] in ops;
      NothingToRemove(ops[1..]);
      assert [ops[0]] + ops[1..] == ops;
    }
  }

  /** A history of one prune between two runs of requests. */
  lemma OnePruneRemoved(a: seq<Op>, t: real, b: seq<Op>)
    requires (forall op :: op in a ==> op.Request?) && forall op :: op in b ==> op.Request?
    ensures WithoutPrunes(a + [Prune(t)] + b) == a + b
  {
    WithoutPrunesSplit(a + [Prune(t)], b);
    WithoutPrunesSplit(a, [Prune(t)]);
    NothingToRemove(a);
    NothingToRemove(b);
    assert WithoutPrunes([Prune(t)]) == [];
    assert a + [] == a;
  }

  lemma {:induction false} AllAtOnceIsOrdered(now: real, ops: seq<Op>, t: real)
    requires now <= t && forall op :: op in ops ==> op.at == t
    ensures Ordered(now, ops)
    decreases |ops|
  {
    if ops != [] {
      assert ops[0] in ops;
      AllAtOnceIsOrdered(t, ops[1..], t);
    }
  }

  lemma {:induction false} TwoInstantsAreOrdered(t0: real, a: seq<Op>, t: real, b: seq<Op>)
    requires t0 <= t && (forall op :: op in a ==> op.at == t0) && forall op :: op in b ==> op.at == t
    ensures Ordered(t0, a + b)
    decreases |a|
  {
    if a == [] {
      assert a + b == b;
      AllAtOnceIsOrdered(t0, b, t);
    } else {
      assert (a + b)[1..] == a[1..] + b;
      assert a[0] in a;
      TwoInstantsAreOrdered(t0, a[1..], t, b);
    }
  }

  // ----------------------------------------------------- enough room: the reference

  /** The reference never notices a prune. */
  lemma {:induction false} ReferenceIgnoresPrunes(l: Limits, client: string, s: Track, s': Track, ops: seq<Op>)
    requires l.rate > 0.0 && s.ref == s'.ref && s.refGranted == s'.refGranted
    ensures Play(l, client, s, ops).refGranted == Play(l, client, s', WithoutPrunes(ops)).refGranted
    decreases |ops|
  {
    if ops != [] {
      var rest := WithoutPrunes(ops[1..]);
      var e := Step(l, client, s, ops[0]);
      if ops[0].Prune? {
        assert WithoutPrunes(ops) == rest;
        ReferenceIgnoresPrunes(l, client, e, s', ops[1..]);
      } else {
        assert ([ops[0]] + rest)[1..] == rest;
        ReferenceIgnoresPrunes(l, client, e, Step(l, client, s', ops[0]), ops[1..]);
      }
    }
  }

  lemma {:induction false} OrderedWithoutPrunes(now: real, ops: seq<Op>)
    requires Ordered(now, ops)
    ensures Ordered(now, WithoutPrunes(ops))
    decreases |ops|
  {
    if ops != [] {
      OrderedWithoutPrunes(ops[0].at, ops[1..]);
      if ops[0].Prune? {
        assert WithoutPrunes(ops) == WithoutPrunes(ops[1..]);
        OrderedEarlier(now, ops[0].at, WithoutPrunes(ops));
      } else {
        assert ([ops[0]] + WithoutPrunes(ops[1..]))[1..] == WithoutPrunes(ops[1..]);
      }
    }
  }

  lemma OrderedEarlier(now: real, t: real, ops: seq<Op>)
    requires now <= t && Ordered(t, ops)
    ensures Ordered(now, ops)
  {}

  lemma {:induction false} FewerOps(ops: seq<Op>)
    ensures forall op :: op in WithoutPrunes(ops) ==> op in ops
    decreases |ops|
  {
    if ops != [] {
      FewerOps(ops[1..]);
    }
  }

  lemma RoomHidesPrunes(l: Limits, clients: set<string>, now: real, ops: seq<Op>, client: string)
    requires l.Valid() && l.rate * l.ttl >= l.Cap() && |clients| <= l.maxEntries
    requires now >= 0.0 && Ordered(now, ops) && AskedBy(ops, clients)
    ensures Granted(l, client, now, ops) == Granted(l, client, now, WithoutPrunes(ops))
  {
    var s := Start(l, now);
    assert RefLevel(l, s.ref, now) == l.Cap();
    OrderedWithoutPrunes(now, ops);
    FewerOps(ops);
    EnoughRoomMeansReference(l, client, s, ops, clients);
    EnoughRoomMeansReference(l, client, s, WithoutPrunes(ops), clients);
    ReferenceIgnoresPrunes(l, client, s, s, ops);
  }

  // ------------------------------------------------- a map of one: every newcomer resets

  /** The same map, or a single bucket that has refilled was pruned from it. */
  ghost predicate Alike(l: Limits, m: Buckets, m': Buckets, now: real) {
    || m == m'
    || (m == map[] && exists x :: m'.Keys == {x} && Advance(l, m'[x], now) == l.Cap() && m'[x].last <= now)
  }

  lemma FullStaysFull(l: Limits, b: Bucket, now: real, t: real)
    requires l.Valid() && b.last <= now <= t && Advance(l, b, now) == l.Cap()
    ensures Advance(l, b, t) == l.Cap()
  {
    LevelLater(l, b, now, t);
    EarnedSign(l, now, t);
  }

  /** A full bucket decides like a new one, and is left like one. */
  lemma FullDecidesAlike(l: Limits, b: Bucket, t: real)
    requires l.Valid() && t >= 0.0 && b.last <= t && Advance(l, b, t) == l.Cap()
    ensures Decide(l, b.(lastSeen := t), t) == Decide(l, NewBucket(l, t), t)
  {
    EarnedSign(l, 0.0, t);
    assert Advance(l, b.(lastSeen := t), t) == Advance(l, NewBucket(l, t), t) == l.Cap();
  }

  lemma AlikeRequest(l: Limits, m: Buckets, m': Buckets, now: real, key: string, t: real)
    requires l.Valid() && l.maxEntries == 1 && now <= t && t >= 0.0
    requires Alike(l, m, m', now)
    ensures AllowIn(l, m, key, t) == AllowIn(l, m', key, t)
  {
    if m != m' {
      var x :| m'.Keys == {x} && Advance(l, m'[x], now) == l.Cap() && m'[x].last <= now;
      assert |m'| == |m'.Keys| == 1;
      var ready := map[key := NewBucket(l, t)];
      assert WithBucket(l, m, key, t) == ready;
      if key == x {
        FullStaysFull(l, m'[x], now, t);
        FullDecidesAlike(l, m'[x], t);
        assert forall b :: m'[key := b] == map[key := b];
      }
    }
  }

  lemma AlikePrune(l: Limits, m: Buckets, m': Buckets, now: real, t: real)
    requires l.Valid() && l.maxEntries == 1 && l.rate * l.ttl >= l.Cap() && now <= t
    requires Alike(l, m, m', now) && SaneMap(l, m, now)
    ensures Alike(l, PruneIn(l, m, t), m', t)
  {
    if m == m' {
      if x :| x in m && Idle(l, m[x], t) {
        OnlyMember(m.Keys, x);
        IdleBucketIsFull(l, m[x], t, t);
        assert PruneIn(l, m, t) == map[];
      } else {
        assert PruneIn(l, m, t) == m;
      }
    } else {
      var x :| m'.Keys == {x} && Advance(l, m'[x], now) == l.Cap() && m'[x].last <= now;
      FullStaysFull(l, m'[x], now, t);
      assert PruneIn(l, m, t) == map[];
    }
  }

  lemma OnlyMember(s: set<string>, x: string)
    requires |s| <= 1 && x in s
    ensures s == {x}
  {
    assert |s - {x}| == 0;
  }

  lemma {:induction false} SingleHidesPrunes(l: Limits, client: string, s: Track, s': Track, ops: seq<Op>)
    requires l.Valid() && l.maxEntries == 1 && l.rate * l.ttl >= l.Cap()
    requires Alike(l, s.buckets, s'.buckets, s.now) && SaneMap(l, s.buckets, s.now)
    requires s.granted == s'.granted && Ordered(s.now, ops)
    ensures Play(l, client, s, ops).granted == Play(l, client, s', WithoutPrunes(ops)).granted
    decreases |ops|
  {
    if ops != [] {
      var rest, e := WithoutPrunes(ops[1..]), Step(l, client, s, ops[0]);
      StepMoves(l, client, s, ops[0]);
      if ops[0].Prune? {
        assert WithoutPrunes(ops) == rest;
        AlikePrune(l, s.buckets, s'.buckets, s.now, ops[0].at);
        SingleHidesPrunes(l, client, e, s', ops[1..]);
      } else {
        assert ([ops[0]] + rest)[1..] == rest;
        AlikeRequest(l, s.buckets, s'.buckets, s.now, ops[0].key, ops[0].at);
        SingleHidesPrunes(l, client, e, Step(l, client, s', ops[0]), ops[1..]);
      }
    }
  }

  // ------------------------------------------------------------ bursts of requests

  function Burst(key: string, n: nat, t: real): seq<Op> {
    if n == 0 then [] else [Request(key, t)] + Burst(key, n - 1, t)
  }

  lemma {:induction false} BurstOps(key: string, n: nat, t: real)
    ensures forall op :: op in Burst(key, n, t) ==> op == Request(key, t)
  {
    if n > 0 {
      BurstOps(key, n - 1, t);
    }
  }

  /** One request by a client for whom there is room: only its own bucket changes. */
  lemma RoomyRequest(l: Limits, m: Buckets, key: string, t: real)
    requires l.Valid() && SaneMap(l, m, t) && (key in m || |m| < l.maxEntries)
    ensures var after := AllowIn(l, m, key, t).buckets;
            && SaneMap(l, after, t) && key in after && after == m[key := after[key]]
            && after[key].lastSeen == t
  {
    RequestKeepsSane(l, m, key, t);
    var ready := WithBucket(l, m, key, t);
    NewBucketIsFull(l, t);
    DecideIsTokenBucket(l, ready[key].(lastSeen := t), t);
    assert ready[key := AllowIn(l, m, key, t).buckets[key]] == m[key := AllowIn(l, m, key, t).buckets[key]];
  }

  /** The map after a client's own requests: its bucket alone has changed. */
  ghost predicate OnlyTouched(m: Buckets, after: Buckets, key: string, t: real) {
    key in after && after == m[key := after[key]] && after[key].lastSeen == t
  }

  /** A client with n tokens is granted n requests, and has that many fewer left. */
  lemma {:induction false} BurstGranted(l: Limits, client: string, s: Track, n: nat, t: real)
    requires l.Valid() && SaneMap(l, s.buckets, t) && (client in s.buckets || |s.buckets| < l.maxEntries)
    requires n >= 1 && KeyLevel(l, s.buckets, client, t) >= n as real
    ensures var e := Play(l, client, s, Burst(client, n, t));
            && e.granted == s.granted + n && e.now == t && SaneMap(l, e.buckets, t)
            && OnlyTouched(s.buckets, e.buckets, client, t)
            && KeyLevel(l, e.buckets, client, t) == KeyLevel(l, s.buckets, client, t) - n as real
    decreases n
  {
    var op, rest := Request(client, t), Burst(client, n - 1, t);
    var e := Step(l, client, s, op);
    assert ([op] + rest)[1..] == rest;
    OwnRequest(l, s.buckets, client, t);
    RoomyRequest(l, s.buckets, client, t);
    if n > 1 {
      assert (n - 1) as real == n as real - 1.0;
      BurstGranted(l, client, e, n - 1, t);
      var f := Play(l, client, e, rest);
      assert s.buckets[client := e.buckets[client]][client := f.buckets[client]] == s.buckets[client := f.buckets[client]];
    }
  }

  /** A client with less than n tokens is not granted n requests. */
  lemma {:induction false} BurstStarved(l: Limits, client: string, s: Track, n: nat, t: real)
    requires l.Valid() && SaneMap(l, s.buckets, t) && client in s.buckets
    requires n >= 1 && KeyLevel(l, s.buckets, client, t) < n as real
    ensures Play(l, client, s, Burst(client, n, t)).granted < s.granted + n
    decreases n
  {
    var op, rest := Request(client, t), Burst(client, n - 1, t);
    var e := Step(l, client, s, op);
    assert ([op] + rest)[1..] == rest;
    OwnRequest(l, s.buckets, client, t);
    RoomyRequest(l, s.buckets, client, t);
    if n > 1 {
      assert (n - 1) as real == n as real - 1.0;
      BurstStarved(l, client, e, n - 1, t);
    }
  }

  // --------------------------------------------------- an early prune forgives

  /** The two histories around one prune, from the state before it. */
  lemma AroundOnePrune(l: Limits, client: string, s: Track, before: seq<Op>, t: real, after: seq<Op>)
    requires l.rate > 0.0
    requires (forall op :: op in before ==> op.Request?) && forall op :: op in after ==> op.Request?
    ensures var mid, ops := Play(l, client, s, before), before + [Prune(t)] + after;
            && Play(l, client, s, ops) == Play(l, client, Step(l, client, mid, Prune(t)), after)
            && Play(l, client, s, WithoutPrunes(ops)) == Play(l, client, mid, after)
  {
    var mid := Play(l, client, s, before);
    OnePruneRemoved(before, t, after);
    PlaySplit(l, client, s, before, after);
    PlaySplit(l, client, s, before + [Prune(t)], after);
    PlaySplit(l, client, s, before, [Prune(t)]);
    PlayOne(l, client, mid, Prune(t));
  }

  /** Any history whose grants differ shows the prunes. */
  lemma Distinguishes(l: Limits, clients: set<string>, client: string, ops: seq<Op>)
    requires l.rate > 0.0 && Ordered(0.0, ops) && AskedBy(ops, clients)
    requires Granted(l, client, 0.0, ops) != Granted(l, client, 0.0, WithoutPrunes(ops))
    ensures !PruneUnobservable(l, clients)
  {}

  /** Drain the bucket, let the given time pass, drain it again. */
  lemma DrainTwiceIsHistory(client: string, clients: set<string>, n: nat, t: real)
    requires t >= 0.0 && client in clients
    ensures var first, second := Burst(client, n, 0.0), Burst(client, n, t);
            && (forall op :: op in first ==> op.Request?) && (forall op :: op in second ==> op.Request?)
            && Ordered(0.0, first + [Prune(t)] + second) && AskedBy(first + [Prune(t)] + second, clients)
  {
    var first, second := Burst(client, n, 0.0), Burst(client, n, t);
    BurstOps(client, n, 0.0);
    BurstOps(client, n, t);
    assert first + [Prune(t)] + second == first + ([Prune(t)] + second);
    TwoInstantsAreOrdered(0.0, first, t, [Prune(t)] + second);
  }

  /** Drain the bucket, prune as soon as it counts as idle, drain it again. */
  lemma EarlyPruneShows(l: Limits, clients: set<string>)
    requires l.Valid() && l.rate * l.ttl < l.Cap() && clients != {}
    ensures !PruneUnobservable(l, clients)
  {
    var client :| client in clients;
    var slack := (l.Cap() - l.rate * l.ttl) / (2.0 * l.rate);
    SlackIsSmall(l, slack);
    var t := l.ttl + slack;
    var first, second := Burst(client, l.burst, 0.0), Burst(client, l.burst, t);
    DrainTwiceIsHistory(client, clients, l.burst, t);
    AroundOnePrune(l, client, Start(l, 0.0), first, t, second);
    BurstGranted(l, client, Start(l, 0.0), l.burst, 0.0);
    var drained := Play(l, client, Start(l, 0.0), first);
    Forgiven(l, client, drained, t);
    NotForgiven(l, client, drained, t, slack);
    Distinguishes(l, clients, client, first + [Prune(t)] + second);
  }

  lemma Forgiven(l: Limits, client: string, drained: Track, t: real)
    requires l.Valid() && SaneMap(l, drained.buckets, 0.0) && t > l.ttl
    requires OnlyTouched(map[], drained.buckets, client, 0.0)
    ensures Play(l, client, Step(l, client, drained, Prune(t)), Burst(client, l.burst, t)).granted == drained.granted + l.burst
  {
    var pruned := Step(l, client, drained, Prune(t));
    assert pruned.buckets == map[];
    BurstGranted(l, client, pruned, l.burst, t);
  }

  lemma NotForgiven(l: Limits, client: string, drained: Track, t: real, slack: real)
    requires l.Valid() && SaneMap(l, drained.buckets, 0.0) && t == l.ttl + slack && slack > 0.0
    requires client in drained.buckets && KeyLevel(l, drained.buckets, client, 0.0) == 0.0
    requires l.rate * slack < l.Cap() - l.rate * l.ttl
    ensures Play(l, client, drained, Burst(client, l.burst, t)).granted < drained.granted + l.burst
  {
    KeyLevelLater(l, drained.buckets, client, 0.0, t);
    assert l.Earned(0.0, t) == l.rate * l.ttl + l.rate * slack;
    BurstStarved(l, client, drained, l.burst, t);
  }

  lemma SlackIsSmall(l: Limits, slack: real)
    requires l.Valid() && l.rate * l.ttl < l.Cap() && slack == (l.Cap() - l.rate * l.ttl) / (2.0 * l.rate)
    ensures slack > 0.0 && l.rate * slack < l.Cap() - l.rate * l.ttl
  {
    var room := l.Cap() - l.rate * l.ttl;
    assert 2.0 * l.rate * slack == room;
  }

  // ------------------------------------------------ a prune that averts a reset

  function Asks(keys: seq<string>, t: real): seq<Op> {
    if keys == [] then [] else [Request(keys[0], t)] + Asks(keys[1..], t)
  }

  lemma {:induction false} AsksOps(keys: seq<string>, t: real)
    ensures forall op :: op in Asks(keys, t) ==> op.Request? && op.at == t && op.key in keys
    decreases |keys|
  {
    if keys != [] {
      AsksOps(keys[1..], t);
    }
  }

  predicate NoRepeats(keys: seq<string>) {
    forall i, j :: 0 <= i < j < |keys| ==> keys[i] != keys[j]
  }

  function SetOf(keys: seq<string>): set<string> { set k | k in keys }

  /** Newcomers who all fit join the map and disturb nobody. */
  ghost predicate Joined(m: Buckets, after: Buckets, keys: seq<string>, t: real) {
    && after.Keys == m.Keys + SetOf(keys)
    && (forall k :: k in m ==> after[k] == m[k])
    && (forall k :: k in keys ==> after[k].lastSeen == t)
  }

  lemma NewcomerJoins(l: Limits, client: string, s: Track, key: string, t: real)
    requires l.Valid() && SaneMap(l, s.buckets, t) && |s.buckets| < l.maxEntries && key != client && key !in s.buckets
    ensures var e := Step(l, client, s, Request(key, t));
            && e.granted == s.granted && SaneMap(l, e.buckets, t) && |e.buckets| == |s.buckets| + 1
            && e.buckets.Keys == s.buckets.Keys + {key} && e.buckets[key].lastSeen == t
            && (forall k :: k in s.buckets ==> e.buckets[k] == s.buckets[k])
  {
    RoomyRequest(l, s.buckets, key, t);
    var after := Step(l, client, s, Request(key, t)).buckets;
    assert after.Keys == s.buckets.Keys + {key};
    assert |after| == |after.Keys|;
  }

  lemma {:induction false} NewcomersJoin(l: Limits, client: string, s: Track, keys: seq<string>, t: real)
    requires l.Valid() && SaneMap(l, s.buckets, t) && |s.buckets| + |keys| <= l.maxEntries
    requires NoRepeats(keys) && client !in keys && forall k :: k in keys ==> k !in s.buckets
    ensures var e := Play(l, client, s, Asks(keys, t));
            e.granted == s.granted && SaneMap(l, e.buckets, t) && Joined(s.buckets, e.buckets, keys, t)
    decreases |keys|
  {
    if keys != [] {
      var op, rest := Request(keys[0], t), Asks(keys[1..], t);
      assert ([op] + rest)[1..] == rest;
      assert keys[0] in keys && keys[0] !in keys[1..];
      NewcomerJoins(l, client, s, keys[0], t);
      var e := Step(l, client, s, op);
      NewcomersJoin(l, client, e, keys[1..], t);
      JoinedChain(s.buckets, e.buckets, Play(l, client, e, rest).buckets, keys, t);
    }
  }

  lemma JoinedChain(m: Buckets, mid: Buckets, after: Buckets, keys: seq<string>, t: real)
    requires keys != [] && keys[0] !in m && mid.Keys == m.Keys + {keys[0]} && mid[keys[0]].lastSeen == t
    requires forall k :: k in m ==> mid[k] == m[k]
    requires Joined(mid, after, keys[1..], t)
    ensures Joined(m, after, keys, t)
  {
    assert SetOf(keys) == {keys[0]} + SetOf(keys[1..]);
  }

  lemma PickOne(from: set<string>) returns (x: string, rest: set<string>)
    requires |from| >= 1
    ensures x in from && rest == from - {x} && |rest| == |from| - 1
  {
    x :| x in from;
    rest := from - {x};
  }

  lemma {:induction false} PickSome(from: set<string>, n: nat) returns (keys: seq<string>)
    requires n <= |from|
    ensures |keys| == n && NoRepeats(keys) && SetOf(keys) <= from && |SetOf(keys)| == n
    decreases n
  {
    if n == 0 {
      keys := [];
    } else {
      var k :| k in from;
      var rest := PickSome(from - {k}, n - 1);
      keys := [k] + rest;
      assert SetOf(keys) == {k} + SetOf(rest);
    }
  }

  /** The full map just before the prune: one idle resident, a drained client, recent others. */
  ghost predicate Crowded(l: Limits, m: Buckets, idle: string, drained: string, others: seq<string>, t: real) {
    && SaneMap(l, m, t) && |m| == l.maxEntries && idle != drained && idle !in others && drained !in others
    && m.Keys == {idle, drained} + SetOf(others)
    && t - m[idle].lastSeen > l.ttl && m[drained].lastSeen == t
    && (forall k :: k in others ==> m[k].lastSeen == t)
    && KeyLevel(l, m, drained, t) == 0.0
  }

  /** Fill the map: one client long ago, the others now, one of whom spends all it has. */
  function Filling(l: Limits, idle: string, drained: string, others: seq<string>, t: real): seq<Op>
    requires l.Valid()
  {
    [Request(idle, 0.0)] + (Asks(others, t) + Burst(drained, l.burst, t))
  }

  lemma MapFills(l: Limits, idle: string, drained: string, others: seq<string>, t: real)
    requires l.Valid() && t > l.ttl && |others| == l.maxEntries - 2 && NoRepeats(others) && |SetOf(others)| == |others|
    requires idle != drained && idle !in others && drained !in others
    ensures var e := Play(l, drained, Start(l, 0.0), Filling(l, idle, drained, others, t));
            e.now == t && Crowded(l, e.buckets, idle, drained, others, t)
  {
    var s := Start(l, 0.0);
    var op, asks, burst := Request(idle, 0.0), Asks(others, t), Burst(drained, l.burst, t);
    PlaySplit(l, drained, s, [op], asks + burst);
    PlayOne(l, drained, s, op);
    RoomyRequest(l, map[], idle, 0.0);
    var s1 := Step(l, drained, s, op);
    KeyLevelLater(l, s1.buckets, drained, 0.0, t);
    assert s1.buckets.Keys == {idle};
    assert |s1.buckets| == |s1.buckets.Keys| == 1;
    PlaySplit(l, drained, s1, asks, burst);
    NewcomersJoin(l, drained, s1, others, t);
    var s2 := Play(l, drained, s1, asks);
    assert s2.buckets.Keys == {idle} + SetOf(others);
    assert |s2.buckets| == |s2.buckets.Keys| == 1 + |others|;
    BurstGranted(l, drained, s2, l.burst, t);
    LastOneIn(l, s2.buckets, Play(l, drained, s2, burst).buckets, idle, drained, others, t);
  }

  lemma LastOneIn(l: Limits, m: Buckets, after: Buckets, idle: string, drained: string, others: seq<string>, t: real)
    requires SaneMap(l, after, t) && OnlyTouched(m, after, drained, t) && KeyLevel(l, after, drained, t) == 0.0
    requires m.Keys == {idle} + SetOf(others) && |m.Keys| == l.maxEntries - 1
    requires idle != drained && idle !in others && drained !in others
    requires t - m[idle].lastSeen > l.ttl && forall k :: k in others ==> m[k].lastSeen == t
    ensures Crowded(l, after, idle, drained, others, t)
  {
    assert after.Keys == m.Keys + {drained};
    assert |after| == |after.Keys| == |m.Keys| + 1;
  }

  /** With the prune there is room for a newcomer, and the drained client is denied. */
  lemma PrunedMakesRoom(l: Limits, s: Track, idle: string, drained: string, others: seq<string>, newcomer: string, t: real)
    requires l.Valid() && s.now == t && Crowded(l, s.buckets, idle, drained, others, t)
    requires newcomer !in s.buckets
    ensures Play(l, drained, Step(l, drained, s, Prune(t)), [Request(newcomer, t), Request(drained, t)]).granted == s.granted
  {
    var p := Step(l, drained, s, Prune(t));
    assert p.buckets.Keys == s.buckets.Keys - {idle};
    assert |p.buckets| == |p.buckets.Keys| == |s.buckets.Keys| - 1;
    assert p.buckets[drained] == s.buckets[drained];
    PruneKeepsSane(l, s.buckets, t);
    RoomyRequest(l, p.buckets, newcomer, t);
    var q := Step(l, drained, p, Request(newcomer, t));
    assert q.buckets[drained] == s.buckets[drained];
    OwnRequest(l, q.buckets, drained, t);
    PlayTwo(l, drained, p, Request(newcomer, t), Request(drained, t));
  }

  lemma PlayTwo(l: Limits, client: string, s: Track, a: Op, b: Op)
    requires l.rate > 0.0
    ensures Play(l, client, s, [a, b]) == Step(l, client, Step(l, client, s, a), b)
  {
    assert [a, b][1..] == [b];
    PlayOne(l, client, Step(l, client, s, a), b);
  }

  /** Without it the newcomer resets the map, and the drained client starts afresh. */
  lemma UnprunedIsReset(l: Limits, s: Track, idle: string, drained: string, others: seq<string>, newcomer: string, t: real)
    requires l.Valid() && l.maxEntries >= 2 && s.now == t && Crowded(l, s.buckets, idle, drained, others, t)
    requires newcomer !in s.buckets
    ensures Play(l, drained, s, [Request(newcomer, t), Request(drained, t)]).granted == s.granted + 1
  {
    var q := Step(l, drained, s, Request(newcomer, t));
    assert q.buckets.Keys == {newcomer};
    assert drained !in q.buckets;
    RequestKeepsSane(l, s.buckets, newcomer, t);
    OwnRequest(l, q.buckets, drained, t);
    PlayTwo(l, drained, s, Request(newcomer, t), Request(drained, t));
  }

  lemma CrowdShows(l: Limits, clients: set<string>)
    requires l.Valid() && 2 <= l.maxEntries < |clients|
    ensures !PruneUnobservable(l, clients)
  {
    var idle, rest := PickOne(clients);
    var drained, rest' := PickOne(rest);
    var newcomer, rest'' := PickOne(rest');
    var others := PickSome(rest'', l.maxEntries - 2);
    assert forall k :: k in others ==> k in SetOf(others);
    var t := l.ttl + 1.0;
    var before, after := Filling(l, idle, drained, others, t), [Request(newcomer, t), Request(drained, t)];
    FillingIsHistory(l, idle, drained, others, newcomer, clients, t);
    AroundOnePrune(l, drained, Start(l, 0.0), before, t, after);
    MapFills(l, idle, drained, others, t);
    var full := Play(l, drained, Start(l, 0.0), before);
    PrunedMakesRoom(l, full, idle, drained, others, newcomer, t);
    UnprunedIsReset(l, full, idle, drained, others, newcomer, t);
    Distinguishes(l, clients, drained, before + [Prune(t)] + after);
  }

  /** The history is in order, asked by the clients, and has no other prune. */
  lemma FillingIsHistory(l: Limits, idle: string, drained: string, others: seq<string>, newcomer: string, clients: set<string>, t: real)
    requires l.Valid() && t >= 0.0 && {idle, drained, newcomer} <= clients && forall k :: k in others ==> k in clients
    ensures var before, after := Filling(l, idle, drained, others, t), [Request(newcomer, t), Request(drained, t)];
            && (forall op :: op in before ==> op.Request?)
            && Ordered(0.0, before + [Prune(t)] + after) && AskedBy(before + [Prune(t)] + after, clients)
  {
    var asks, burst, after := Asks(others, t), Burst(drained, l.burst, t), [Request(newcomer, t), Request(drained, t)];
    AsksOps(others, t);
    BurstOps(drained, l.burst, t);
    var first, rest := [Request(idle, 0.0)], asks + burst + [Prune(t)] + after;
    assert Filling(l, idle, drained, others, t) + [Prune(t)] + after == first + rest;
    TwoInstantsAreOrdered(0.0, first, t, rest);
  }

  // ------------------------------------------------------------ the exact condition

  /**
   * Pruning can be noticed by none of these clients, in no history, if and only if an idle
   * bucket has had time to refill and a newcomer cannot reset anyone: all clients fit the map,
   * or the map holds a single bucket, which a newcomer replaces with or without a prune.
   */
  lemma PruneUnobservableIff(l: Limits, clients: set<string>)
    requires l.Valid() && clients != {}
    ensures PruneUnobservable(l, clients) <==>
            l.rate * l.ttl >= l.Cap() && (|clients| <= l.maxEntries || l.maxEntries == 1)
  {
    if l.rate * l.ttl < l.Cap() {
      EarlyPruneShows(l, clients);
    } else if l.maxEntries >= 2 && l.maxEntries < |clients| {
      CrowdShows(l, clients);
    } else {
      forall now, ops, client | now >= 0.0 && Ordered(now, ops) && AskedBy(ops, clients)
        ensures Granted(l, client, now, ops) == Granted(l, client, now, WithoutPrunes(ops))
      {
        if l.maxEntries == 1 {
          SingleHidesPrunes(l, client, Start(l, now), Start(l, now), ops);
        } else {
          RoomHidesPrunes(l, clients, now, ops, client);
        }
      }
    }
  }
}
