/** What every run of the protocol keeps about the ledger itself. */
module Safety {
  import opened Domain
  import opened Ledger
  import opened Events
  import opened Protocol
  import Json

  // ------------------------------------------------ how one row can change

  /** The five statements that can touch an existing row, or none. */
  ghost predicate Touched(r: LedgerRow, r': LedgerRow, now: Time) {
    || r' == r
    || ((r.status == Failed || r.status == Processing) && r' == Reopened(r, now))
    || (exists v :: Settle(r, v, now) == Some(r'))
    || (r.status == Processing && r' == Reclaimed(r, now))
    || (r.status != Processing && r.purgedAt.None? && r' == Purged(r, now))
  }

  lemma ClaimTouches(c: Config, w: World, l: Listing, k: nat, e: string)
    ensures l.event in c.catalogue && e in AfterDeliver(c, w, l.event, k).ledger ==>
              var r' := AfterDeliver(c, w, l.event, k).ledger[e];
              if e in w.ledger then Touched(w.ledger[e], r', w.now)
              else e == l.event && r' == Inserted(c.catalogue[e], w.now)
    ensures l.event in w.ledger && e in w.ledger ==>
              Touched(w.ledger[e], AfterRetry(c, w, l, k).ledger[e], w.now)
    ensures l.event in w.ledger ==> AfterRetry(c, w, l, k).ledger.Keys == w.ledger.Keys
  {}

  lemma FinishTouches(w: World, k: nat, e: string)
    requires k in w.workers && w.workers[k].pc.Settling? && w.workers[k].event in w.ledger
    ensures AfterFinish(w, k).ledger.Keys == w.ledger.Keys
    ensures e in w.ledger ==> Touched(w.ledger[e], AfterFinish(w, k).ledger[e], w.now)
  {
    SettleTouches(w.ledger[w.workers[k].event], w.workers[k].pc.verdict, w.now);
  }

  lemma ReclaimTouches(c: Config, w: World, es: set<string>, e: string)
    requires e in w.ledger && Enabled(c, w, Reclaim(es))
    ensures Touched(w.ledger[e], ReclaimRows(w.ledger, es, w.now)[e], w.now)
  {}

  lemma PurgeTouches(c: Config, w: World, es: set<string>, e: string)
    requires e in w.ledger && Enabled(c, w, Purge(es))
    ensures Touched(w.ledger[e], PurgeRows(w.ledger, es, w.now)[e], w.now)
  {}

  /** Every step touches each row by at most one statement, and only delivery adds a row. */
  lemma StepTouches(c: Config, w: World, s: Step, e: string)
    requires Enabled(c, w, s)
    requires e in Apply(c, w, s).ledger
    ensures e in w.ledger ==> Touched(w.ledger[e], Apply(c, w, s).ledger[e], w.now)
    ensures e !in w.ledger ==> s.Deliver? && s.event == e &&
                               Apply(c, w, s).ledger[e] == Inserted(c.catalogue[e], w.now)
  {
    match s
    case Deliver(d, k) => ClaimTouches(c, w, Listing(d, None), k, e);
    case Retry(l, k) => ClaimTouches(c, w, l, k, e);
    case Finish(k) => FinishTouches(w, k, e);
    case Reclaim(es) => ReclaimTouches(c, w, es, e);
    case Purge(es) => PurgeTouches(c, w, es, e);
    case _ => assert Apply(c, w, s).ledger == w.ledger;
  }

  lemma SettleTouches(r: LedgerRow, v: Verdict, now: Time)
    ensures Settle(r, v, now).Some? ==> Touched(r, Settle(r, v, now).value, now)
  {
    if Settle(r, v, now).Some? {
      assert Settle(r, v, now) == Some(Settle(r, v, now).value);
    }
  }

  lemma StepKeepsRows(c: Config, w: World, s: Step)
    requires Enabled(c, w, s)
    ensures w.ledger.Keys <= Apply(c, w, s).ledger.Keys
  {}

  // ------------------------------------------------------ rows stay legal

  ghost predicate PayloadIntact(c: Config, e: string, purged: bool, payload: Option<Json.Json>) {
    && e in c.catalogue
    && payload == Some(if purged then Json.Skeleton(c.catalogue[e]) else c.catalogue[e])
  }

  ghost predicate RowsLegal(c: Config, w: World) {
    forall e :: e in w.ledger ==>
      Legal(w.ledger[e]) && PayloadIntact(c, e, w.ledger[e].purgedAt.Some?, w.ledger[e].payload)
  }

  /** A worker replays the delivered body or its skeleton, never anything else. */
  ghost predicate Authentic(c: Config, w: World, e: string, payload: Option<Json.Json>) {
    e in w.ledger && (PayloadIntact(c, e, false, payload) || PayloadIntact(c, e, true, payload))
  }

  ghost predicate PayloadsAuthentic(c: Config, w: World) {
    && (forall k :: k in w.workers ==> Authentic(c, w, w.workers[k].event, w.workers[k].payload))
    && (forall l :: l in w.listed ==> Authentic(c, w, l.event, l.payload))
  }

  ghost predicate LedgerInv(c: Config, w: World) {
    RowsLegal(c, w) && PayloadsAuthentic(c, w)
  }

  lemma TouchedKeepsPayload(c: Config, e: string, r: LedgerRow, r': LedgerRow, now: Time)
    requires Touched(r, r', now) && PayloadIntact(c, e, r.purgedAt.Some?, r.payload)
    ensures PayloadIntact(c, e, r'.purgedAt.Some?, r'.payload)
  {}

  lemma TouchedKeepsChecks(r: LedgerRow, r': LedgerRow, now: Time)
    requires Touched(r, r', now) && Legal(r)
    ensures Legal(r')
  {
    if v :| Settle(r, v, now) == Some(r') {
      StatementsKeepChecks(r, now, v);
    } else {
      StatementsKeepChecks(r, now, Done);
    }
  }

  lemma StepKeepsRowsLegal(c: Config, w: World, s: Step)
    requires Enabled(c, w, s) && LedgerInv(c, w)
    ensures RowsLegal(c, Apply(c, w, s))
  {
    var w' := Apply(c, w, s);
    forall e | e in w'.ledger
      ensures Legal(w'.ledger[e]) && PayloadIntact(c, e, w'.ledger[e].purgedAt.Some?, w'.ledger[e].payload)
    {
      StepTouches(c, w, s, e);
      if e in w.ledger {
        TouchedKeepsChecks(w.ledger[e], w'.ledger[e], w.now);
        TouchedKeepsPayload(c, e, w.ledger[e], w'.ledger[e], w.now);
      }
    }
  }

  /** A worker keeps its event and payload; a new one has them from a delivery or a listing. */
  lemma WorkersOrigin(c: Config, w: World, s: Step, k: nat)
    requires Enabled(c, w, s) && k in Apply(c, w, s).workers
    ensures var e, payload := Apply(c, w, s).workers[k].event, Apply(c, w, s).workers[k].payload;
            if k in w.workers then e == w.workers[k].event && payload == w.workers[k].payload
            else if s.Deliver? then e == s.event && e in Apply(c, w, s).ledger && payload == Some(c.catalogue[e])
            else s.Retry? && e == s.listing.event && payload == s.listing.payload
  {}

  lemma StepKeepsWorkersAuthentic(c: Config, w: World, s: Step, k: nat)
    requires Enabled(c, w, s) && LedgerInv(c, w)
    requires k in Apply(c, w, s).workers
    ensures var worker := Apply(c, w, s).workers[k];
            Authentic(c, Apply(c, w, s), worker.event, worker.payload)
  {
    StepKeepsRows(c, w, s);
    WorkersOrigin(c, w, s, k);
    if k in w.workers {
      assert Authentic(c, w, w.workers[k].event, w.workers[k].payload);
    } else if s.Retry? {
      assert Authentic(c, w, s.listing.event, s.listing.payload);
    }
  }

  lemma StepKeepsListingsAuthentic(c: Config, w: World, s: Step, l: Listing)
    requires Enabled(c, w, s) && LedgerInv(c, w)
    requires l in Apply(c, w, s).listed
    ensures Authentic(c, Apply(c, w, s), l.event, l.payload)
  {
    StepKeepsRows(c, w, s);
    if l in w.listed {
      assert Authentic(c, w, l.event, l.payload);
    } else {
      assert s.List?;
    }
  }

  lemma StepKeepsLedgerInv(c: Config, w: World, s: Step)
    requires Enabled(c, w, s) && LedgerInv(c, w)
    ensures LedgerInv(c, Apply(c, w, s))
  {
    StepKeepsRowsLegal(c, w, s);
    forall k | k in Apply(c, w, s).workers
      ensures Authentic(c, Apply(c, w, s), Apply(c, w, s).workers[k].event, Apply(c, w, s).workers[k].payload)
    {
      StepKeepsWorkersAuthentic(c, w, s, k);
    }
    forall l | l in Apply(c, w, s).listed
      ensures Authentic(c, Apply(c, w, s), l.event, l.payload)
    {
      StepKeepsListingsAuthentic(c, w, s, l);
    }
  }

  /** Every reachable ledger satisfies the CHECKs, and every payload in play is authentic. */
  lemma {:induction false} RunKeepsLedgerInv(c: Config, w: World, steps: seq<Step>)
    requires IsRun(c, w, steps) && LedgerInv(c, w)
    ensures LedgerInv(c, Final(c, w, steps))
    decreases |steps|
  {
    if steps != [] {
      StepKeepsLedgerInv(c, w, steps[0]);
      RunKeepsLedgerInv(c, Apply(c, w, steps[0]), steps[1..]);
    }
  }

  lemma ReachableLedgerIsLegal(c: Config, w: World, steps: seq<Step>)
    requires Init(w) && IsRun(c, w, steps)
    ensures LedgerInv(c, Final(c, w, steps))
  {
    RunKeepsLedgerInv(c, w, steps);
  }

  // ---------------------------------------------------- outcomes are final

  /** What may never change again once recorded. */
  ghost predicate Extends(r: LedgerRow, r': LedgerRow) {
    && r'.receivedAt == r.receivedAt
    && r'.attempts >= r.attempts
    && (r.Settled() ==> r'.status == r.status && r'.attempts == r.attempts && r'.processedAt == r.processedAt)
    && (r.purgedAt.Some? ==> r'.purgedAt == r.purgedAt && r'.payload == r.payload)
    && (r'.payload == r.payload || (r.payload.Some? && r'.payload == Some(Json.Skeleton(r.payload.value))))
  }

  lemma TouchedExtends(r: LedgerRow, r': LedgerRow, now: Time)
    requires Touched(r, r', now)
    ensures Extends(r, r')
  {}

  /**
   * Over any run: succeeded and skipped are absorbing, with attempts and processed_at
   * frozen, so no late settle overwrites a recorded outcome; a purged payload is never
   * restored; and a payload only ever becomes its own skeleton.
   */
  lemma {:induction false} OutcomesAreFinal(c: Config, w: World, steps: seq<Step>, e: string)
    requires IsRun(c, w, steps) && e in w.ledger
    ensures e in Final(c, w, steps).ledger
    ensures Extends(w.ledger[e], Final(c, w, steps).ledger[e])
    decreases |steps|
  {
    if steps != [] {
      var w' := Apply(c, w, steps[0]);
      StepKeepsRows(c, w, steps[0]);
      StepTouches(c, w, steps[0], e);
      TouchedExtends(w.ledger[e], w'.ledger[e], w.now);
      OutcomesAreFinal(c, w', steps[1..], e);
      if w.ledger[e].payload.Some? {
        Json.SkeletonIdempotent(w.ledger[e].payload.value);
      }
    }
  }

  // -------------------------------------------------- what a row says of itself

  /**
   * last_error is there exactly for failed and skipped rows, and every instant in a row lies
   * between the arrival of the event and now.
   */
  predicate Recorded(r: LedgerRow, now: Time) {
    && (r.lastError.Some? <==> r.status == Failed || r.status == Skipped)
    && r.receivedAt <= r.updatedAt <= now
    && (r.processedAt.Some? ==> r.receivedAt <= r.processedAt.value <= r.updatedAt)
    && (r.purgedAt.Some? ==> r.receivedAt <= r.purgedAt.value <= r.updatedAt)
  }

  lemma TouchedKeepsRecorded(r: LedgerRow, r': LedgerRow, now: Time)
    requires Touched(r, r', now) && Recorded(r, now)
    ensures Recorded(r', now)
  {
    if v :| Settle(r, v, now) == Some(r') {
      SettleKeepsRecorded(r, v, now);
    }
  }

  lemma SettleKeepsRecorded(r: LedgerRow, v: Verdict, now: Time)
    requires Recorded(r, now) && Settle(r, v, now).Some?
    ensures Recorded(Settle(r, v, now).value, now)
  {}

  lemma TimeGoesForward(c: Config, w: World, s: Step)
    requires Enabled(c, w, s)
    ensures w.now <= Apply(c, w, s).now && (!s.Tick? ==> Apply(c, w, s).now == w.now)
  {}

  lemma {:induction false} RunKeepsRecorded(c: Config, w: World, steps: seq<Step>, e: string)
    requires IsRun(c, w, steps) && (e in w.ledger ==> Recorded(w.ledger[e], w.now))
    ensures e in Final(c, w, steps).ledger ==> Recorded(Final(c, w, steps).ledger[e], Final(c, w, steps).now)
    decreases |steps|
  {
    if steps != [] {
      var w' := Apply(c, w, steps[0]);
      TimeGoesForward(c, w, steps[0]);
      if e in w'.ledger {
        StepTouches(c, w, steps[0], e);
        if e in w.ledger {
          TouchedKeepsRecorded(w.ledger[e], w'.ledger[e], w.now);
        }
      }
      RunKeepsRecorded(c, w', steps[1..], e);
    }
  }

  // ------------------------------------------------------- when payloads may go

  /** Only a purge takes a payload away, and only once its row is out of its window. */
  lemma PurgedOnlyWhenDue(c: Config, w: World, s: Step, e: string)
    requires Enabled(c, w, s) && e in w.ledger && w.ledger[e].purgedAt.None?
    ensures e in Apply(c, w, s).ledger
    ensures Apply(c, w, s).ledger[e].purgedAt.Some? ==>
              && s.Purge? && e in s.events && Apply(c, w, s).ledger[e].purgedAt == Some(w.now)
              && (w.ledger[e].Settled() ==> w.now - w.ledger[e].receivedAt > c.settledAfter)
              && (!w.ledger[e].Settled() ==>
                    w.ledger[e].status == Failed && w.now - w.ledger[e].receivedAt > c.unsettledAfter)
  {
    StepKeepsRows(c, w, s);
    StepTouches(c, w, s, e);
  }

  /** A purge reduces exactly the payloads it picked, each to the skeleton of what was delivered. */
  lemma PurgeTakesPayloads(c: Config, w: World, es: set<string>, e: string)
    requires LedgerInv(c, w) && Enabled(c, w, Purge(es)) && e in w.ledger
    ensures var r, r' := w.ledger[e], Apply(c, w, Purge(es)).ledger[e];
            if e in es then
              e in c.catalogue && r' == r.(payload := Some(Json.Skeleton(c.catalogue[e])), purgedAt := Some(w.now), updatedAt := w.now)
            else r' == r
  {
    assert PayloadIntact(c, e, w.ledger[e].purgedAt.Some?, w.ledger[e].payload);
  }

  /**
   * Over every run a settled event keeps its payload, whole, for as long as its window is
   * open; and from the moment it closes a purge may take it.
   */
  lemma {:induction false} SettledPayloadIsKept(c: Config, w: World, steps: seq<Step>, e: string)
    requires IsRun(c, w, steps) && e in w.ledger && w.ledger[e].Settled() && w.ledger[e].purgedAt.None?
    ensures var f := Final(c, w, steps);
            && e in f.ledger && f.ledger[e].Settled()
            && (f.now - f.ledger[e].receivedAt <= c.settledAfter ==>
                  f.ledger[e].purgedAt.None? && f.ledger[e].payload == w.ledger[e].payload)
            && (f.ledger[e].purgedAt.None? && f.ledger[e].payload.Some? ==>
                  (Enabled(c, f, Purge({e})) <==> f.now - f.ledger[e].receivedAt > c.settledAfter))
    decreases |steps|
  {
    if steps != [] {
      var w' := Apply(c, w, steps[0]);
      PurgedOnlyWhenDue(c, w, steps[0], e);
      StepTouches(c, w, steps[0], e);
      TouchedExtends(w.ledger[e], w'.ledger[e], w.now);
      OutcomesAreFinal(c, w', steps[1..], e);
      RunGoesForward(c, w', steps[1..]);
      TimeGoesForward(c, w, steps[0]);
      if w'.ledger[e].purgedAt.None? {
        SettledPayloadIsKept(c, w', steps[1..], e);
      }
    }
  }

  lemma {:induction false} RunGoesForward(c: Config, w: World, steps: seq<Step>)
    requires IsRun(c, w, steps)
    ensures w.now <= Final(c, w, steps).now
    decreases |steps|
  {
    if steps != [] {
      TimeGoesForward(c, w, steps[0]);
      RunGoesForward(c, Apply(c, w, steps[0]), steps[1..]);
    }
  }

  // ------------------------------------------------------------ when retries come

  /**
   * An event comes into a sweeper's reach exactly when it has failed, has budget left and has
   * waited out its backoff since.
   */
  lemma ListedHasWaited(c: Config, w: World, s: Step, l: Listing)
    requires Enabled(c, w, s) && l in Apply(c, w, s).listed && l !in w.listed
    ensures s.List? && l.event in w.ledger && l.payload == w.ledger[l.event].payload
    ensures var r := w.ledger[l.event];
            && r.status == Failed && r.attempts < c.maxAttempts
            && r.updatedAt + Backoff(c.baseBackoff, c.maxBackoff, r.attempts) < w.now
  {}

  lemma ListedIffWaited(c: Config, w: World, e: string)
    requires e in w.ledger
    ensures Enabled(c, w, List({e})) <==>
              && w.ledger[e].status == Failed && w.ledger[e].attempts < c.maxAttempts
              && w.ledger[e].updatedAt + Backoff(c.baseBackoff, c.maxBackoff, w.ledger[e].attempts) < w.now
  {}

  // ------------------------------------------------- skeletons write nothing

  /** The transaction of a worker that starts on a purged payload writes nothing and fails or skips. */
  lemma SkeletonWorkerWritesNothing(c: Config, w: World, k: nat, env: Environment)
    requires WellFormed(c) && Enabled(c, w, Work(k, env)) && w.workers[k].pc.Dispatching?
    requires exists j :: w.workers[k].payload == Some(Json.Skeleton(j))
    ensures var effect := WorkEffect(c, w, k, env);
            effect.write.None? && effect.pc.Settling? && !effect.pc.verdict.Done?
    ensures Apply(c, w, Work(k, env)).subs == w.subs && Apply(c, w, Work(k, env)).commits == w.commits
  {
    var j :| w.workers[k].payload == Some(Json.Skeleton(j));
    SkeletonReplayIsInert(c.decode, j);
  }
}
