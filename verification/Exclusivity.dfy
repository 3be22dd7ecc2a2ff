/**
 * Claim exclusivity. Settle statements carry no owner token, so exclusivity is a matter of
 * timing: it holds exactly when no holder works longer than either stale window.
 */
module Exclusivity {
  import opened Domain
  import opened Ledger
  import opened Protocol

  /** Every active worker is still within d of its claim. */
  ghost predicate Timely(w: World, d: Time) {
    forall k :: k in w.workers ==> w.now <= w.workers[k].claimedAt + d
  }

  /** A run in which every holder settles or dies within d of its claim. */
  ghost predicate TimelyRun(c: Config, w: World, steps: seq<Step>, d: Time)
    ensures TimelyRun(c, w, steps, d) ==> IsRun(c, w, steps)
    decreases |steps|
  {
    && Timely(w, d)
    && (steps == [] || (Enabled(c, w, steps[0]) && TimelyRun(c, Apply(c, w, steps[0]), steps[1..], d)))
  }

  /** The worker's own claim is the one the row records. */
  ghost predicate Holds(w: World, k: nat)
    requires k in w.workers
  {
    var worker := w.workers[k];
    && worker.event in w.ledger
    && var row := w.ledger[worker.event];
       row.status == Processing && row.updatedAt == worker.claimedAt && row.attempts == worker.attempt
  }

  ghost predicate Exclusive(w: World) {
    && (forall k :: k in w.workers ==> Holds(w, k))
    && (forall j, k :: j in w.workers && k in w.workers && j != k ==> w.workers[j].event != w.workers[k].event)
  }

  // ------------------------------------------------------------ sufficiency

  /** No claim can be granted on a row that is actively held. */
  lemma HeldRowIsNotClaimed(c: Config, w: World, s: Step, d: Time, k: nat)
    requires Enabled(c, w, s) && Timely(w, d) && Exclusive(w) && k in w.workers
    requires d <= c.httpStale && d <= c.sweepStale
    ensures s.Deliver? && s.event == w.workers[k].event ==> Apply(c, w, s) == w
    ensures s.Retry? && s.listing.event == w.workers[k].event ==> Apply(c, w, s) == w
    ensures s.Reclaim? || s.Purge? ==> w.workers[k].event !in s.events
  {
    assert Holds(w, k);
    var row := w.ledger[w.workers[k].event];
    assert !Abandoned(row, w.now, c.httpStale) && !Abandoned(row, w.now, c.sweepStale);
  }

  /** No statement but its own worker's settle can touch a row that is actively held. */
  lemma HeldRowIsSafe(c: Config, w: World, s: Step, d: Time, k: nat)
    requires Enabled(c, w, s) && Timely(w, d) && Exclusive(w)
    requires d <= c.httpStale && d <= c.sweepStale
    requires k in w.workers && k in Apply(c, w, s).workers
    ensures Holds(Apply(c, w, s), k)
    ensures Apply(c, w, s).workers[k].event == w.workers[k].event
  {
    assert Holds(w, k);
    HeldRowIsNotClaimed(c, w, s, d, k);
    if s.Finish? {
      assert w.workers[s.worker].event != w.workers[k].event;
    }
    var e, w' := w.workers[k].event, Apply(c, w, s);
    assert e in w'.ledger && w'.ledger[e] == w.ledger[e];
  }

  lemma StepKeepsExclusive(c: Config, w: World, s: Step, d: Time)
    requires Enabled(c, w, s) && Timely(w, d) && Exclusive(w)
    requires d <= c.httpStale && d <= c.sweepStale
    ensures Exclusive(Apply(c, w, s))
  {
    var w' := Apply(c, w, s);
    forall k | k in w'.workers ensures Holds(w', k) {
      if k in w.workers {
        HeldRowIsSafe(c, w, s, d, k);
      }
    }
    forall j, k | j in w'.workers && k in w'.workers && j != k
      ensures w'.workers[j].event != w'.workers[k].event
    {
      EventsStayApart(c, w, s, d, j, k);
    }
  }

  lemma EventsStayApart(c: Config, w: World, s: Step, d: Time, j: nat, k: nat)
    requires Enabled(c, w, s) && Timely(w, d) && Exclusive(w)
    requires d <= c.httpStale && d <= c.sweepStale
    requires j in Apply(c, w, s).workers && k in Apply(c, w, s).workers && j != k
    ensures Apply(c, w, s).workers[j].event != Apply(c, w, s).workers[k].event
  {
    if j in w.workers {
      HeldRowIsSafe(c, w, s, d, j);
      HeldRowIsNotClaimed(c, w, s, d, j);
    }
    if k in w.workers {
      HeldRowIsSafe(c, w, s, d, k);
      HeldRowIsNotClaimed(c, w, s, d, k);
    }
  }

  /**
   * At most one worker is active on an event, and every active worker is the recorded
   * holder, so every settle that takes effect is by the current holder.
   */
  lemma {:induction false} ClaimsAreExclusive(c: Config, w: World, steps: seq<Step>, d: Time)
    requires TimelyRun(c, w, steps, d) && Exclusive(w)
    requires d <= c.httpStale && d <= c.sweepStale
    ensures Exclusive(Final(c, w, steps))
    decreases |steps|
  {
    if steps != [] {
      StepKeepsExclusive(c, w, steps[0], d);
      ClaimsAreExclusive(c, Apply(c, w, steps[0]), steps[1..], d);
    }
  }

  // -------------------------------------------------------------- necessity

  lemma TwoHolders(w: World)
    requires 0 in w.workers && 1 in w.workers && w.workers[0].event == w.workers[1].event
    ensures !Exclusive(w)
  {}

  lemma TimelyPrepend(c: Config, w: World, s: Step, rest: seq<Step>, d: Time)
    requires Timely(w, d) && Enabled(c, w, s) && TimelyRun(c, Apply(c, w, s), rest, d)
    ensures TimelyRun(c, w, [s] + rest, d)
    ensures Final(c, w, [s] + rest) == Final(c, Apply(c, w, s), rest)
  {
    assert ([s] + rest)[1..] == rest;
  }

  /** The first delivery of an event to a fresh system. */
  lemma FirstClaim(c: Config, w: World, e: string)
    requires Init(w) && e in c.catalogue
    ensures Enabled(c, w, Deliver(e, 0))
    ensures var w1 := Apply(c, w, Deliver(e, 0));
            && w1.now == w.now && w1.subs == w.subs && w1.ledger == map[e := Inserted(c.catalogue[e], w.now)]
            && w1.workers == map[0 := Worker(e, Some(c.catalogue[e]), Dispatching, w.now, 1)]
  {}

  /** A redelivery to an open row that is failed or stale starts a second worker. */
  lemma SecondClaim(c: Config, w: World, e: string, d: Time)
    requires e in c.catalogue && e in w.ledger && w.workers.Keys == {0} && w.workers[0].event == e
    requires w.ledger[e].status == Failed || Abandoned(w.ledger[e], w.now, c.httpStale)
    requires Timely(w, d) && d >= 0
    ensures TimelyRun(c, w, [Deliver(e, 1)], d)
    ensures var w' := Apply(c, w, Deliver(e, 1));
            && Final(c, w, [Deliver(e, 1)]) == w' && !Exclusive(w')
            && w'.ledger == w.ledger[e := Reopened(w.ledger[e], w.now)] && w'.now == w.now
            && w'.workers == w.workers[1 := Worker(e, Some(c.catalogue[e]), Dispatching, w.now, w.ledger[e].attempts + 1)]
  {
    var w' := Apply(c, w, Deliver(e, 1));
    TwoHolders(w');
    assert Timely(w', d);
    assert [Deliver(e, 1)][1..] == [];
  }

  /** Deliveries alone: a worker outlives the HTTP window and is taken over. */
  lemma HttpTakeover(c: Config, w: World, e: string, d: Time) returns (steps: seq<Step>)
    requires Init(w) && e in c.catalogue && 0 <= c.httpStale < d
    ensures TimelyRun(c, w, steps, d) && !Exclusive(Final(c, w, steps))
  {
    var wait := Tick(c.httpStale + 1);
    FirstClaim(c, w, e);
    var w1 := Apply(c, w, Deliver(e, 0));
    var w2 := Apply(c, w1, wait);
    SecondClaim(c, w2, e, d);
    TimelyPrepend(c, w1, wait, [Deliver(e, 1)], d);
    steps := [wait] + [Deliver(e, 1)];
    TimelyPrepend(c, w, Deliver(e, 0), steps, d);
    steps := [Deliver(e, 0)] + steps;
  }

  /** The sweeper reclaims a claim still being worked on, and a redelivery takes it. */
  lemma SweepTakeover(c: Config, w: World, e: string, d: Time) returns (steps: seq<Step>)
    requires Init(w) && e in c.catalogue && 0 <= c.sweepStale < d
    ensures TimelyRun(c, w, steps, d) && !Exclusive(Final(c, w, steps))
  {
    var wait := Tick(c.sweepStale + 1);
    FirstClaim(c, w, e);
    var w1 := Apply(c, w, Deliver(e, 0));
    var w2 := Apply(c, w1, wait);
    steps := ReclaimedAndTaken(c, w2, e, d);
    TimelyPrepend(c, w1, wait, steps, d);
    steps := [wait] + steps;
    TimelyPrepend(c, w, Deliver(e, 0), steps, d);
    steps := [Deliver(e, 0)] + steps;
  }

  lemma ReclaimedAndTaken(c: Config, w: World, e: string, d: Time) returns (steps: seq<Step>)
    requires e in c.catalogue && e in w.ledger && w.workers.Keys == {0} && w.workers[0].event == e
    requires Abandoned(w.ledger[e], w.now, c.sweepStale) && Timely(w, d) && d >= 0
    ensures TimelyRun(c, w, steps, d) && !Exclusive(Final(c, w, steps))
  {
    var w' := Apply(c, w, Reclaim({e}));
    SecondClaim(c, w', e, d);
    TimelyPrepend(c, w, Reclaim({e}), [Deliver(e, 1)], d);
    steps := [Reclaim({e})] + [Deliver(e, 1)];
  }

  /**
   * The exact condition, which configuration can check: claims are exclusive in every
   * timely run if and only if the work bound exceeds neither stale window.
   */
  lemma ExclusiveIffWithinBothWindows(c: Config, w: World, e: string, d: Time)
    requires Init(w) && e in c.catalogue && 0 <= c.httpStale && 0 <= c.sweepStale
    ensures (forall steps :: TimelyRun(c, w, steps, d) ==> Exclusive(Final(c, w, steps)))
            <==> (d <= c.httpStale && d <= c.sweepStale)
  {
    if d <= c.httpStale && d <= c.sweepStale {
      forall steps | TimelyRun(c, w, steps, d) ensures Exclusive(Final(c, w, steps)) {
        ClaimsAreExclusive(c, w, steps, d);
      }
    } else if c.httpStale < d {
      var steps := HttpTakeover(c, w, e, d);
    } else {
      var steps := SweepTakeover(c, w, e, d);
    }
  }

  /**
   * Beyond the window the comment on MarkEventProcessed is too strong: a late worker can
   * settle a claim it no longer holds. In this run the first worker's failure closes the
   * row while the second, whose attempt the row records, is still at work.
   */
  lemma LateWorkerSettlesSuccessor(c: Config, w: World, e: string) returns (before: World)
    requires Init(w) && e in c.catalogue && 0 <= c.httpStale
    ensures exists steps :: IsRun(c, w, steps) && Final(c, w, steps) == before
    ensures 0 in before.workers && 1 in before.workers && Enabled(c, before, Finish(0))
    ensures before.workers[0].event == before.workers[1].event == e && e in before.ledger
    ensures !Holds(before, 0) && Holds(before, 1)
    ensures Apply(c, before, Finish(0)).ledger[e].status == Failed
  {
    var lost := Work(0, LOST);
    FirstClaim(c, w, e);
    var w1 := Apply(c, w, Deliver(e, 0));
    LostTransaction(c, w1, 0);
    var w2 := Apply(c, w1, lost);
    var tail;
    before, tail := TakenOver(c, w2, e);
    RunPrepend(c, w1, lost, tail);
    RunPrepend(c, w, Deliver(e, 0), [lost] + tail);
  }

  /** A worker about to report failure sleeps past the window and a redelivery takes over. */
  lemma TakenOver(c: Config, w: World, e: string) returns (before: World, steps: seq<Step>)
    requires e in c.catalogue && 0 <= c.httpStale
    requires w.workers == map[0 := Worker(e, Some(c.catalogue[e]), Settling(FAILURE), w.now, 1)]
    requires w.ledger == map[e := Inserted(c.catalogue[e], w.now)]
    ensures IsRun(c, w, steps) && Final(c, w, steps) == before
    ensures 0 in before.workers && 1 in before.workers && Enabled(c, before, Finish(0))
    ensures before.workers[0].event == before.workers[1].event == e && e in before.ledger
    ensures !Holds(before, 0) && Holds(before, 1)
    ensures Apply(c, before, Finish(0)).ledger[e].status == Failed
  {
    var wait := Tick(c.httpStale + 1);
    var w' := Apply(c, w, wait);
    SecondClaim(c, w', e, c.httpStale + 1);
    before := Apply(c, w', Deliver(e, 1));
    RunPrepend(c, w, wait, [Deliver(e, 1)]);
    steps := [wait] + [Deliver(e, 1)];
  }

  /** A transaction lost before its commit sends the worker straight to its settle. */
  lemma LostTransaction(c: Config, w: World, k: nat)
    requires k in w.workers && w.workers[k].pc.Dispatching? && w.workers[k].payload.Some?
    ensures var lost := Work(k, LOST);
            && Enabled(c, w, lost)
            && Apply(c, w, lost) == w.(workers := w.workers[k := w.workers[k].(pc := Settling(FAILURE))])
  {}
}
