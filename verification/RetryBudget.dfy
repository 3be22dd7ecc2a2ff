/** The retry budget: how often an event can be claimed, and why retrying ends. */
module RetryBudget {
  import opened Domain
  import opened Ledger
  import opened Protocol
  import opened Safety

  // ------------------------------------------------- attempts count claims

  /**
   * attempts is the number of granted claims, the first of which is a delivery; the
   * sweeper's share never exceeds its budget less that first one.
   */
  ghost predicate Accounted(c: Config, w: World, e: string) {
    var g := GrantsOf(w, e);
    if e in w.ledger then
      && w.ledger[e].attempts == g.http + g.sweep && g.http >= 1
      && (g.sweep == 0 || g.sweep <= c.maxAttempts - 1)
    else g == Grants(0, 0)
  }

  lemma StepKeepsAccounts(c: Config, w: World, s: Step, e: string)
    requires Enabled(c, w, s) && Accounted(c, w, e)
    ensures Accounted(c, Apply(c, w, s), e)
  {
    StepKeepsRows(c, w, s);
    if s.Deliver? || s.Retry? {
    } else {
      assert Apply(c, w, s).grants == w.grants;
      assert Apply(c, w, s).ledger.Keys == w.ledger.Keys;
      if e in w.ledger {
        OtherStepsKeepAttempts(c, w, s, e);
      }
    }
  }

  lemma OtherStepsKeepAttempts(c: Config, w: World, s: Step, e: string)
    requires Enabled(c, w, s) && !s.Deliver? && !s.Retry? && e in w.ledger
    ensures e in Apply(c, w, s).ledger && Apply(c, w, s).ledger[e].attempts == w.ledger[e].attempts
  {}

  /** Any number of sweepers, any staleness of their listings, any redeliveries. */
  lemma {:induction false} AttemptsCountClaims(c: Config, w: World, steps: seq<Step>, e: string)
    requires IsRun(c, w, steps) && Accounted(c, w, e)
    ensures Accounted(c, Final(c, w, steps), e)
    decreases |steps|
  {
    if steps != [] {
      StepKeepsAccounts(c, w, steps[0], e);
      AttemptsCountClaims(c, Apply(c, w, steps[0]), steps[1..], e);
    }
  }

  // ------------------------------------------------------------ the measure

  /** What is left to do for one row: six per retry still in the budget, one to close it. */
  function RowWeight(c: Config, r: LedgerRow): int {
    if r.Settled() then 0
    else (if r.attempts < c.maxAttempts then 6 * (c.maxAttempts - r.attempts) else 0)
         + (if r.status == Processing then 1 else 0)
  }

  ghost function RowWeights(c: Config, w: World): string -> int {
    e => if e in w.ledger then RowWeight(c, w.ledger[e]) else 0
  }

  ghost function WorkerWeights(w: World): nat -> int {
    k => if k in w.workers then Remaining(w.workers[k].pc) else 0
  }

  ghost function Measure(c: Config, w: World): int {
    Sum(w.ledger.Keys, RowWeights(c, w)) + Sum(w.workers.Keys, WorkerWeights(w))
  }

  lemma {:induction false} SumNonNegative<K(!new)>(s: set<K>, f: K -> int)
    requires forall x :: x in s ==> f(x) >= 0
    ensures Sum(s, f) >= 0
  {
    var zero: K -> int := x => 0;
    SumMonotone(s, zero, f);
    SumOfZero(s, zero);
  }

  lemma {:induction false} SumOfZero<K(!new)>(s: set<K>, zero: K -> int)
    requires forall x :: zero(x) == 0
    ensures Sum(s, zero) == 0
  {
    if s != {} {
      var x :| x in s;
      SumRemove(s, zero, x);
      SumOfZero(s - {x}, zero);
    }
  }

  lemma MeasureNonNegative(c: Config, w: World)
    ensures Measure(c, w) >= 0
  {
    SumNonNegative(w.ledger.Keys, RowWeights(c, w));
    SumNonNegative(w.workers.Keys, WorkerWeights(w));
  }

  /** Steps that consume something: a granted retry, a worker's move, a reclaimed row. */
  predicate Productive(c: Config, w: World, s: Step)
    requires Enabled(c, w, s)
  {
    match s
    case Retry(l, _) => ClaimForRetry(w.ledger[l.event], c.maxAttempts, w.now).Some?
    case Work(_, _) => true
    case Finish(_) => true
    case Die(_) => true
    case Reclaim(es) => es != {}
    case _ => false
  }

  // ------------------------------------------------ every step against it

  lemma RowsFall(c: Config, w: World, w': World)
    requires w'.ledger.Keys == w.ledger.Keys
    requires forall e :: e in w.ledger ==> RowWeight(c, w'.ledger[e]) <= RowWeight(c, w.ledger[e])
    ensures Sum(w'.ledger.Keys, RowWeights(c, w')) <= Sum(w.ledger.Keys, RowWeights(c, w))
    ensures (exists e :: e in w.ledger && RowWeight(c, w'.ledger[e]) < RowWeight(c, w.ledger[e])) ==>
            Sum(w'.ledger.Keys, RowWeights(c, w')) < Sum(w.ledger.Keys, RowWeights(c, w))
  {
    var f, g := RowWeights(c, w'), RowWeights(c, w);
    assert forall e :: e in w.ledger.Keys ==> f(e) <= g(e);
    SumMonotone(w.ledger.Keys, f, g);
    if e :| e in w.ledger && RowWeight(c, w'.ledger[e]) < RowWeight(c, w.ledger[e]) {
      assert e in w.ledger.Keys && f(e) < g(e);
    }
  }

  lemma WorkerLeaves(w: World, w': World, k: nat)
    requires k in w.workers && w'.workers == w.workers - {k}
    ensures Sum(w'.workers.Keys, WorkerWeights(w')) < Sum(w.workers.Keys, WorkerWeights(w))
  {
    assert w'.workers.Keys == w.workers.Keys - {k};
    SumRemove(w.workers.Keys, WorkerWeights(w), k);
    SumCongruence(w'.workers.Keys, WorkerWeights(w), WorkerWeights(w'));
  }

  lemma WorkerMoves(w: World, w': World, k: nat, pc: Pc)
    requires k in w.workers && w'.workers == w.workers[k := w.workers[k].(pc := pc)]
    requires Remaining(pc) < Remaining(w.workers[k].pc)
    ensures Sum(w'.workers.Keys, WorkerWeights(w')) < Sum(w.workers.Keys, WorkerWeights(w))
  {
    assert w'.workers.Keys == w.workers.Keys;
    var f, g := WorkerWeights(w'), WorkerWeights(w);
    assert k in w.workers.Keys && f(k) < g(k);
    SumMonotone(w.workers.Keys, f, g);
  }

  lemma WorkShortens(c: Config, w: World, k: nat, env: Environment)
    requires Enabled(c, w, Work(k, env))
    ensures Remaining(WorkEffect(c, w, k, env).pc) < Remaining(w.workers[k].pc)
  {
    if w.workers[k].payload.Some? {
      EffectShortens(c.decode(w.workers[k].payload.value), w.subs, w.workers[k].pc, env);
    }
  }

  lemma RetryFalls(c: Config, w: World, l: Listing, k: nat)
    requires Enabled(c, w, Retry(l, k))
    requires ClaimForRetry(w.ledger[l.event], c.maxAttempts, w.now).Some?
    ensures Measure(c, AfterRetry(c, w, l, k)) < Measure(c, w)
  {
    var e, w' := l.event, AfterRetry(c, w, l, k);
    assert w'.ledger.Keys == w.ledger.Keys;
    var f, g := RowWeights(c, w'), RowWeights(c, w);
    SumRemove(w.ledger.Keys, f, e);
    SumRemove(w.ledger.Keys, g, e);
    SumCongruence(w.ledger.Keys - {e}, f, g);
    assert f(e) == g(e) - 5;
    assert w'.workers.Keys == w.workers.Keys + {k};
    assert w'.workers.Keys - {k} == w.workers.Keys;
    SumRemove(w'.workers.Keys, WorkerWeights(w'), k);
    SumCongruence(w.workers.Keys, WorkerWeights(w'), WorkerWeights(w));
  }

  lemma FinishFalls(c: Config, w: World, k: nat)
    requires Enabled(c, w, Finish(k))
    ensures Measure(c, AfterFinish(w, k)) < Measure(c, w)
  {
    RowsFall(c, w, AfterFinish(w, k));
    WorkerLeaves(w, AfterFinish(w, k), k);
  }

  lemma ReclaimLightens(c: Config, w: World, es: set<string>, e: string)
    requires Enabled(c, w, Reclaim(es)) && e in w.ledger
    ensures var r' := ReclaimRows(w.ledger, es, w.now)[e];
            if e in es then RowWeight(c, r') < RowWeight(c, w.ledger[e]) else r' == w.ledger[e]
  {}

  lemma ReclaimFalls(c: Config, w: World, es: set<string>)
    requires Enabled(c, w, Reclaim(es))
    ensures Measure(c, Apply(c, w, Reclaim(es))) <= Measure(c, w)
    ensures es != {} ==> Measure(c, Apply(c, w, Reclaim(es))) < Measure(c, w)
  {
    var w' := Apply(c, w, Reclaim(es));
    forall e | e in w.ledger
      ensures RowWeight(c, w'.ledger[e]) <= RowWeight(c, w.ledger[e])
      ensures e in es ==> RowWeight(c, w'.ledger[e]) < RowWeight(c, w.ledger[e])
    {
      ReclaimLightens(c, w, es, e);
    }
    RowsFall(c, w, w');
    SumCongruence(w.workers.Keys, WorkerWeights(w'), WorkerWeights(w));
    if e :| e in es {
      assert e in w.ledger;
    }
  }

  lemma WorkFalls(c: Config, w: World, k: nat, env: Environment)
    requires Enabled(c, w, Work(k, env))
    ensures Measure(c, AfterWork(c, w, k, env)) < Measure(c, w)
  {
    var w' := AfterWork(c, w, k, env);
    WorkShortens(c, w, k, env);
    WorkerMoves(w, w', k, WorkEffect(c, w, k, env).pc);
    RowsFall(c, w, w');
  }

  lemma NeutralKeeps(c: Config, w: World, w': World)
    requires w'.workers == w.workers && w'.ledger.Keys == w.ledger.Keys
    requires forall e :: e in w.ledger ==> RowWeight(c, w'.ledger[e]) == RowWeight(c, w.ledger[e])
    ensures Measure(c, w') == Measure(c, w)
  {
    SumCongruence(w.ledger.Keys, RowWeights(c, w'), RowWeights(c, w));
    SumCongruence(w.workers.Keys, WorkerWeights(w'), WorkerWeights(w));
  }

  /** Without redelivery nothing raises the measure and every productive step lowers it. */
  lemma StepFalls(c: Config, w: World, s: Step)
    requires Enabled(c, w, s) && !s.Deliver?
    ensures Measure(c, Apply(c, w, s)) <= Measure(c, w)
    ensures Productive(c, w, s) ==> Measure(c, Apply(c, w, s)) < Measure(c, w)
  {
    match s
    case Retry(l, k) =>
      if Productive(c, w, s) { RetryFalls(c, w, l, k); }
    case Work(k, env) => WorkFalls(c, w, k, env);
    case Finish(k) => FinishFalls(c, w, k);
    case Die(k) =>
      WorkerLeaves(w, Apply(c, w, s), k);
      RowsFall(c, w, Apply(c, w, s));
    case Reclaim(es) => ReclaimFalls(c, w, es);
    case List(_) => NeutralKeeps(c, w, Apply(c, w, s));
    case Purge(_) => NeutralKeeps(c, w, Apply(c, w, s));
    case Tick(_) => NeutralKeeps(c, w, Apply(c, w, s));
  }

  // ------------------------------------------------------------- whole runs

  predicate NoDelivery(steps: seq<Step>) {
    forall i :: 0 <= i < |steps| ==> !steps[i].Deliver?
  }

  function CountProductive(c: Config, w: World, steps: seq<Step>): nat
    requires IsRun(c, w, steps)
    decreases |steps|
  {
    if steps == [] then 0
    else (if Productive(c, w, steps[0]) then 1 else 0) + CountProductive(c, Apply(c, w, steps[0]), steps[1..])
  }

  /** A redelivery-free run makes at most Measure(c, w) productive steps, however long it is. */
  lemma {:induction false} ProductiveStepsAreBounded(c: Config, w: World, steps: seq<Step>)
    requires IsRun(c, w, steps) && NoDelivery(steps)
    ensures CountProductive(c, w, steps) + Measure(c, Final(c, w, steps)) <= Measure(c, w)
    ensures CountProductive(c, w, steps) <= Measure(c, w)
    decreases |steps|
  {
    if steps == [] {
      MeasureNonNegative(c, w);
    } else {
      StepFalls(c, w, steps[0]);
      ProductiveStepsAreBounded(c, Apply(c, w, steps[0]), steps[1..]);
      MeasureNonNegative(c, Final(c, w, steps));
    }
  }

  predicate DeadLettered(c: Config, r: LedgerRow) {
    r.status == Failed && r.attempts >= c.maxAttempts
  }

  /** Nothing is left to do: no worker, and every event settled or dead-lettered. */
  ghost predicate Quiet(c: Config, w: World) {
    && w.workers == map[]
    && forall e :: e in w.ledger ==> w.ledger[e].Settled() || DeadLettered(c, w.ledger[e])
  }

  lemma OneStep(c: Config, w: World, s: Step)
    requires Enabled(c, w, s)
    ensures IsRun(c, w, [s]) && Final(c, w, [s]) == Apply(c, w, s)
  {
    assert [s][1..] == [];
  }

  lemma TwoSteps(c: Config, w: World, s1: Step, s2: Step)
    requires Enabled(c, w, s1) && Enabled(c, Apply(c, w, s1), s2)
    ensures IsRun(c, w, [s1, s2]) && Final(c, w, [s1, s2]) == Apply(c, Apply(c, w, s1), s2)
  {
    assert [s1, s2][1..] == [s2];
    OneStep(c, Apply(c, w, s1), s2);
  }

  /** A busy system can always move: after enough time some productive step is enabled. */
  lemma BusyCanProgress(c: Config, w: World) returns (steps: seq<Step>)
    requires LedgerInv(c, w) && !Quiet(c, w)
    ensures IsRun(c, w, steps) && NoDelivery(steps)
    ensures Measure(c, Final(c, w, steps)) < Measure(c, w)
  {
    if w.workers != map[] {
      var k :| k in w.workers;
      steps := WorkerMovesOn(c, w, k);
    } else {
      var e :| e in w.ledger && !w.ledger[e].Settled() && !DeadLettered(c, w.ledger[e]);
      if w.ledger[e].status == Processing {
        steps := ReclaimStuck(c, w, e);
      } else {
        steps := RetryFailed(c, w, e);
      }
    }
  }

  lemma WorkerMovesOn(c: Config, w: World, k: nat) returns (steps: seq<Step>)
    requires LedgerInv(c, w) && k in w.workers
    ensures IsRun(c, w, steps) && NoDelivery(steps)
    ensures Measure(c, Final(c, w, steps)) < Measure(c, w)
  {
    assert Authentic(c, w, w.workers[k].event, w.workers[k].payload);
    if w.workers[k].pc.Settling? {
      FinishFalls(c, w, k);
      OneStep(c, w, Finish(k));
      steps := [Finish(k)];
    } else {
      steps := WorkerTries(c, w, k);
    }
  }

  lemma WorkerTries(c: Config, w: World, k: nat) returns (steps: seq<Step>)
    requires k in w.workers && !w.workers[k].pc.Settling?
    ensures IsRun(c, w, steps) && NoDelivery(steps)
    ensures Measure(c, Final(c, w, steps)) < Measure(c, w)
  {
    WorkFalls(c, w, k, LOST);
    OneStep(c, w, Work(k, LOST));
    steps := [Work(k, LOST)];
  }

  function Wait(w: World, until: Time): nat {
    if until < w.now then 0 else until - w.now
  }

  lemma ReclaimStuck(c: Config, w: World, e: string) returns (steps: seq<Step>)
    requires e in w.ledger && w.ledger[e].status == Processing
    ensures IsRun(c, w, steps) && NoDelivery(steps)
    ensures Measure(c, Final(c, w, steps)) < Measure(c, w)
  {
    var tick := Tick(Wait(w, w.ledger[e].updatedAt + c.sweepStale + 1));
    var w1 := Apply(c, w, tick);
    NeutralKeeps(c, w, w1);
    ReclaimFalls(c, w1, {e});
    TwoSteps(c, w, tick, Reclaim({e}));
    steps := [tick, Reclaim({e})];
  }

  lemma RetryFailed(c: Config, w: World, e: string) returns (steps: seq<Step>)
    requires e in w.ledger && w.ledger[e].status == Failed && w.ledger[e].attempts < c.maxAttempts
    requires w.workers == map[]
    ensures IsRun(c, w, steps) && NoDelivery(steps)
    ensures Measure(c, Final(c, w, steps)) < Measure(c, w)
  {
    var row := w.ledger[e];
    var tick := Tick(Wait(w, row.updatedAt + Backoff(c.baseBackoff, c.maxBackoff, row.attempts) + 1));
    var w1 := Apply(c, w, tick);
    NeutralKeeps(c, w, w1);
    steps := RetryDue(c, w1, e);
    OneStep(c, w, tick);
    RunAppend(c, w, [tick], steps);
    steps := [tick] + steps;
  }

  lemma RetryDue(c: Config, w: World, e: string) returns (steps: seq<Step>)
    requires e in w.ledger && Due(c, w, e) && w.workers == map[]
    ensures IsRun(c, w, steps) && NoDelivery(steps)
    ensures Measure(c, Final(c, w, steps)) < Measure(c, w)
  {
    var w1 := ListOne(c, w, e);
    var retry := RetryListed(c, w1, Listing(e, w.ledger[e].payload));
    RunPrepend(c, w, List({e}), retry);
    steps := [List({e})] + retry;
  }

  lemma RetryListed(c: Config, w: World, l: Listing) returns (steps: seq<Step>)
    requires l in w.listed && l.event in w.ledger && 0 !in w.workers
    requires ClaimForRetry(w.ledger[l.event], c.maxAttempts, w.now).Some?
    ensures IsRun(c, w, steps) && NoDelivery(steps)
    ensures Measure(c, Final(c, w, steps)) < Measure(c, w)
  {
    RetryFalls(c, w, l, 0);
    OneStep(c, w, Retry(l, 0));
    steps := [Retry(l, 0)];
  }

  /** Listing one due event puts it within a sweeper's reach and changes nothing else. */
  lemma ListOne(c: Config, w: World, e: string) returns (w': World)
    requires e in w.ledger && Due(c, w, e)
    ensures Enabled(c, w, List({e})) && w' == Apply(c, w, List({e}))
    ensures Listing(e, w.ledger[e].payload) in w'.listed
    ensures w' == w.(listed := w'.listed) && Measure(c, w') == Measure(c, w)
  {
    w' := Apply(c, w, List({e}));
    NeutralKeeps(c, w, w');
    assert Listing(e, w.ledger[e].payload) in w'.listed;
  }

  /**
   * Without redelivery every event ends settled or dead-lettered: any reachable state can
   * run on to a quiet one, and by the bound above no run can put that off for ever.
   */
  lemma {:induction false} EveryEventEnds(c: Config, w: World) returns (steps: seq<Step>)
    requires LedgerInv(c, w)
    ensures IsRun(c, w, steps) && NoDelivery(steps)
    ensures Quiet(c, Final(c, w, steps))
    decreases Measure(c, w)
  {
    MeasureNonNegative(c, w);
    if Quiet(c, w) {
      steps := [];
    } else {
      var head := BusyCanProgress(c, w);
      RunKeepsLedgerInv(c, w, head);
      MeasureNonNegative(c, Final(c, w, head));
      var tail := EveryEventEnds(c, Final(c, w, head));
      RunAppend(c, w, head, tail);
      steps := head + tail;
    }
  }
}
