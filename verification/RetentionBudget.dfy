/**
 * Retention against the retry budget: with the configured inequality, an event whose
 * sweepers keep up does not lose its payload while they may still retry it.
 */
module RetentionBudget {
  import opened Domain
  import opened Ledger
  import opened Protocol
  import opened Safety

  // ---------------------------------------------------------------- promptness

  /** When the next attempt of a failed row must be over: its backoff, then nine caps of slack. */
  function Deadline(c: Config, r: LedgerRow): Time {
    r.updatedAt + Backoff(c.baseBackoff, c.maxBackoff, r.attempts) + 9 * c.maxBackoff
  }

  /** The deadline of an event's open claim, carried along the run. */
  function NextDeadline(c: Config, w: World, s: Step, e: string, due: Option<Time>): Option<Time> {
    if !(s.Deliver? && s.event == e) && !(s.Retry? && s.listing.event == e) then due
    else if e !in w.ledger then Some(w.now + 10 * c.maxBackoff)
    else if w.ledger[e].status == Failed then Some(Deadline(c, w.ledger[e]))
    else due   // a stale takeover inherits the deadline of the claim it takes over
  }

  /** As long as the event has budget left, its claim or its wait is within the deadline. */
  predicate Prompt(c: Config, w: World, e: string, due: Option<Time>) {
    e in w.ledger && w.ledger[e].attempts < c.maxAttempts ==>
      && (w.ledger[e].status == Processing ==> due.Some? && w.now <= due.value)
      && (w.ledger[e].status == Failed ==> w.now <= Deadline(c, w.ledger[e]))
  }

  /** A run that is prompt with this one event; other events may be as late as they like. */
  ghost predicate PromptRun(c: Config, w: World, e: string, due: Option<Time>, steps: seq<Step>)
    ensures PromptRun(c, w, e, due, steps) ==> IsRun(c, w, steps)
    decreases |steps|
  {
    && Prompt(c, w, e, due)
    && (steps == [] ||
        (&& Enabled(c, w, steps[0])
         && PromptRun(c, Apply(c, w, steps[0]), e, NextDeadline(c, w, steps[0], e, due), steps[1..])))
  }

  // ----------------------------------------------------------------- invariant

  /** Attempt n is over by ten caps times n after the event arrived. */
  function Allowance(c: Config, r: LedgerRow): Time {
    r.receivedAt + 10 * c.maxBackoff * r.attempts
  }

  predicate OnSchedule(c: Config, r: LedgerRow, due: Option<Time>) {
    && r.attempts >= 1
    && (r.status == Processing && r.attempts < c.maxAttempts ==> due.Some? && due.value <= Allowance(c, r))
    && (r.status == Failed && r.attempts < c.maxAttempts ==> r.updatedAt <= Allowance(c, r))
    && (r.purgedAt.Some? && !r.Settled() ==> r.attempts >= c.maxAttempts)
  }

  predicate Scheduled(c: Config, w: World, e: string, due: Option<Time>) {
    e in w.ledger ==> OnSchedule(c, w.ledger[e], due)
  }

  lemma AllowanceGrows(c: Config, r: LedgerRow, n: int)
    requires r.attempts + 1 <= n
    ensures Allowance(c, r) + 10 * c.maxBackoff <= r.receivedAt + 10 * c.maxBackoff * n
  {
    MulMonotone(10 * c.maxBackoff, r.attempts + 1, n);
    assert 10 * c.maxBackoff * (r.attempts + 1) == 10 * c.maxBackoff * r.attempts + 10 * c.maxBackoff;
  }

  /** A failed row whose budget is not spent cannot be past the retention bound. */
  lemma NotYetPurgeable(c: Config, w: World, e: string, due: Option<Time>)
    requires Scheduled(c, w, e, due) && Prompt(c, w, e, due)
    requires 10 * c.maxBackoff * c.maxAttempts <= c.unsettledAfter
    requires e in w.ledger && w.ledger[e].status == Failed
    requires Purgeable(w.ledger[e], w.now, c.settledAfter, c.unsettledAfter)
    ensures w.ledger[e].attempts >= c.maxAttempts
  {
    if w.ledger[e].attempts < c.maxAttempts {
      AllowanceGrows(c, w.ledger[e], c.maxAttempts);
    }
  }

  lemma ReopenedOnSchedule(c: Config, r: LedgerRow, now: Time, due: Option<Time>)
    requires OnSchedule(c, r, due) && !r.Settled()
    ensures OnSchedule(c, Reopened(r, now), if r.status == Failed then Some(Deadline(c, r)) else due)
  {
    AllowanceGrows(c, r, r.attempts + 1);
  }

  lemma SettleKeepsSchedule(c: Config, w: World, e: string, due: Option<Time>, v: Verdict)
    requires e in w.ledger && OnSchedule(c, w.ledger[e], due) && Prompt(c, w, e, due)
    ensures Settle(w.ledger[e], v, w.now).Some? ==> OnSchedule(c, Settle(w.ledger[e], v, w.now).value, due)
    ensures w.ledger[e].status == Processing ==> OnSchedule(c, Reclaimed(w.ledger[e], w.now), due)
  {}

  lemma PurgeKeepsSchedule(c: Config, w: World, e: string, due: Option<Time>)
    requires e in w.ledger && OnSchedule(c, w.ledger[e], due) && Prompt(c, w, e, due)
    requires 10 * c.maxBackoff * c.maxAttempts <= c.unsettledAfter
    requires Purgeable(w.ledger[e], w.now, c.settledAfter, c.unsettledAfter)
    ensures OnSchedule(c, Purged(w.ledger[e], w.now), due)
  {
    if w.ledger[e].status == Failed {
      NotYetPurgeable(c, w, e, due);
    }
  }

  lemma ClaimKeepsSchedule(c: Config, w: World, s: Step, e: string, due: Option<Time>)
    requires Enabled(c, w, s) && Scheduled(c, w, e, due)
    requires (s.Deliver? && s.event == e) || (s.Retry? && s.listing.event == e)
    ensures Scheduled(c, Apply(c, w, s), e, NextDeadline(c, w, s, e, due))
  {
    if e in w.ledger && !w.ledger[e].Settled() {
      ReopenedOnSchedule(c, w.ledger[e], w.now, due);
    }
  }

  lemma StepKeepsSchedule(c: Config, w: World, s: Step, e: string, due: Option<Time>)
    requires Enabled(c, w, s) && Scheduled(c, w, e, due) && Prompt(c, w, e, due)
    requires 10 * c.maxBackoff * c.maxAttempts <= c.unsettledAfter
    ensures Scheduled(c, Apply(c, w, s), e, NextDeadline(c, w, s, e, due))
  {
    if (s.Deliver? && s.event == e) || (s.Retry? && s.listing.event == e) {
      ClaimKeepsSchedule(c, w, s, e, due);
    } else if e in w.ledger {
      OtherStepKeepsSchedule(c, w, s, e, due);
    } else if e in Apply(c, w, s).ledger {
      StepTouches(c, w, s, e);
    }
  }

  lemma OtherStepKeepsSchedule(c: Config, w: World, s: Step, e: string, due: Option<Time>)
    requires Enabled(c, w, s) && e in w.ledger && OnSchedule(c, w.ledger[e], due) && Prompt(c, w, e, due)
    requires 10 * c.maxBackoff * c.maxAttempts <= c.unsettledAfter
    requires !(s.Deliver? && s.event == e) && !(s.Retry? && s.listing.event == e)
    ensures e in Apply(c, w, s).ledger && OnSchedule(c, Apply(c, w, s).ledger[e], due)
  {
    match s
    case Finish(k) => SettleKeepsSchedule(c, w, e, due, w.workers[k].pc.verdict);
    case Reclaim(es) =>
      if e in es { SettleKeepsSchedule(c, w, e, due, Done); }
    case Purge(es) =>
      if e in es { PurgeKeepsSchedule(c, w, e, due); }
    case _ => assert e in Apply(c, w, s).ledger && Apply(c, w, s).ledger[e] == w.ledger[e];
  }

  predicate PastBound(c: Config, w: World, e: string)
    requires e in w.ledger
  {
    w.ledger[e].purgedAt.Some? || Purgeable(w.ledger[e], w.now, c.settledAfter, c.unsettledAfter)
  }

  /**
   * With UnsettledAfter at least 10 * MaxAttempts * MaxBackoff, over every run that is prompt
   * with the event while it has budget left: if the event is unsettled and purgeable, or
   * already purged, it has spent its whole retry budget. Nothing is asked of other events,
   * nor of this one once its budget is spent.
   */
  lemma {:induction false} RetentionNeverOutrunsRetries(c: Config, w: World, e: string, due: Option<Time>, steps: seq<Step>)
    requires PromptRun(c, w, e, due, steps) && Scheduled(c, w, e, due)
    requires 10 * c.maxBackoff * c.maxAttempts <= c.unsettledAfter
    ensures var f := Final(c, w, steps);
            e in f.ledger && !f.ledger[e].Settled() && PastBound(c, f, e) ==> f.ledger[e].attempts >= c.maxAttempts
    decreases |steps|
  {
    if steps == [] {
      if e in w.ledger && w.ledger[e].status == Failed && w.ledger[e].purgedAt.None? && PastBound(c, w, e) {
        NotYetPurgeable(c, w, e, due);
      }
    } else {
      StepKeepsSchedule(c, w, steps[0], e, due);
      RetentionNeverOutrunsRetries(c, Apply(c, w, steps[0]), e, NextDeadline(c, w, steps[0], e, due), steps[1..]);
    }
  }
}

/** The cross-component inequalities configuration is checked against at startup. */
module Configuration {
  import opened Protocol
  import opened Exclusivity

  const INT64_MAX: int := 0x7FFF_FFFF_FFFF_FFFF

  /** Two's-complement wrap-around of Go's int64 durations. */
  function Wrap64(x: int): (r: int)
    ensures -INT64_MAX - 1 <= r <= INT64_MAX
    ensures -INT64_MAX - 1 <= x <= INT64_MAX ==> r == x
    ensures (x - r) % 0x1_0000_0000_0000_0000 == 0
  {
    (x + 0x8000_0000_0000_0000) % 0x1_0000_0000_0000_0000 - 0x8000_0000_0000_0000
  }

  /** validateRetention's comparisons of the windows, in the arithmetic they run in. */
  predicate RetentionAccepted(maxAttempts: int, maxBackoff: int, settledAfter: int, unsettledAfter: int) {
    var exhaust := Wrap64(maxAttempts * maxBackoff);
    !(settledAfter <= 0) && !(unsettledAfter < settledAfter) && !(unsettledAfter < Wrap64(10 * exhaust))
  }

  /**
   * The check means what it says exactly when ten budgets fit an int64: beyond that the
   * product wraps and some window far below the budget is accepted.
   */
  lemma RetentionCheckSoundIff(maxAttempts: nat, maxBackoff: nat)
    ensures (forall settledAfter, unsettledAfter |
                && unsettledAfter <= INT64_MAX
                && RetentionAccepted(maxAttempts, maxBackoff, settledAfter, unsettledAfter) ::
                10 * (maxAttempts * maxBackoff) <= unsettledAfter)
            <==> 10 * (maxAttempts * maxBackoff) <= INT64_MAX
  {
    var exhaust := maxAttempts * maxBackoff;
    if 10 * exhaust <= INT64_MAX {
      assert Wrap64(exhaust) == exhaust && Wrap64(10 * exhaust) == 10 * exhaust;
    } else {
      var wrapped := Wrap64(10 * Wrap64(exhaust));
      var window := if wrapped < 1 then 1 else wrapped;
      assert RetentionAccepted(maxAttempts, maxBackoff, 1, window) && window < 10 * exhaust;
    }
  }

  /** validateSweeper's comparison: only the sweeper's window is held against the deadline. */
  predicate SweeperAccepted(staleClaimAfter: int, webhookTimeout: int) {
    !(staleClaimAfter <= webhookTimeout)
  }

  /**
   * An accepted configuration whose request deadline bounds all work makes claims exclusive
   * if and only if the deadline is also within the repository's own HTTP window, which no
   * check compares with anything.
   */
  lemma AcceptedConfigExclusiveIff(c: Config, w: World, e: string, webhookTimeout: int)
    requires Init(w) && e in c.catalogue && 0 <= c.httpStale && 0 <= c.sweepStale
    requires SweeperAccepted(c.sweepStale, webhookTimeout)
    ensures (forall steps :: TimelyRun(c, w, steps, webhookTimeout) ==> Exclusive(Final(c, w, steps)))
            <==> webhookTimeout <= c.httpStale
  {
    ExclusiveIffWithinBothWindows(c, w, e, webhookTimeout);
  }
}
