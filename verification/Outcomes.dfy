/**
 * What agreement means for a subscription row: whose status it shows, what every complete
 * run ends with, and when the two columns an insert leaves null are filled.
 */
module Outcomes {
  import opened Domain
  import opened Ledger
  import opened Subscriptions
  import opened Events
  import opened Protocol
  import opened Safety
  import opened Agreement
  import opened Columns
  import Dunning
  import Json

  // ------------------------------------------------------- whose status it is

  /** The status a lifecycle event asks for: a deletion always asks for canceled. */
  function StatusAsked(ev: Event): SubscriptionStatus
    requires Dispatch(ev).ChangeSubscription?
  {
    if ev.kind.SubscriptionDeleted? then Canceled else Dispatch(ev).sub.status
  }

  /**
   * In every reachable state, a row last written by a lifecycle event shows the status that
   * event asks for if and only if it was written by the event's own update, or the event is no
   * deletion, or the deleted object itself reports canceled; otherwise it shows the object's
   * own status. A row last written by a checkout shows the fetched object's status.
   */
  lemma StatusIsAskedIff(c: Config, w: World, steps: seq<Step>, t: string)
    requires WellFormed(c) && Init(w) && IsRun(c, w, steps) && t in Final(c, w, steps).subs
    requires LastCommit(Final(c, w, steps).commits, t, SubscriptionStream).Some?
    ensures var f := Final(c, w, steps);
            var cm, status := LastCommit(f.commits, t, SubscriptionStream).value, f.subs[t].status;
            var ev := cm.event;
            && (Dispatch(ev).ChangeSubscription? || Dispatch(ev).Provision?)
            && (Dispatch(ev).ChangeSubscription? ==>
                  && (status == StatusAsked(ev) <==>
                      cm.path.ByUpdate? || !ev.kind.SubscriptionDeleted? || Dispatch(ev).sub.status == Canceled)
                  && (!cm.path.ByUpdate? ==> status == Dispatch(ev).sub.status))
            && (Dispatch(ev).Provision? ==>
                  && (cm.path.ByInsert? || cm.path.AfterRace?)
                  && c.answers(cm.path.sub) && cm.path.sub.id == t && status == cm.path.sub.status)
  {
    LedgerAndProjectionAgree(c, w, steps);
    var f := Final(c, w, steps);
    LastCommitConcerns(f.commits, t, SubscriptionStream);
    assert Reflects(f, t, SubscriptionStream);
    var cm := LastCommit(f.commits, t, SubscriptionStream).value;
    assert TrueCommit(c, f, cm);
  }

  // ------------------------------------------------------------ whose row it is

  /** The columns an insert alone writes, as one insert writes them. */
  ghost predicate InsertedAs(row: Subscription, path: Path) {
    && path.ByInsert? && path.sub.items != [] && path.sub.items[0].price.Some?
    && var sub, price := path.sub, path.sub.items[0].price.value;
       && row.userId == path.owner && row.customerId == sub.customer
       && row.productId == (if price.productId != "" then Some(price.productId) else None)
       && row.currency == (if price.currency != "" then Some(price.currency) else None)
       && row.unitAmount == (if price.unitAmount > 0 then Some(price.unitAmount) else None)
       && row.trialStart == (if sub.trialStart > 0 then Some(sub.trialStart) else None)
  }

  predicate SameIdentity(a: Subscription, b: Subscription) {
    && a.userId == b.userId && a.customerId == b.customerId && a.productId == b.productId
    && a.currency == b.currency && a.unitAmount == b.unitAmount && a.trialStart == b.trialStart
  }

  predicate InsertOnly(col: Column) {
    col.Owner? || col.Customer? || col.Product? || col.Currency? || col.Amount? || col.TrialStart?
  }

  /** Only inserts name these columns, so without one to the row nobody has. */
  lemma {:induction false} NamedByInsertOnly(commits: seq<Commit>, t: string, col: Column)
    requires InsertOnly(col)
    ensures LastNamed(commits, t, col).Some? ==>
              exists i :: 0 <= i < |commits| && commits[i].subscription == t && commits[i].path.ByInsert?
                          && LastNamed(commits, t, col) == Named(commits[i].event, commits[i].path, col)
    decreases |commits|
  {
    if commits != [] {
      var n := |commits| - 1;
      NamedByInsertOnly(commits[..n], t, col);
      if !(commits[n].subscription == t && Named(commits[n].event, commits[n].path, col).Some?)
         && LastNamed(commits, t, col).Some? {
        var i :| 0 <= i < n && commits[..n][i].subscription == t && commits[..n][i].path.ByInsert?
                 && LastNamed(commits, t, col) == Named(commits[..n][i].event, commits[..n][i].path, col);
        assert commits[i] == commits[..n][i];
      }
    }
  }

  /** The one insert of a row names each of these columns as the row has it. */
  lemma InsertNamesColumn(c: Config, f: World, t: string, i: nat, col: Column)
    requires HistoryInv(c, f) && t in f.subs && t !in f.start && HoldsNamed(f, t, col) && InsertOnly(col)
    requires i < |f.commits| && f.commits[i].subscription == t && f.commits[i].path.ByInsert?
    ensures Named(f.commits[i].event, f.commits[i].path, col) == Some(ValueOf(f.subs[t], col))
  {
    NamedByInsertOnly(f.commits, t, col);
    var j :| 0 <= j < |f.commits| && f.commits[j].subscription == t && f.commits[j].path.ByInsert?
             && LastNamed(f.commits, t, col) == Named(f.commits[j].event, f.commits[j].path, col);
    assert i == j;
  }

  /**
   * In every reachable state a row's owner, customer, product, currency, amount and trial start
   * are what the run began with, or, if the run inserted the row, the owner resolved for that
   * insert and what its object says. No later commit changes any of them.
   */
  lemma IdentityIsFixed(c: Config, w: World, steps: seq<Step>, t: string)
    requires WellFormed(c) && Init(w) && IsRun(c, w, steps) && t in Final(c, w, steps).subs
    ensures var f := Final(c, w, steps);
            if t in w.subs then SameIdentity(f.subs[t], w.subs[t])
            else exists i :: 0 <= i < |f.commits| && f.commits[i].subscription == t && InsertedAs(f.subs[t], f.commits[i].path)
  {
    LedgerAndProjectionAgree(c, w, steps);
    var f := Final(c, w, steps);
    assert HoldsNamed(f, t, Owner);
    NamedByInsertOnly(f.commits, t, Owner);
    if t in w.subs {
      StartIdentity(c, f, t);
    } else {
      var i :| 0 <= i < |f.commits| && f.commits[i].subscription == t && f.commits[i].path.ByInsert?;
      InsertIdentity(c, f, t, i);
    }
  }

  lemma StartIdentity(c: Config, f: World, t: string)
    requires HistoryInv(c, f) && t in f.subs && t in f.start && forall col :: HoldsNamed(f, t, col)
    ensures SameIdentity(f.subs[t], f.start[t])
  {
    forall col | InsertOnly(col) ensures ValueOf(f.subs[t], col) == ValueOf(f.start[t], col) {
      NamedByInsertOnly(f.commits, t, col);
      assert HoldsNamed(f, t, col);
    }
    var a, b := f.subs[t], f.start[t];
    assert ValueOf(a, Owner) == ValueOf(b, Owner) && ValueOf(a, Customer) == ValueOf(b, Customer);
    assert ValueOf(a, Product) == ValueOf(b, Product) && ValueOf(a, Currency) == ValueOf(b, Currency);
    assert ValueOf(a, Amount) == ValueOf(b, Amount) && ValueOf(a, TrialStart) == ValueOf(b, TrialStart);
  }

  lemma InsertIdentity(c: Config, f: World, t: string, i: nat)
    requires HistoryInv(c, f) && t in f.subs && t !in f.start && forall col :: HoldsNamed(f, t, col)
    requires i < |f.commits| && f.commits[i].subscription == t && f.commits[i].path.ByInsert?
    ensures InsertedAs(f.subs[t], f.commits[i].path)
  {
    InsertNamesColumn(c, f, t, i, Owner);
    InsertNamesColumn(c, f, t, i, Customer);
    InsertNamesColumn(c, f, t, i, Product);
    InsertNamesColumn(c, f, t, i, Currency);
    InsertNamesColumn(c, f, t, i, Amount);
    InsertNamesColumn(c, f, t, i, TrialStart);
  }

  // ------------------------------------------------ convergence of whole runs

  predicate About(ev: Event, t: string, stream: Stream) { Target(ev) == t && StreamOf(ev) == stream }

  /** Every event Stripe has for this subscription and stream is recorded as succeeded. */
  ghost predicate AllSucceeded(c: Config, f: World, t: string, stream: Stream) {
    forall e :: e in c.catalogue && About(c.decode(c.catalogue[e]), t, stream) ==>
      e in f.ledger && f.ledger[e].status == Succeeded
  }

  /** No event of the stream is newer, and none other is of the same second. */
  ghost predicate NewestEvent(c: Config, t: string, stream: Stream, n: Event) {
    && n.id in c.catalogue && n == c.decode(c.catalogue[n.id]) && About(n, t, stream)
    && forall e :: e in c.catalogue && About(c.decode(c.catalogue[e]), t, stream) ==>
         var ev := c.decode(c.catalogue[e]);
         ev.created <= n.created && (ev.created == n.created ==> ev == n)
  }

  /**
   * Convergence of the concurrent system: however deliveries, retries, takeovers, faults and
   * deaths interleave, once every event of a stream has succeeded the row shows the newest
   * one, unless it was newer than all of them when the run began and is untouched.
   */
  lemma CompleteRunsShowNewest(c: Config, w: World, steps: seq<Step>, t: string, stream: Stream, n: Event)
    requires WellFormed(c) && Init(w) && IsRun(c, w, steps)
    requires AllSucceeded(c, Final(c, w, steps), t, stream) && NewestEvent(c, t, stream, n)
    ensures var f := Final(c, w, steps);
            && t in f.subs
            && var last := LastCommit(f.commits, t, stream);
               if last.Some? then
                 && last.value.event == n && TrueCommit(c, f, last.value) && ShowsCommit(f, t, last.value)
                 && CursorEvent(f.subs[t], stream) == Some(n.id) && Cursor(f.subs[t], stream) == Some(n.created)
               else t in w.subs && Older(n.created, Cursor(w.subs[t], stream)) && Untouched(f, t, stream)
  {
    LedgerAndProjectionAgree(c, w, steps);
    assert Covered(Final(c, w, steps), n);
    assert Reflects(Final(c, w, steps), t, stream);
    CoveredNewestIsLast(c, Final(c, w, steps), t, stream, n);
  }

  /** If the newest event is covered, it is the stream's last commit, or there has been none. */
  lemma CoveredNewestIsLast(c: Config, f: World, t: string, stream: Stream, n: Event)
    requires HistoryInv(c, f) && NewestEvent(c, t, stream, n) && Covered(f, n) && Reflects(f, t, stream)
    ensures var last := LastCommit(f.commits, t, stream);
            if last.Some? then last.value.event == n && TrueCommit(c, f, last.value)
            else Older(n.created, Cursor(f.subs[t], stream))
  {
    LastCommitConcerns(f.commits, t, stream);
    var last := LastCommit(f.commits, t, stream);
    if last.Some? {
      assert TrueCommit(c, f, last.value);
    } else {
      assert !Committed(f, n);
    }
  }

  /** Every column the object sets holds that value in both rows. */
  predicate AgreeOnObject(a: Subscription, b: Subscription, sub: StripeSub) {
    && a.cancelAtPeriodEnd == b.cancelAtPeriodEnd == sub.cancelAtPeriodEnd
    && (sub.cancelAt > 0 ==> a.cancelAt == b.cancelAt == Some(sub.cancelAt))
    && (sub.canceledAt > 0 ==> a.canceledAt == b.canceledAt == Some(sub.canceledAt))
    && (sub.endedAt > 0 ==> a.endedAt == b.endedAt == Some(sub.endedAt))
    && (sub.trialEnd > 0 ==> a.trialEnd == b.trialEnd == Some(sub.trialEnd))
    && (sub.items != [] ==>
          var item := sub.items[0];
          && (item.price.Some? && item.price.value.id != "" ==> a.priceId == b.priceId == item.price.value.id)
          && (0 < item.quantity < 0x8000_0000 ==> a.quantity == b.quantity == item.quantity))
  }

  /** A complete run in which the row was not newer from the start ends with a commit of n. */
  lemma CompleteRunCommits(c: Config, w: World, steps: seq<Step>, t: string, stream: Stream, n: Event)
    requires WellFormed(c) && Init(w) && IsRun(c, w, steps)
    requires AllSucceeded(c, Final(c, w, steps), t, stream) && NewestEvent(c, t, stream, n)
    requires t in w.subs ==> !Older(n.created, Cursor(w.subs[t], stream))
    ensures var f := Final(c, w, steps);
            && t in f.subs && LastCommit(f.commits, t, stream).Some? && Checks(f.subs[t])
            && var cm := LastCommit(f.commits, t, stream).value;
               && cm.event == n && cm.stream == stream && Fits(c, n, cm.path) && ShowsCommit(f, t, cm)
  {
    LedgerAndProjectionAgree(c, w, steps);
    CompleteRunsShowNewest(c, w, steps, t, stream, n);
    LastCommitConcerns(Final(c, w, steps).commits, t, stream);
  }

  /**
   * Two complete runs over the same events agree on the newest event's status, cursor and
   * every column of its stream that its object sets, unless it is a deletion whose object
   * does not report canceled.
   */
  lemma CompleteRunsAgree(c: Config, w: World, a: seq<Step>, b: seq<Step>, t: string, n: Event)
    requires WellFormed(c) && Init(w) && IsRun(c, w, a) && IsRun(c, w, b)
    requires AllSucceeded(c, Final(c, w, a), t, SubscriptionStream) && AllSucceeded(c, Final(c, w, b), t, SubscriptionStream)
    requires NewestEvent(c, t, SubscriptionStream, n) && Dispatch(n).ChangeSubscription?
    requires t in w.subs ==> !Older(n.created, w.subs[t].lastEventAt)
    requires n.kind.SubscriptionDeleted? ==> Dispatch(n).sub.status == Canceled
    ensures t in Final(c, w, a).subs && t in Final(c, w, b).subs
    ensures var ra, rb := Final(c, w, a).subs[t], Final(c, w, b).subs[t];
            && ra.status == rb.status == StatusAsked(n)
            && (ra.status == Canceled ==> ra.canceledAt == rb.canceledAt)
            && ra.lastEventId == rb.lastEventId == Some(n.id) && ra.lastEventAt == rb.lastEventAt == Some(n.created)
            && AgreeOnObject(ra, rb, Dispatch(n).sub)
  {
    CompleteRunCommits(c, w, a, t, SubscriptionStream, n);
    CompleteRunCommits(c, w, b, t, SubscriptionStream, n);
  }

  /**
   * The same for the invoice stream: flag, error text, next attempt and cursor agree, and so
   * does the counter when the newest event is a success. A failure may have been counted more
   * than once; the counter is then the run of failures each history committed.
   */
  lemma CompleteRunsAgreeOnPayments(c: Config, w: World, a: seq<Step>, b: seq<Step>, t: string, n: Event)
    requires WellFormed(c) && Init(w) && IsRun(c, w, a) && IsRun(c, w, b)
    requires AllSucceeded(c, Final(c, w, a), t, InvoiceStream) && AllSucceeded(c, Final(c, w, b), t, InvoiceStream)
    requires NewestEvent(c, t, InvoiceStream, n)
    requires t in w.subs ==> !Older(n.created, w.subs[t].lastInvoiceEventAt)
    ensures t in Final(c, w, a).subs && t in Final(c, w, b).subs
    ensures var ra, rb := Final(c, w, a).subs[t], Final(c, w, b).subs[t];
            && Dunning.SameButCount(ra, rb)
            && ra.lastInvoiceEventId == Some(n.id) && (ra.paymentFailedAt.Some? <==> !n.kind.InvoicePaid?)
            && (n.kind.InvoicePaid? ==> ra.paymentFailureCount == rb.paymentFailureCount == 0)
            && (!n.kind.InvoicePaid? ==> ra.paymentFailureCount >= 1 && rb.paymentFailureCount >= 1)
  {
    CompleteRunCommits(c, w, a, t, InvoiceStream, n);
    CompleteRunCommits(c, w, b, t, InvoiceStream, n);
  }

  // ------------------------------------- the two columns an insert leaves null

  lemma {:induction false} LastCommitAt(commits: seq<Commit>, t: string, stream: Stream) returns (j: nat)
    requires LastCommit(commits, t, stream).Some?
    ensures j < |commits| && Some(commits[j]) == LastCommit(commits, t, stream) && Concerns(commits[j], t, stream)
    ensures forall i :: j < i < |commits| ==> !Concerns(commits[i], t, stream)
  {
    j := |commits| - 1;
    if !Concerns(commits[j], t, stream) {
      j := LastCommitAt(commits[..j], t, stream);
    }
  }

  /** The event was handled, and committed, other than as the row's insert. */
  ghost predicate AppliedToRow(f: World, n: Event) {
    exists i :: 0 <= i < |f.commits| && f.commits[i].event == n && !f.commits[i].path.ByInsert?
  }

  lemma LastInsertIsOnly(c: Config, f: World, t: string, n: Event)
    requires HistoryInv(c, f) && About(n, t, SubscriptionStream)
    requires LastCommit(f.commits, t, SubscriptionStream).Some?
    requires LastCommit(f.commits, t, SubscriptionStream).value.event == n
    ensures AppliedToRow(f, n) <==> !LastCommit(f.commits, t, SubscriptionStream).value.path.ByInsert?
  {
    var j := LastCommitAt(f.commits, t, SubscriptionStream);
    if f.commits[j].path.ByInsert? {
      forall i | 0 <= i < |f.commits| && f.commits[i].event == n ensures i == j {
        assert TrueCommit(c, f, f.commits[i]);
      }
    }
  }

  /**
   * default_payment_method_id, and latest_invoice_id where no invoice event has written it,
   * for a row the run inserted. Over complete runs they hold the newest event's values if and
   * only if that event was applied to a row that was there: it did not insert the row, or it
   * did and was granted another handling after its settle was lost. Otherwise they are null.
   */
  lemma LinksFilledIff(c: Config, w: World, steps: seq<Step>, t: string, n: Event)
    requires WellFormed(c) && Init(w) && IsRun(c, w, steps) && t !in w.subs
    requires AllSucceeded(c, Final(c, w, steps), t, SubscriptionStream)
    requires NewestEvent(c, t, SubscriptionStream, n) && Dispatch(n).ChangeSubscription?
    ensures t in Final(c, w, steps).subs
    ensures var f, sub := Final(c, w, steps), Dispatch(n).sub;
            var row := f.subs[t];
            && (sub.defaultPaymentMethod != "" ==>
                  (row.defaultPaymentMethodId == Some(sub.defaultPaymentMethod) <==> AppliedToRow(f, n)))
            && (!AppliedToRow(f, n) ==> row.defaultPaymentMethodId.None?)
            && (LastCommit(f.commits, t, InvoiceStream).None? ==>
                  && (sub.latestInvoice != "" ==>
                        (row.latestInvoiceId == Some(sub.latestInvoice) <==> AppliedToRow(f, n)))
                  && (!AppliedToRow(f, n) ==> row.latestInvoiceId.None?))
  {
    LedgerAndProjectionAgree(c, w, steps);
    CompleteRunsShowNewest(c, w, steps, t, SubscriptionStream, n);
    var f := Final(c, w, steps);
    LastInsertIsOnly(c, f, t, n);
    var cm := LastCommit(f.commits, t, SubscriptionStream).value;
    assert cm.path.sub == Dispatch(n).sub;
  }

  // --------------------------------------------- a settled event is not handled

  ghost predicate AtRest(w: World, e: string) {
    && e in w.ledger && w.ledger[e].Settled()
    && forall k :: k in w.workers ==> w.workers[k].event != e
  }

  lemma RestIsKept(c: Config, w: World, s: Step, e: string)
    requires Enabled(c, w, s) && AtRest(w, e)
    ensures AtRest(Apply(c, w, s), e)
  {
    StepKeepsRows(c, w, s);
    StepTouches(c, w, s, e);
    TouchedExtends(w.ledger[e], Apply(c, w, s).ledger[e], w.now);
    forall k | k in Apply(c, w, s).workers ensures Apply(c, w, s).workers[k].event != e {
      WorkersOrigin(c, w, s, k);
    }
  }

  /** The history after another step: only a worker's own event can be added to it. */
  lemma StepCommits(c: Config, w: World, s: Step)
    requires WellFormed(c) && AgreementInv(c, w) && Enabled(c, w, s)
    ensures var more := Apply(c, w, s).commits;
            || more == w.commits
            || (exists cm :: more == w.commits + [cm] && s.Work? && cm.event.id == w.workers[s.worker].event)
  {
    OnlyWorkWrites(c, w, s);
    if s.Work? {
      var worker := w.workers[s.worker];
      assert WorkerInv(c, w, worker) && Authentic(c, w, worker.event, worker.payload);
      if worker.payload != Some(c.catalogue[worker.event]) {
        SkeletonWorkerWritesNothing(c, w, s.worker, s.env);
      }
    }
  }

  ghost predicate NoMoreCommits(w: World, f: World, e: string) {
    && |w.commits| <= |f.commits| && f.commits[..|w.commits|] == w.commits
    && forall i :: |w.commits| <= i < |f.commits| ==> f.commits[i].event.id != e
  }

  /**
   * A redelivery of a settled event is refused, by every path and for ever: no run adds a
   * commit of it, so what it did not write the first time it never writes.
   */
  lemma {:induction false} SettledIsNotHandledAgain(c: Config, w: World, steps: seq<Step>, e: string)
    requires WellFormed(c) && AgreementInv(c, w) && IsRun(c, w, steps) && AtRest(w, e)
    ensures AtRest(Final(c, w, steps), e) && NoMoreCommits(w, Final(c, w, steps), e)
    decreases |steps|
  {
    if steps != [] {
      var w1 := Apply(c, w, steps[0]);
      RestIsKept(c, w, steps[0], e);
      StepCommits(c, w, steps[0]);
      StepKeepsAgreement(c, w, steps[0]);
      SettledIsNotHandledAgain(c, w1, steps[1..], e);
      NoMoreCommitsChain(w, w1, Final(c, w, steps), e);
    }
  }

  lemma NoMoreCommitsChain(w: World, w1: World, f: World, e: string)
    requires NoMoreCommits(w, w1, e) && NoMoreCommits(w1, f, e)
    ensures NoMoreCommits(w, f, e)
  {
    assert f.commits[..|w.commits|] == f.commits[..|w1.commits|][..|w.commits|];
    forall i | |w.commits| <= i < |f.commits| ensures f.commits[i].event.id != e {
      if i < |w1.commits| {
        assert f.commits[i] == f.commits[..|w1.commits|][i];
      }
    }
  }

  // ------------------------------------------------- skeletons write nothing

  /**
   * In every reachable state, a worker that replays a purged payload writes nothing, whatever
   * its program point, and is never about to settle its event as succeeded.
   */
  lemma PurgedReplayWritesNothing(c: Config, w: World, steps: seq<Step>, k: nat, env: Environment)
    requires WellFormed(c) && Init(w) && IsRun(c, w, steps) && k in Final(c, w, steps).workers
    requires exists j :: Final(c, w, steps).workers[k].payload == Some(Json.Skeleton(j))
    ensures var f := Final(c, w, steps);
            && (f.workers[k].pc.Dispatching? || (f.workers[k].pc.Settling? && !f.workers[k].pc.verdict.Done?))
            && (Enabled(c, f, Work(k, env)) ==>
                  Apply(c, f, Work(k, env)).subs == f.subs && Apply(c, f, Work(k, env)).commits == f.commits)
  {
    InitAgrees(c, w);
    RunKeepsAgreement(c, w, steps);
    PurgedWorkerIsIdle(c, Final(c, w, steps), k);
    if Enabled(c, Final(c, w, steps), Work(k, env)) {
      SkeletonWorkerWritesNothing(c, Final(c, w, steps), k, env);
    }
  }

  lemma PurgedWorkerIsIdle(c: Config, f: World, k: nat)
    requires WellFormed(c) && AgreementInv(c, f) && k in f.workers
    requires exists j :: f.workers[k].payload == Some(Json.Skeleton(j))
    ensures f.workers[k].pc.Dispatching? || (f.workers[k].pc.Settling? && !f.workers[k].pc.verdict.Done?)
  {
    var j :| f.workers[k].payload == Some(Json.Skeleton(j));
    SkeletonReplayIsInert(c.decode, j);
    InertEventHasNoPath(c, c.decode(Json.Skeleton(j)));
    NoNamelessRow(f);
    assert WorkerInv(c, f, f.workers[k]);
  }

  lemma InertEventHasNoPath(c: Config, ev: Event)
    requires Dispatch(ev).Skip? || Dispatch(ev).Fail?
    ensures Target(ev) == "" && forall path :: !Fits(c, ev, path)
  {}

  lemma NoNamelessRow(f: World)
    requires LegalTable(f.subs)
    ensures "" !in f.subs
  {
    assert forall t :: t in f.subs ==> HasForm("sub_", t);
  }
}
