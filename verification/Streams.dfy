/**
 * The two event streams share a row but not their cursors: neither can starve or change
 * the other, exactly as long as no event carries one end of a billing period alone.
 */
module Streams {
  import opened Domain
  import opened Subscriptions

  datatype Delivery = Change(change: StatusUpdate) | Payment(payment: InvoiceUpdate)

  function Step(row: Subscription, d: Delivery): Subscription {
    match d
    case Change(u) => RowAfter(Some(row), UpdateStatus(Some(row), u)).value
    case Payment(u) => RowAfter(Some(row), RecordInvoice(Some(row), u)).value
  }

  function Run(row: Subscription, ds: seq<Delivery>): Subscription
    decreases |ds|
  {
    if ds == [] then row else Run(Step(row, ds[0]), ds[1..])
  }

  function OnlyChanges(ds: seq<Delivery>): seq<Delivery> {
    if ds == [] then [] else (if ds[0].Change? then [ds[0]] else []) + OnlyChanges(ds[1..])
  }

  function OnlyPayments(ds: seq<Delivery>): seq<Delivery> {
    if ds == [] then [] else (if ds[0].Payment? then [ds[0]] else []) + OnlyPayments(ds[1..])
  }

  /** The columns only the subscription stream writes. */
  datatype ChangeSide = ChangeSide(
    status: SubscriptionStatus, cancelAtPeriodEnd: bool, cancelAt: Option<Time>, canceledAt: Option<Time>,
    endedAt: Option<Time>, trialStart: Option<Time>, trialEnd: Option<Time>, priceId: string, quantity: int,
    defaultPaymentMethodId: Option<string>, lastEventId: Option<string>, lastEventAt: Option<Time>)

  function ChangeSideOf(s: Subscription): ChangeSide {
    ChangeSide(s.status, s.cancelAtPeriodEnd, s.cancelAt, s.canceledAt, s.endedAt, s.trialStart, s.trialEnd,
               s.priceId, s.quantity, s.defaultPaymentMethodId, s.lastEventId, s.lastEventAt)
  }

  /** The columns only the invoice stream writes. */
  datatype PaymentSide = PaymentSide(
    failedAt: Option<Time>, failureCount: int, lastError: Option<string>, nextAttemptAt: Option<Time>,
    lastEventId: Option<string>, lastEventAt: Option<Time>)

  function PaymentSideOf(s: Subscription): PaymentSide {
    PaymentSide(s.paymentFailedAt, s.paymentFailureCount, s.lastPaymentError, s.nextPaymentAttemptAt,
                s.lastInvoiceEventId, s.lastInvoiceEventAt)
  }

  predicate PairedPeriod(d: Delivery) {
    match d
    case Change(u) => u.periodStart.Some? <==> u.periodEnd.Some?
    case Payment(u) => u.periodStart.Some? <==> u.periodEnd.Some?
  }

  lemma StepKeepsChecks(row: Subscription, d: Delivery)
    requires Checks(row)
    ensures Checks(Step(row, d))
  {}

  /** A stream's own delivery acts alike on rows that agree on its side. */
  lemma ChangeDependsOnItsSide(a: Subscription, b: Subscription, u: StatusUpdate)
    requires Checks(a) && Checks(b) && ChangeSideOf(a) == ChangeSideOf(b) && PairedPeriod(Change(u))
    ensures ChangeSideOf(Step(a, Change(u))) == ChangeSideOf(Step(b, Change(u)))
  {
    StatusRejectedIff(a, u);
    StatusRejectedIff(b, u);
  }

  lemma PaymentDependsOnItsSide(a: Subscription, b: Subscription, u: InvoiceUpdate)
    requires Checks(a) && Checks(b) && PaymentSideOf(a) == PaymentSideOf(b) && PairedPeriod(Payment(u))
    ensures PaymentSideOf(Step(a, Payment(u))) == PaymentSideOf(Step(b, Payment(u)))
  {
    InvoiceRejectedIff(a, u);
    InvoiceRejectedIff(b, u);
  }

  lemma OtherStreamKeepsSide(row: Subscription, d: Delivery)
    ensures d.Payment? ==> ChangeSideOf(Step(row, d)) == ChangeSideOf(row)
    ensures d.Change? ==> PaymentSideOf(Step(row, d)) == PaymentSideOf(row)
  {}

  lemma {:induction false} ChangesAlone(a: Subscription, b: Subscription, ds: seq<Delivery>)
    requires Checks(a) && Checks(b) && ChangeSideOf(a) == ChangeSideOf(b)
    requires forall d :: d in ds ==> PairedPeriod(d)
    ensures ChangeSideOf(Run(a, ds)) == ChangeSideOf(Run(b, OnlyChanges(ds)))
    decreases |ds|
  {
    if ds != [] {
      StepKeepsChecks(a, ds[0]);
      StepKeepsChecks(b, ds[0]);
      OtherStreamKeepsSide(a, ds[0]);
      if ds[0].Change? {
        ChangeDependsOnItsSide(a, b, ds[0].change);
        ChangesAlone(Step(a, ds[0]), Step(b, ds[0]), ds[1..]);
        assert OnlyChanges(ds)[1..] == OnlyChanges(ds[1..]);
      } else {
        ChangesAlone(Step(a, ds[0]), b, ds[1..]);
        assert OnlyChanges(ds) == OnlyChanges(ds[1..]);
      }
    }
  }

  lemma {:induction false} PaymentsAlone(a: Subscription, b: Subscription, ds: seq<Delivery>)
    requires Checks(a) && Checks(b) && PaymentSideOf(a) == PaymentSideOf(b)
    requires forall d :: d in ds ==> PairedPeriod(d)
    ensures PaymentSideOf(Run(a, ds)) == PaymentSideOf(Run(b, OnlyPayments(ds)))
    decreases |ds|
  {
    if ds != [] {
      StepKeepsChecks(a, ds[0]);
      StepKeepsChecks(b, ds[0]);
      OtherStreamKeepsSide(a, ds[0]);
      if ds[0].Payment? {
        PaymentDependsOnItsSide(a, b, ds[0].payment);
        PaymentsAlone(Step(a, ds[0]), Step(b, ds[0]), ds[1..]);
        assert OnlyPayments(ds)[1..] == OnlyPayments(ds[1..]);
      } else {
        PaymentsAlone(Step(a, ds[0]), b, ds[1..]);
        assert OnlyPayments(ds) == OnlyPayments(ds[1..]);
      }
    }
  }

  /** For every interleaving, each side is what its own stream alone would have made it. */
  lemma StreamsDoNotInterfere(row: Subscription, ds: seq<Delivery>)
    requires Checks(row) && forall d :: d in ds ==> PairedPeriod(d)
    ensures ChangeSideOf(Run(row, ds)) == ChangeSideOf(Run(row, OnlyChanges(ds)))
    ensures PaymentSideOf(Run(row, ds)) == PaymentSideOf(Run(row, OnlyPayments(ds)))
  {
    ChangesAlone(row, row, ds);
    PaymentsAlone(row, row, ds);
  }

  // -------------------------------------------------- the condition is exact

  /** A row one payment behind, never written by an event, with the given period. */
  function Sample(start: Time, end: Time): Subscription {
    Subscription("u", "sub_a", "cus_a", "price_a", None, Active, 1, None, None, start, end, false,
                 None, Some(0), None, None, None, None, None, None, None, Some(0), 1, Some("declined"), None, None, None)
  }

  lemma SampleIsLegal(start: Time, end: Time)
    requires start < end
    ensures Checks(Sample(start, end))
  {
    assert HasForm("sub_", "sub_a") && HasForm("cus_", "cus_a") && HasForm("price_", "price_a");
  }

  /** Two legal rows alike but for the period: a lone end fits the first and not the second. */
  lemma LoneEndSamples(start: Option<Time>, end: Option<Time>) returns (good: Subscription, bad: Subscription)
    requires start.Some? != end.Some?
    ensures Checks(good) && Checks(bad)
    ensures ChangeSideOf(good) == ChangeSideOf(bad) && PaymentSideOf(good) == PaymentSideOf(bad)
    ensures good.lastEventAt.None? && good.lastInvoiceEventAt.None? && good.paymentFailedAt.Some?
    ensures good.canceledAt.Some? && good.trialStart.None?
    ensures Coalesce(start, good.periodStart) < Coalesce(end, good.periodEnd)
    ensures Coalesce(end, bad.periodEnd) <= Coalesce(start, bad.periodStart)
  {
    var t := if start.Some? then start.value else end.value;
    good := if start.Some? then Sample(t, t + 1) else Sample(t - 1, t);
    bad := if start.Some? then Sample(t - 2, t - 1) else Sample(t + 1, t + 2);
    SampleIsLegal(good.periodStart, good.periodEnd);
    SampleIsLegal(bad.periodStart, bad.periodEnd);
  }

  /** Whether an invoice event acts alike on all legal rows that agree on the payment side. */
  ghost predicate PaymentIsBlind(u: InvoiceUpdate) {
    forall a, b :: Checks(a) && Checks(b) && PaymentSideOf(a) == PaymentSideOf(b) ==>
      PaymentSideOf(Step(a, Payment(u))) == PaymentSideOf(Step(b, Payment(u)))
  }

  /**
   * An invoice event is immune to the period columns the other stream writes if and only if
   * it is a failure, or carries both ends of its period or neither.
   */
  lemma PaymentBlindIffPaired(u: InvoiceUpdate)
    ensures PaymentIsBlind(u) <==> !u.succeeded || PairedPeriod(Payment(u))
  {
    if !u.succeeded || PairedPeriod(Payment(u)) {
      forall a, b | Checks(a) && Checks(b) && PaymentSideOf(a) == PaymentSideOf(b)
        ensures PaymentSideOf(Step(a, Payment(u))) == PaymentSideOf(Step(b, Payment(u)))
      {
        InvoiceRejectedIff(a, u);
        InvoiceRejectedIff(b, u);
      }
    } else {
      var good, bad := LoneEndSamples(u.periodStart, u.periodEnd);
      InvoiceRejectedIff(good, u);
      InvoiceRejectedIff(bad, u);
      assert PaymentSideOf(Step(good, Payment(u))).failedAt.None?;
      assert PaymentSideOf(Step(bad, Payment(u))) == PaymentSideOf(bad);
    }
  }

  ghost predicate ChangeIsBlind(u: StatusUpdate) {
    forall a, b :: Checks(a) && Checks(b) && ChangeSideOf(a) == ChangeSideOf(b) ==>
      ChangeSideOf(Step(a, Change(u))) == ChangeSideOf(Step(b, Change(u)))
  }

  /** What no row accepts, whatever its columns. */
  predicate AlwaysRefused(u: StatusUpdate) {
    || !u.status.Valid()
    || (u.quantity.Some? && u.quantity.value <= 0)
    || (u.priceId.Some? && !HasForm("price_", u.priceId.value))
  }

  /**
   * A subscription event is immune to the period columns the other stream writes if and only
   * if it carries both ends of its period or neither, or no row accepts it anyway.
   */
  lemma ChangeBlindIffPaired(u: StatusUpdate)
    ensures ChangeIsBlind(u) <==> PairedPeriod(Change(u)) || AlwaysRefused(u)
  {
    if PairedPeriod(Change(u)) || AlwaysRefused(u) {
      forall a, b | Checks(a) && Checks(b) && ChangeSideOf(a) == ChangeSideOf(b)
        ensures ChangeSideOf(Step(a, Change(u))) == ChangeSideOf(Step(b, Change(u)))
      {
        StatusRejectedIff(a, u);
        StatusRejectedIff(b, u);
      }
    } else {
      var good, bad := LoneEndSamples(u.periodStart, u.periodEnd);
      StatusRejectedIff(good, u);
      StatusRejectedIff(bad, u);
      assert ChangeSideOf(Step(good, Change(u))).lastEventAt.Some?;
      assert ChangeSideOf(Step(bad, Change(u))) == ChangeSideOf(bad);
    }
  }
}

/** The dunning fold: what the failure flag and counter mean after any delivery history. */
module Dunning {
  import opened Domain
  import opened Subscriptions
  import Text

  function Record(row: Subscription, u: InvoiceUpdate): Subscription {
    RowAfter(Some(row), RecordInvoice(Some(row), u)).value
  }

  function Fold(row: Subscription, es: seq<InvoiceUpdate>): Subscription {
    if es == [] then row else Record(Fold(row, es[..|es| - 1]), es[|es| - 1])
  }

  /** No CHECK refuses the event on any legal row. */
  predicate Sound(u: InvoiceUpdate) {
    u.succeeded ==> (if u.periodStart.Some? then u.periodEnd.Some? && u.periodStart.value < u.periodEnd.value
                     else u.periodEnd.None?)
  }

  /** A delivery that is older than nothing before it, nor than the row itself. */
  predicate SetsRecord(cursor: Option<Time>, es: seq<InvoiceUpdate>, i: nat)
    requires i < |es|
  {
    !Older(es[i].eventAt, cursor) && forall j :: 0 <= j < i ==> es[j].eventAt <= es[i].eventAt
  }

  function RecordSetters(cursor: Option<Time>, es: seq<InvoiceUpdate>): seq<InvoiceUpdate> {
    if es == [] then []
    else RecordSetters(cursor, es[..|es| - 1])
         + (if SetsRecord(cursor, es, |es| - 1) then [es[|es| - 1]] else [])
  }

  /** The length of the run of failures at the end, continuing an earlier count. */
  function TrailingFailures(before: int, es: seq<InvoiceUpdate>): int {
    if es == [] then before
    else if es[|es| - 1].succeeded then 0
    else TrailingFailures(before, es[..|es| - 1]) + 1
  }

  /** The cursor is the newest instant seen, the row's own included. */
  ghost predicate CursorIsMax(row: Subscription, es: seq<InvoiceUpdate>, cursor: Option<Time>) {
    && (forall e :: e in es ==> cursor.Some? && e.eventAt <= cursor.value)
    && (row.lastInvoiceEventAt.Some? ==> cursor.Some? && row.lastInvoiceEventAt.value <= cursor.value)
    && (cursor == row.lastInvoiceEventAt || exists e :: e in es && cursor == Some(e.eventAt))
  }

  lemma SetsRecordIffNotOlder(row: Subscription, es: seq<InvoiceUpdate>, cursor: Option<Time>)
    requires es != [] && CursorIsMax(row, es[..|es| - 1], cursor)
    ensures SetsRecord(row.lastInvoiceEventAt, es, |es| - 1) <==> !Older(es[|es| - 1].eventAt, cursor)
  {
    var init, e := es[..|es| - 1], es[|es| - 1];
    forall j | 0 <= j < |es| - 1 ensures es[j] in init {
      assert init[j] == es[j];
    }
    if SetsRecord(row.lastInvoiceEventAt, es, |es| - 1) && cursor != row.lastInvoiceEventAt {
      var x :| x in init && cursor == Some(x.eventAt);
      var j :| 0 <= j < |init| && init[j] == x;
      assert es[j] == x;
    }
  }

  lemma RecordEffect(row: Subscription, u: InvoiceUpdate)
    requires Checks(row) && Sound(u)
    ensures Checks(Record(row, u))
    ensures Older(u.eventAt, row.lastInvoiceEventAt) ==> Record(row, u) == row
    ensures !Older(u.eventAt, row.lastInvoiceEventAt) ==>
              && Record(row, u).lastInvoiceEventAt == Some(u.eventAt)
              && Record(row, u).paymentFailureCount == (if u.succeeded then 0 else row.paymentFailureCount + 1)
              && ShowsVerdict(Record(row, u), u)
  {
    InvoiceRejectedIff(row, u);
  }

  function After(cursor: Option<Time>, u: InvoiceUpdate): Option<Time> {
    if Older(u.eventAt, cursor) then cursor else Some(u.eventAt)
  }

  lemma MaxGrows(row: Subscription, es: seq<InvoiceUpdate>, cursor: Option<Time>)
    requires es != [] && CursorIsMax(row, es[..|es| - 1], cursor)
    ensures CursorIsMax(row, es, After(cursor, es[|es| - 1]))
  {
    var init, e := es[..|es| - 1], es[|es| - 1];
    assert es == init + [e];
    if !Older(e.eventAt, cursor) {
      assert e in es;
    } else if cursor != row.lastInvoiceEventAt {
      var x :| x in init && cursor == Some(x.eventAt);
      assert x in es;
    }
  }

  lemma {:induction false} CursorIsNewest(row: Subscription, es: seq<InvoiceUpdate>)
    requires Checks(row) && forall e :: e in es ==> Sound(e)
    ensures Checks(Fold(row, es)) && CursorIsMax(row, es, Fold(row, es).lastInvoiceEventAt)
    decreases |es|
  {
    if es != [] {
      CursorIsNewest(row, es[..|es| - 1]);
      RecordEffect(Fold(row, es[..|es| - 1]), es[|es| - 1]);
      MaxGrows(row, es, Fold(row, es[..|es| - 1]).lastInvoiceEventAt);
    }
  }

  lemma TrailingStep(before: int, setters: seq<InvoiceUpdate>, e: InvoiceUpdate)
    ensures TrailingFailures(before, setters + [e]) == if e.succeeded then 0 else TrailingFailures(before, setters) + 1
  {
    assert (setters + [e])[..|setters|] == setters;
  }

  /**
   * Flag and counter always agree, and the counter is the trailing run of failures among
   * the deliveries that set a record: late stragglers never move it.
   */
  lemma {:induction false} CounterIsTrailingRun(row: Subscription, es: seq<InvoiceUpdate>)
    requires Checks(row) && forall e :: e in es ==> Sound(e)
    ensures Fold(row, es).paymentFailedAt.Some? <==> Fold(row, es).paymentFailureCount > 0
    ensures Fold(row, es).paymentFailureCount ==
            TrailingFailures(row.paymentFailureCount, RecordSetters(row.lastInvoiceEventAt, es))
    decreases |es|
  {
    CursorIsNewest(row, es);
    assert DunningCheck(Fold(row, es));
    if es != [] {
      var init, e := es[..|es| - 1], es[|es| - 1];
      CounterIsTrailingRun(row, init);
      CursorIsNewest(row, init);
      SetsRecordIffNotOlder(row, es, Fold(row, init).lastInvoiceEventAt);
      RecordEffect(Fold(row, init), e);
      var setters := RecordSetters(row.lastInvoiceEventAt, init);
      TrailingStep(row.paymentFailureCount, setters, e);
      assert setters + [] == setters;
    }
  }

  /** Delivered in order, the counter is the true number of consecutive failures. */
  lemma {:induction false} InOrderCountsEveryFailure(row: Subscription, es: seq<InvoiceUpdate>)
    requires Checks(row) && forall e :: e in es ==> Sound(e) && !Older(e.eventAt, row.lastInvoiceEventAt)
    requires forall i, j :: 0 <= i < j < |es| ==> es[i].eventAt <= es[j].eventAt
    ensures Fold(row, es).paymentFailureCount == TrailingFailures(row.paymentFailureCount, es)
  {
    CounterIsTrailingRun(row, es);
    AllSetRecords(row.lastInvoiceEventAt, es);
  }

  lemma {:induction false} AllSetRecords(cursor: Option<Time>, es: seq<InvoiceUpdate>)
    requires forall e :: e in es ==> !Older(e.eventAt, cursor)
    requires forall i, j :: 0 <= i < j < |es| ==> es[i].eventAt <= es[j].eventAt
    ensures RecordSetters(cursor, es) == es
    decreases |es|
  {
    if es != [] {
      AllSetRecords(cursor, es[..|es| - 1]);
      assert es == es[..|es| - 1] + [es[|es| - 1]];
    }
  }

  // ----------------------------------------------------- the flag converges

  predicate NewestOf(n: InvoiceUpdate, es: seq<InvoiceUpdate>) {
    n in es && forall e :: e in es ==> e.eventAt <= n.eventAt
  }

  predicate AllOlder(es: seq<InvoiceUpdate>, cursor: Option<Time>) {
    forall e :: e in es ==> Older(e.eventAt, cursor)
  }

  /** Every dunning column but the counter, and the cursor, are as the event leaves them. */
  predicate ShowsVerdict(out: Subscription, n: InvoiceUpdate) {
    && out.lastInvoiceEventAt == Some(n.eventAt) && out.lastInvoiceEventId == NullIfEmpty(n.eventId)
    && if n.succeeded then
         out.paymentFailedAt.None? && out.lastPaymentError.None? && out.nextPaymentAttemptAt.None?
       else
         && out.paymentFailedAt == Some(n.eventAt) && out.nextPaymentAttemptAt == n.nextAttemptAt
         && out.lastPaymentError == Some(Text.Truncated(DerefOr(n.failureReason, "payment failed")))
  }

  /** The flag is the newest event's verdict, unless the row is newer than all of them. */
  ghost predicate FlagState(row: Subscription, es: seq<InvoiceUpdate>, out: Subscription) {
    if AllOlder(es, row.lastInvoiceEventAt) then out == row
    else exists n :: NewestOf(n, es) && ShowsVerdict(out, n)
  }

  lemma FlagStep(row: Subscription, es: seq<InvoiceUpdate>, mid: Subscription)
    requires es != [] && Checks(mid) && Sound(es[|es| - 1])
    requires FlagState(row, es[..|es| - 1], mid) && CursorIsMax(row, es[..|es| - 1], mid.lastInvoiceEventAt)
    ensures FlagState(row, es, Record(mid, es[|es| - 1]))
  {
    var init, e := es[..|es| - 1], es[|es| - 1];
    assert es == init + [e];
    RecordEffect(mid, e);
    if !Older(e.eventAt, mid.lastInvoiceEventAt) {
      assert NewestOf(e, es);
      assert e in es;
    } else if !AllOlder(init, row.lastInvoiceEventAt) {
      var n :| NewestOf(n, init) && ShowsVerdict(mid, n);
      assert NewestOf(n, es);
      assert !AllOlder(es, row.lastInvoiceEventAt);
    }
  }

  lemma {:induction false} FlagIsNewestVerdict(row: Subscription, es: seq<InvoiceUpdate>)
    requires Checks(row) && forall e :: e in es ==> Sound(e)
    ensures FlagState(row, es, Fold(row, es))
    decreases |es|
  {
    if es != [] {
      FlagIsNewestVerdict(row, es[..|es| - 1]);
      CursorIsNewest(row, es[..|es| - 1]);
      FlagStep(row, es, Fold(row, es[..|es| - 1]));
    }
  }

  /** All the invoice stream writes for itself, except the counter. */
  predicate SameButCount(a: Subscription, b: Subscription) {
    && a.paymentFailedAt == b.paymentFailedAt && a.lastPaymentError == b.lastPaymentError
    && a.nextPaymentAttemptAt == b.nextPaymentAttemptAt
    && a.lastInvoiceEventId == b.lastInvoiceEventId && a.lastInvoiceEventAt == b.lastInvoiceEventAt
  }

  /** Any order, any repetition of the same distinct-time events leaves the same verdict. */
  lemma FlagConverges(row: Subscription, a: seq<InvoiceUpdate>, b: seq<InvoiceUpdate>)
    requires Checks(row) && forall e :: e in a ==> Sound(e)
    requires forall e :: e in a <==> e in b
    requires forall x, y :: x in a && y in a && x.eventAt == y.eventAt ==> x == y
    ensures SameButCount(Fold(row, a), Fold(row, b))
  {
    FlagIsNewestVerdict(row, a);
    FlagIsNewestVerdict(row, b);
    if !AllOlder(a, row.lastInvoiceEventAt) {
      var n :| NewestOf(n, a) && ShowsVerdict(Fold(row, a), n);
      assert !AllOlder(b, row.lastInvoiceEventAt);
      var m :| NewestOf(m, b) && ShowsVerdict(Fold(row, b), m);
      assert n.eventAt == m.eventAt;
    }
  }

  predicate DistinctTimes(es: seq<InvoiceUpdate>) {
    forall x, y :: x in es && y in es && x.eventAt == y.eventAt ==> x == y
  }

  /** A success that holds the cursor has left the counter at nought. */
  lemma SuccessOnTopMeansZero(row: Subscription, es: seq<InvoiceUpdate>, u: InvoiceUpdate)
    requires Checks(row) && (forall e :: e in es ==> Sound(e)) && DistinctTimes(es)
    requires u in es && u.succeeded && !Older(u.eventAt, Fold(row, es).lastInvoiceEventAt)
    ensures Fold(row, es).paymentFailureCount == 0
  {
    CursorIsNewest(row, es);
    FlagIsNewestVerdict(row, es);
    assert !AllOlder(es, row.lastInvoiceEventAt);
    var n :| NewestOf(n, es) && ShowsVerdict(Fold(row, es), n);
    assert n.eventAt == u.eventAt;
    assert DunningCheck(Fold(row, es));
  }

  /**
   * Re-applying an event: the counter does not converge. An event already handled and handled
   * once more - its settle was lost - leaves the counter alone if and only if it has been
   * overtaken or is a success; a failure that still holds the cursor is counted again, because
   * equal timestamps are applied. The other columns of the stream never notice.
   */
  lemma ReplayIsNeutralIff(row: Subscription, es: seq<InvoiceUpdate>, u: InvoiceUpdate)
    requires Checks(row) && (forall e :: e in es ==> Sound(e)) && DistinctTimes(es) && u in es
    ensures var once, again := Fold(row, es), Fold(row, es + [u]);
            && (again.paymentFailureCount == once.paymentFailureCount <==>
                Older(u.eventAt, once.lastInvoiceEventAt) || u.succeeded)
            && again.paymentFailureCount <= once.paymentFailureCount + 1
            && SameButCount(once, again)
  {
    var once := Fold(row, es);
    assert (es + [u])[..|es|] == es;
    CursorIsNewest(row, es);
    RecordEffect(once, u);
    if u.succeeded && !Older(u.eventAt, once.lastInvoiceEventAt) {
      SuccessOnTopMeansZero(row, es, u);
    }
    FlagConverges(row, es, es + [u]);
  }
}
