/**
 * The subscriptions table: the local projection of Stripe subscriptions, written by two
 * independent event streams, each guarded by its own cursor.
 */
module Subscriptions {
  import opened Domain
  import Text

  datatype Subscription = Subscription(
    userId: string,
    stripeId: string,
    customerId: string,
    priceId: string,
    productId: Option<string>,
    status: SubscriptionStatus,
    quantity: int,
    currency: Option<string>,
    unitAmount: Option<int>,
    periodStart: Time,
    periodEnd: Time,
    cancelAtPeriodEnd: bool,
    cancelAt: Option<Time>,
    canceledAt: Option<Time>,
    endedAt: Option<Time>,
    trialStart: Option<Time>,
    trialEnd: Option<Time>,
    latestInvoiceId: Option<string>,
    defaultPaymentMethodId: Option<string>,
    lastEventId: Option<string>,
    lastEventAt: Option<Time>,
    paymentFailedAt: Option<Time>,
    paymentFailureCount: int,
    lastPaymentError: Option<string>,
    nextPaymentAttemptAt: Option<Time>,
    lastInvoiceEventId: Option<string>,
    lastInvoiceEventAt: Option<Time>)

  /** One customer.subscription.* event; an absent field leaves the column alone. */
  datatype StatusUpdate = StatusUpdate(
    stripeId: string,
    status: SubscriptionStatus,
    eventId: string,
    eventAt: Time,
    periodStart: Option<Time>,
    periodEnd: Option<Time>,
    cancelAtPeriodEnd: Option<bool>,
    cancelAt: Option<Time>,
    canceledAt: Option<Time>,
    endedAt: Option<Time>,
    trialEnd: Option<Time>,
    priceId: Option<string>,
    quantity: Option<int>,
    latestInvoiceId: Option<string>,
    defaultPaymentMethodId: Option<string>)

  /** One invoice.payment_* event. */
  datatype InvoiceUpdate = InvoiceUpdate(
    stripeId: string,
    succeeded: bool,
    eventId: string,
    eventAt: Time,
    invoiceId: Option<string>,
    failureReason: Option<string>,
    nextAttemptAt: Option<Time>,
    periodStart: Option<Time>,
    periodEnd: Option<Time>)

  /** What one transaction against the table reports. */
  datatype StoreResult =
    | Written(row: Subscription)
    | NotFound
    | Stale
    | Conflict
    | Rejected   // a CHECK constraint refused the row; the transaction rolled back

  // ----------------------------------------------------- CHECK constraints

  predicate Alphanumeric(c: char) {
    'a' <= c <= 'z' || 'A' <= c <= 'Z' || '0' <= c <= '9'
  }

  /** prefix followed by one or more letters and digits. */
  predicate HasForm(prefix: string, s: string) {
    && |prefix| < |s| && s[..|prefix|] == prefix
    && forall i :: |prefix| <= i < |s| ==> Alphanumeric(s[i])
  }

  predicate CurrencyCode(s: string) {
    |s| == 3 && forall i :: 0 <= i < 3 ==> 'a' <= s[i] <= 'z'
  }

  predicate IdentityChecks(s: Subscription) {
    && s.userId != ""
    && HasForm("sub_", s.stripeId)
    && HasForm("cus_", s.customerId)
    && (s.currency.Some? ==> CurrencyCode(s.currency.value))
    && (s.unitAmount.Some? ==> s.unitAmount.value >= 0)
  }

  predicate PriceCheck(s: Subscription) { HasForm("price_", s.priceId) }
  predicate QuantityCheck(s: Subscription) { s.quantity > 0 }
  predicate PeriodCheck(s: Subscription) { s.periodStart < s.periodEnd }

  predicate TrialCheck(s: Subscription) {
    s.trialStart.Some? && s.trialEnd.Some? ==> s.trialStart.value < s.trialEnd.value
  }

  predicate CanceledCheck(s: Subscription) {
    s.status.Valid() && (s.status == Canceled ==> s.canceledAt.Some?)
  }

  predicate DunningCheck(s: Subscription) {
    s.paymentFailureCount >= 0 && (s.paymentFailedAt.Some? <==> s.paymentFailureCount > 0)
  }

  predicate Checks(s: Subscription) {
    && IdentityChecks(s) && PriceCheck(s) && QuantityCheck(s) && PeriodCheck(s)
    && TrialCheck(s) && CanceledCheck(s) && DunningCheck(s)
  }

  // ------------------------------------------------------------ statements

  function NullIfEmpty(s: string): Option<string> {
    if s == "" then None else Some(s)
  }

  function DerefOr(s: Option<string>, fallback: string): string {
    if s.None? || s.value == "" then fallback else s.value
  }

  predicate Older(at: Time, cursor: Option<Time>) {
    cursor.Some? && at < cursor.value
  }

  /** The SET list of UpdateSubscriptionStatus. */
  function OverwriteStatus(s: Subscription, u: StatusUpdate): Subscription {
    s.(status := u.status,
       periodStart := Coalesce(u.periodStart, s.periodStart),
       periodEnd := Coalesce(u.periodEnd, s.periodEnd),
       cancelAtPeriodEnd := Coalesce(u.cancelAtPeriodEnd, s.cancelAtPeriodEnd),
       cancelAt := CoalesceNullable(u.cancelAt, s.cancelAt),
       canceledAt := CoalesceNullable(u.canceledAt, s.canceledAt),
       endedAt := CoalesceNullable(u.endedAt, s.endedAt),
       trialEnd := CoalesceNullable(u.trialEnd, s.trialEnd),
       priceId := Coalesce(u.priceId, s.priceId),
       quantity := Coalesce(u.quantity, s.quantity),
       latestInvoiceId := CoalesceNullable(u.latestInvoiceId, s.latestInvoiceId),
       defaultPaymentMethodId := CoalesceNullable(u.defaultPaymentMethodId, s.defaultPaymentMethodId),
       lastEventId := NullIfEmpty(u.eventId),
       lastEventAt := Some(u.eventAt))
  }

  /** The SET lists of RecordInvoicePayment; a success clears the dunning columns. */
  function OverwriteInvoice(s: Subscription, u: InvoiceUpdate): Subscription {
    var common := s.(latestInvoiceId := CoalesceNullable(u.invoiceId, s.latestInvoiceId),
                     lastInvoiceEventId := NullIfEmpty(u.eventId),
                     lastInvoiceEventAt := Some(u.eventAt));
    if u.succeeded then
      common.(periodStart := Coalesce(u.periodStart, s.periodStart),
              periodEnd := Coalesce(u.periodEnd, s.periodEnd),
              paymentFailedAt := None,
              paymentFailureCount := 0,
              lastPaymentError := None,
              nextPaymentAttemptAt := None)
    else
      common.(paymentFailedAt := Some(u.eventAt),
              paymentFailureCount := s.paymentFailureCount + 1,
              lastPaymentError := Some(Text.Truncated(DerefOr(u.failureReason, "payment failed"))),
              nextPaymentAttemptAt := u.nextAttemptAt)
  }

  function Guarded(row: Subscription): StoreResult {
    if Checks(row) then Written(row) else Rejected
  }

  function UpdateStatus(row: Option<Subscription>, u: StatusUpdate): StoreResult {
    if row.None? then NotFound
    else if Older(u.eventAt, row.value.lastEventAt) then Stale
    else Guarded(OverwriteStatus(row.value, u))
  }

  function RecordInvoice(row: Option<Subscription>, u: InvoiceUpdate): StoreResult {
    if row.None? then NotFound
    else if Older(u.eventAt, row.value.lastInvoiceEventAt) then Stale
    else Guarded(OverwriteInvoice(row.value, u))
  }

  /**
   * CHECKs are evaluated before the unique index reports a conflict. An owner who is gone
   * violates the foreign key, which is reported as a conflict too.
   */
  function Create(row: Option<Subscription>, s: Subscription, ownerExists: bool): StoreResult {
    if !Checks(s) then Rejected
    else if row.Some? || !ownerExists then Conflict
    else Written(s)
  }

  /** The row a transaction leaves behind. */
  function RowAfter(row: Option<Subscription>, r: StoreResult): Option<Subscription> {
    if r.Written? then Some(r.row) else row
  }

  ghost predicate LegalTable(rows: map<string, Subscription>) {
    forall k :: k in rows ==> rows[k].stripeId == k && Checks(rows[k])
  }

  function TableAfter(rows: map<string, Subscription>, id: string, r: StoreResult): map<string, Subscription> {
    if r.Written? then rows[id := r.row] else rows
  }

  // ------------------------------------------------------------ repository

  class SubscriptionRepo {
    var rows: map<string, Subscription>

    constructor (initial: map<string, Subscription>)
      ensures rows == initial
    {
      rows := initial;
    }

    /** Lock, compare the subscription cursor, overwrite, commit. */
    method UpdateSubscriptionStatus(u: StatusUpdate) returns (r: StoreResult)
      requires LegalTable(rows)
      modifies this
      ensures r == UpdateStatus(Get(old(rows), u.stripeId), u)
      ensures rows == TableAfter(old(rows), u.stripeId, r)
      ensures LegalTable(rows)
    {
      if u.stripeId !in rows {
        return NotFound;
      }
      var locked := rows[u.stripeId];
      if locked.lastEventAt.Some? && u.eventAt < locked.lastEventAt.value {
        return Stale;
      }
      var next := OverwriteStatus(locked, u);
      if !Checks(next) {
        return Rejected;
      }
      rows := rows[u.stripeId := next];
      return Written(next);
    }

    /** The same discipline on the invoice stream's own cursor. */
    method RecordInvoicePayment(u: InvoiceUpdate) returns (r: StoreResult)
      requires LegalTable(rows)
      modifies this
      ensures r == RecordInvoice(Get(old(rows), u.stripeId), u)
      ensures rows == TableAfter(old(rows), u.stripeId, r)
      ensures LegalTable(rows)
    {
      if u.stripeId !in rows {
        return NotFound;
      }
      var locked := rows[u.stripeId];
      if locked.lastInvoiceEventAt.Some? && u.eventAt < locked.lastInvoiceEventAt.value {
        return Stale;
      }
      var next := OverwriteInvoice(locked, u);
      if !Checks(next) {
        return Rejected;
      }
      rows := rows[u.stripeId := next];
      return Written(next);
    }

    method CreateSubscription(s: Subscription, ownerExists: bool) returns (r: StoreResult)
      requires LegalTable(rows)
      modifies this
      ensures r == Create(Get(old(rows), s.stripeId), s, ownerExists)
      ensures rows == TableAfter(old(rows), s.stripeId, r)
      ensures LegalTable(rows)
    {
      if !Checks(s) {
        return Rejected;
      }
      if s.stripeId in rows || !ownerExists {
        return Conflict;
      }
      rows := rows[s.stripeId := s];
      return Written(s);
    }
  }

  // ------------------------------------------------------------ properties

  /**
   * When the CHECKs refuse an invoice event. The dunning columns never are the reason:
   * only the period the event carries can be, against the ends it leaves alone.
   */
  lemma InvoiceRejectedIff(row: Subscription, u: InvoiceUpdate)
    requires Checks(row)
    ensures RecordInvoice(Some(row), u).Rejected? <==>
            && !Older(u.eventAt, row.lastInvoiceEventAt)
            && u.succeeded
            && Coalesce(u.periodEnd, row.periodEnd) <= Coalesce(u.periodStart, row.periodStart)
  {
    var next := OverwriteInvoice(row, u);
    assert IdentityChecks(next) && PriceCheck(next) && QuantityCheck(next);
    assert TrialCheck(next) && CanceledCheck(next) && DunningCheck(next);
  }

  /** When the CHECKs refuse a subscription event. */
  lemma StatusRejectedIff(row: Subscription, u: StatusUpdate)
    requires Checks(row)
    ensures UpdateStatus(Some(row), u).Rejected? <==>
            && !Older(u.eventAt, row.lastEventAt)
            && (|| !u.status.Valid()
                || (u.status == Canceled && u.canceledAt.None? && row.canceledAt.None?)
                || Coalesce(u.periodEnd, row.periodEnd) <= Coalesce(u.periodStart, row.periodStart)
                || (u.trialEnd.Some? && row.trialStart.Some? && u.trialEnd.value <= row.trialStart.value)
                || (u.quantity.Some? && u.quantity.value <= 0)
                || (u.priceId.Some? && !HasForm("price_", u.priceId.value)))
  {
    var next := OverwriteStatus(row, u);
    assert IdentityChecks(next) && DunningCheck(next);
  }

  /** The id patterns of the migrations: the prefix, then one or more letters and digits. */
  ghost predicate Spelled(prefix: string, s: string) {
    exists rest :: s == prefix + rest && rest != "" && OnlyLettersAndDigits(rest)
  }

  predicate OnlyLettersAndDigits(s: string) {
    forall i :: 0 <= i < |s| ==> 'a' <= s[i] <= 'z' || 'A' <= s[i] <= 'Z' || '0' <= s[i] <= '9'
  }

  lemma FormIsSpelled(prefix: string, s: string)
    ensures HasForm(prefix, s) <==> Spelled(prefix, s)
  {
    if HasForm(prefix, s) {
      var rest := s[|prefix|..];
      assert s == prefix + rest && OnlyLettersAndDigits(rest);
    }
    if Spelled(prefix, s) {
      var rest :| s == prefix + rest && rest != "" && OnlyLettersAndDigits(rest);
      assert forall i :: |prefix| <= i < |s| ==> s[i] == rest[i - |prefix|];
    }
  }

  predicate ThreeSmallLetters(s: string) {
    |s| == 3 && 'a' <= s[0] <= 'z' && 'a' <= s[1] <= 'z' && 'a' <= s[2] <= 'z'
  }

  /** When the CHECKs refuse a new row. */
  lemma InsertRejectedIff(s: Subscription, ownerExists: bool)
    ensures Create(None, s, ownerExists).Rejected? <==>
            || s.userId == "" || !Spelled("sub_", s.stripeId) || !Spelled("cus_", s.customerId) || !Spelled("price_", s.priceId)
            || s.quantity <= 0 || s.periodEnd <= s.periodStart || s.status.Unrecognised?
            || (s.currency.Some? && !ThreeSmallLetters(s.currency.value))
            || (s.unitAmount.Some? && s.unitAmount.value < 0)
            || (s.trialStart.Some? && s.trialEnd.Some? && s.trialEnd.value <= s.trialStart.value)
            || (s.status == Canceled && s.canceledAt.None?)
            || s.paymentFailureCount < 0 || (s.paymentFailedAt.Some? != (s.paymentFailureCount > 0))
  {
    FormIsSpelled("sub_", s.stripeId);
    FormIsSpelled("cus_", s.customerId);
    FormIsSpelled("price_", s.priceId);
  }
}
