/**
 * What every column of a subscription row means: the value of the last commit to the row
 * that names it, or the value the run began with if none does. What a commit names is read
 * off the Stripe object it was made from.
 */
module Columns {
  import opened Domain
  import opened Subscriptions
  import opened Events
  import opened Protocol
  import Text

  /** Every column but the row's own id and the failure counter. */
  datatype Column =
    | Owner | Customer | Product | Currency | Amount | TrialStart                       // inserts only
    | Status | CancelAtPeriodEnd | EventId | EventAt                                    // every subscription event
    | CancelAt | CanceledAt | EndedAt | TrialEnd | Price | Quantity | PaymentMethod     // where it names a value
    | PeriodStart | PeriodEnd | LatestInvoice                                           // both streams
    | FailedAt | LastError | NextAttempt | InvoiceEventId | InvoiceEventAt              // every invoice event

  datatype Value = Instant(at: Option<Time>) | Words(text: Option<string>) | Number(n: Option<int>)
                 | Flag(on: bool) | State(status: SubscriptionStatus)

  function ValueOf(s: Subscription, col: Column): Value {
    match col
    case Owner => Words(Some(s.userId))
    case Customer => Words(Some(s.customerId))
    case Product => Words(s.productId)
    case Currency => Words(s.currency)
    case Amount => Number(s.unitAmount)
    case TrialStart => Instant(s.trialStart)
    case Status => State(s.status)
    case CancelAtPeriodEnd => Flag(s.cancelAtPeriodEnd)
    case EventId => Words(s.lastEventId)
    case EventAt => Instant(s.lastEventAt)
    case CancelAt => Instant(s.cancelAt)
    case CanceledAt => Instant(s.canceledAt)
    case EndedAt => Instant(s.endedAt)
    case TrialEnd => Instant(s.trialEnd)
    case Price => Words(Some(s.priceId))
    case Quantity => Number(Some(s.quantity))
    case PaymentMethod => Words(s.defaultPaymentMethodId)
    case PeriodStart => Instant(Some(s.periodStart))
    case PeriodEnd => Instant(Some(s.periodEnd))
    case LatestInvoice => Words(s.latestInvoiceId)
    case FailedAt => Instant(s.paymentFailedAt)
    case LastError => Words(s.lastPaymentError)
    case NextAttempt => Instant(s.nextPaymentAttemptAt)
    case InvoiceEventId => Words(s.lastInvoiceEventId)
    case InvoiceEventAt => Instant(s.lastInvoiceEventAt)
  }

  // --------------------------------------------------- what one commit names

  /** The status a write must leave: a deletion's update cancels, all else copies the object. */
  function StatusSaid(ev: Event, path: Path): SubscriptionStatus
    requires !path.ByPayment?
  {
    if path.ByUpdate? && ev.kind.SubscriptionDeleted? then Canceled else path.sub.status
  }

  /** A positive Unix time is a value; nought or less stands for an absent member. */
  function TimeGiven(seconds: int): Value {
    Instant(if seconds > 0 then Some(seconds) else None)
  }

  function TextGiven(text: string): Value {
    Words(if text != "" then Some(text) else None)
  }

  /** An insert writes the column in any case, an update only where a value is given. */
  function Given(v: Value, present: bool, insert: bool): Option<Value> {
    if insert || present then Some(v) else None
  }

  /** The columns read off the object itself; an insert leaves the links and dunning null. */
  function NamedByObject(ev: Event, path: Path, col: Column): Option<Value>
    requires !path.ByPayment?
  {
    var sub, insert := path.sub, path.ByInsert?;
    match col
    case Owner => if insert then Some(Words(Some(path.owner))) else None
    case Customer => if insert then Some(Words(Some(sub.customer))) else None
    case TrialStart => if insert then Some(TimeGiven(sub.trialStart)) else None
    case Status => Some(State(StatusSaid(ev, path)))
    case CancelAtPeriodEnd => Some(Flag(sub.cancelAtPeriodEnd))
    case EventId => Some(Words(Some(ev.id)))
    case EventAt => Some(Instant(Some(ev.created)))
    case CancelAt => Given(TimeGiven(sub.cancelAt), sub.cancelAt > 0, insert)
    case CanceledAt =>
      if StatusSaid(ev, path) == Canceled && sub.canceledAt <= 0 then Some(Instant(Some(ev.created)))
      else Given(TimeGiven(sub.canceledAt), sub.canceledAt > 0, insert)
    case EndedAt => Given(TimeGiven(sub.endedAt), sub.endedAt > 0, insert)
    case TrialEnd => Given(TimeGiven(sub.trialEnd), sub.trialEnd > 0, insert)
    case PaymentMethod =>
      if insert then Some(Words(None)) else Given(TextGiven(sub.defaultPaymentMethod), sub.defaultPaymentMethod != "", false)
    case LatestInvoice =>
      if insert then Some(Words(None)) else Given(TextGiven(sub.latestInvoice), sub.latestInvoice != "", false)
    case FailedAt => if insert then Some(Instant(None)) else None
    case LastError => if insert then Some(Words(None)) else None
    case NextAttempt => if insert then Some(Instant(None)) else None
    case InvoiceEventId => if insert then Some(Words(None)) else None
    case InvoiceEventAt => if insert then Some(Instant(None)) else None
    case _ => if sub.items == [] then None else NamedByItem(sub.items[0], insert, col)
  }

  /** The columns read off the first item, which an insert needs with its price. */
  function NamedByItem(item: StripeItem, insert: bool, col: Column): Option<Value> {
    match col
    case PeriodStart => Given(Instant(Some(item.periodStart)), item.periodStart > 0, insert)
    case PeriodEnd => Given(Instant(Some(item.periodEnd)), item.periodEnd > 0, insert)
    case Quantity =>
      var n := ToInt32(item.quantity);
      if insert then Some(Number(Some(if n <= 0 then 1 else n)))
      else if item.quantity > 0 then Some(Number(Some(n))) else None
    case _ => if item.price.None? then None else NamedByPrice(item.price.value, insert, col)
  }

  function NamedByPrice(price: StripePrice, insert: bool, col: Column): Option<Value> {
    match col
    case Price => Given(Words(Some(price.id)), price.id != "", insert)
    case Product => if insert then Some(TextGiven(price.productId)) else None
    case Currency => if insert then Some(TextGiven(price.currency)) else None
    case Amount => if insert then Some(Number(if price.unitAmount > 0 then Some(price.unitAmount) else None)) else None
    case _ => None
  }

  /** A success clears the dunning columns and may move the period; a failure sets them. */
  function NamedByInvoice(ev: Event, col: Column): Option<Value>
    requires ev.data.InvoiceData?
  {
    var invoice, paid := ev.data.invoice, ev.kind.InvoicePaid?;
    match col
    case PeriodStart => if paid then Given(TimeGiven(invoice.periodStart), invoice.periodStart > 0, false) else None
    case PeriodEnd => if paid then Given(TimeGiven(invoice.periodEnd), invoice.periodEnd > 0, false) else None
    case LatestInvoice => Given(TextGiven(invoice.id), invoice.id != "", false)
    case FailedAt => Some(Instant(if paid then None else Some(ev.created)))
    case LastError =>
      Some(Words(if paid then None
                 else Some(Text.Truncated(if invoice.declineReason == "" then "payment failed" else invoice.declineReason))))
    case NextAttempt => Some(if paid then Instant(None) else TimeGiven(invoice.nextPaymentAttempt))
    case InvoiceEventId => Some(Words(Some(ev.id)))
    case InvoiceEventAt => Some(Instant(Some(ev.created)))
    case _ => None
  }

  function Named(ev: Event, path: Path, col: Column): Option<Value> {
    if !path.ByPayment? then NamedByObject(ev, path, col)
    else if ev.data.InvoiceData? then NamedByInvoice(ev, col)
    else None
  }

  // ------------------------------------------------------- what one write does

  /** Each column holds what the write names, or what it held before. */
  ghost predicate WritesNamed(before: Option<Subscription>, ev: Event, path: Path, row: Subscription) {
    forall col :: WritesColumn(before, ev, path, row, col)
  }

  ghost predicate WritesColumn(before: Option<Subscription>, ev: Event, path: Path, row: Subscription, col: Column) {
    var named := Named(ev, path, col);
    if named.Some? then ValueOf(row, col) == named.value
    else before.Some? && ValueOf(row, col) == ValueOf(before.value, col)
  }

  lemma UpdateWritesNamed(row: Subscription, ev: Event, path: Path, u: StatusUpdate)
    requires ev.id != "" && (path.ByUpdate? || path.AfterRace?)
    requires StatusUpdateFrom(path.sub, ev, path.ByUpdate? && ev.kind.SubscriptionDeleted?) == Ok(u)
    ensures WritesNamed(Some(row), ev, path, OverwriteStatus(row, u))
  {
    forall col ensures WritesColumn(Some(row), ev, path, OverwriteStatus(row, u), col) {
      if FromItem(col) {
        UpdateWritesItem(row, ev, path, u, col);
      } else {
        UpdateWritesObject(row, ev, path, u, col);
      }
    }
  }

  predicate FromItem(col: Column) {
    col.PeriodStart? || col.PeriodEnd? || col.Quantity? || col.Price? || col.Product? || col.Currency? || col.Amount?
  }

  lemma UpdateWritesItem(row: Subscription, ev: Event, path: Path, u: StatusUpdate, col: Column)
    requires (path.ByUpdate? || path.AfterRace?) && FromItem(col)
    requires StatusUpdateFrom(path.sub, ev, path.ByUpdate? && ev.kind.SubscriptionDeleted?) == Ok(u)
    ensures WritesColumn(Some(row), ev, path, OverwriteStatus(row, u), col)
  {}

  lemma UpdateWritesObject(row: Subscription, ev: Event, path: Path, u: StatusUpdate, col: Column)
    requires ev.id != "" && (path.ByUpdate? || path.AfterRace?) && !FromItem(col)
    requires StatusUpdateFrom(path.sub, ev, path.ByUpdate? && ev.kind.SubscriptionDeleted?) == Ok(u)
    ensures WritesColumn(Some(row), ev, path, OverwriteStatus(row, u), col)
  {}

  lemma InsertWritesNamed(owner: string, ev: Event, sub: StripeSub)
    requires SubscriptionFrom(owner, sub, ev).Ok?
    ensures WritesNamed(None, ev, ByInsert(sub, owner), SubscriptionFrom(owner, sub, ev).value)
  {
    forall col ensures WritesColumn(None, ev, ByInsert(sub, owner), SubscriptionFrom(owner, sub, ev).value, col) {}
  }

  lemma PaymentWritesNamed(row: Subscription, ev: Event, u: InvoiceUpdate)
    requires ev.id != "" && ev.data.InvoiceData? && u == InvoiceUpdateFrom(ev.data.invoice, ev, ev.kind.InvoicePaid?)
    ensures WritesNamed(Some(row), ev, ByPayment, OverwriteInvoice(row, u))
  {
    forall col ensures WritesColumn(Some(row), ev, ByPayment, OverwriteInvoice(row, u), col) {}
  }

  // ------------------------------------------------------- what a history leaves

  /** The value of the last commit to the row that names the column. */
  function LastNamed(commits: seq<Commit>, t: string, col: Column): Option<Value> {
    if commits == [] then None
    else
      var cm := commits[|commits| - 1];
      if cm.subscription == t && Named(cm.event, cm.path, col).Some? then Named(cm.event, cm.path, col)
      else LastNamed(commits[..|commits| - 1], t, col)
  }

  /** The column holds that value, or, if no commit names it, what the run began with. */
  ghost predicate HoldsNamed(w: World, t: string, col: Column)
    requires t in w.subs
  {
    var last := LastNamed(w.commits, t, col);
    if last.Some? then ValueOf(w.subs[t], col) == last.value
    else t in w.start && ValueOf(w.subs[t], col) == ValueOf(w.start[t], col)
  }

  lemma LastNamedGrows(commits: seq<Commit>, cm: Commit, t: string, col: Column)
    ensures LastNamed(commits + [cm], t, col) ==
            if cm.subscription == t && Named(cm.event, cm.path, col).Some? then Named(cm.event, cm.path, col)
            else LastNamed(commits, t, col)
  {
    assert (commits + [cm])[..|commits|] == commits;
  }

  /** A commit to the row, or to another, leaves the column as the history says. */
  lemma HoldsAfterWrite(w: World, w': World, ev: Event, path: Path, t: string, col: Column)
    requires w'.commits == w.commits + [CommitOf(ev, path)] && w'.start == w.start && t in w'.subs
    requires t in w.subs ==> HoldsNamed(w, t, col)
    requires if t == Target(ev) then WritesColumn(Get(w.subs, t), ev, path, w'.subs[t], col)
             else t in w.subs && w'.subs[t] == w.subs[t]
    ensures HoldsNamed(w', t, col)
  {
    LastNamedGrows(w.commits, CommitOf(ev, path), t, col);
  }
}
