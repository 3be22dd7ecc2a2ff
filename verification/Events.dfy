/**
 * Stripe events as decoded records, the mappers that turn them into table updates, and
 * the dispatch that chooses between them.
 */
module Events {
  import opened Domain
  import opened Subscriptions
  import Json

  datatype StripePrice = StripePrice(id: string, currency: string, unitAmount: int, productId: string)

  datatype StripeItem = StripeItem(
    price: Option<StripePrice>, quantity: int, periodStart: int, periodEnd: int)

  /** A decoded subscription object; zero values stand for absent members. */
  datatype StripeSub = StripeSub(
    id: string,
    customer: string,
    status: SubscriptionStatus,
    items: seq<StripeItem>,
    cancelAtPeriodEnd: bool,
    cancelAt: int,
    canceledAt: int,
    endedAt: int,
    trialStart: int,
    trialEnd: int,
    latestInvoice: string,
    defaultPaymentMethod: string)

  datatype StripeInvoice = StripeInvoice(
    id: string,
    parentSubscription: string,
    lineSubscriptions: seq<string>,
    nextPaymentAttempt: int,
    periodStart: int,
    periodEnd: int,
    declineReason: string)

  datatype StripeSession = StripeSession(mode: string, subscription: string)

  datatype EventType =
    | CheckoutCompleted
    | SubscriptionDeleted
    | SubscriptionChanged   // created, updated, paused, resumed
    | InvoicePaid
    | InvoiceFailed
    | Unsubscribed          // outside the service's subscription list

  datatype EventData =
    | SubscriptionData(sub: StripeSub)
    | InvoiceData(invoice: StripeInvoice)
    | SessionData(session: StripeSession)
    | Undecodable

  datatype Event = Event(id: string, kind: EventType, created: int, data: EventData)

  datatype Mapped<T> = Ok(value: T) | Err

  // --------------------------------------------------------------- mapping

  function UnixPtr(sec: int): Option<Time> {
    if sec <= 0 then None else Some(sec)
  }

  /** Go's int32(x) conversion of a 64-bit integer. */
  function ToInt32(x: int): (r: int)
    ensures -0x8000_0000 <= r < 0x8000_0000
    ensures -0x8000_0000 <= x < 0x8000_0000 ==> r == x
    ensures (x - r) % 0x1_0000_0000 == 0
  {
    (x + 0x8000_0000) % 0x1_0000_0000 - 0x8000_0000
  }

  function EnsureCanceledAt(status: SubscriptionStatus, at: Option<Time>, fallback: Time): Option<Time> {
    if status == Canceled && at.None? then Some(fallback) else at
  }

  /** The row inserted the first time a subscription is seen. */
  function SubscriptionFrom(userId: string, sub: StripeSub, ev: Event): Mapped<Subscription> {
    if sub.items == [] || sub.items[0].price.None? then Err
    else
      var item := sub.items[0];
      var price := item.price.value;
      var quantity := ToInt32(item.quantity);
      Ok(Subscription(
           userId := userId,
           stripeId := sub.id,
           customerId := sub.customer,
           priceId := price.id,
           productId := NullIfEmpty(price.productId),
           status := sub.status,
           quantity := if quantity <= 0 then 1 else quantity,
           currency := NullIfEmpty(price.currency),
           unitAmount := if price.unitAmount > 0 then Some(price.unitAmount) else None,
           periodStart := item.periodStart,
           periodEnd := item.periodEnd,
           cancelAtPeriodEnd := sub.cancelAtPeriodEnd,
           cancelAt := UnixPtr(sub.cancelAt),
           canceledAt := EnsureCanceledAt(sub.status, UnixPtr(sub.canceledAt), ev.created),
           endedAt := UnixPtr(sub.endedAt),
           trialStart := UnixPtr(sub.trialStart),
           trialEnd := UnixPtr(sub.trialEnd),
           latestInvoiceId := None,
           defaultPaymentMethodId := None,
           lastEventId := Some(ev.id),
           lastEventAt := Some(ev.created),
           paymentFailedAt := None,
           paymentFailureCount := 0,
           lastPaymentError := None,
           nextPaymentAttemptAt := None,
           lastInvoiceEventId := None,
           lastInvoiceEventAt := None))
  }

  /** The update applied to a row that exists; a deletion is terminal whatever the object says. */
  function StatusUpdateFrom(sub: StripeSub, ev: Event, deleted: bool): Mapped<StatusUpdate> {
    var status := if deleted then Canceled else sub.status;
    if sub.items == [] || !status.Valid() then Err
    else
      var item := sub.items[0];
      Ok(StatusUpdate(
           stripeId := sub.id,
           status := status,
           eventId := ev.id,
           eventAt := ev.created,
           periodStart := UnixPtr(item.periodStart),
           periodEnd := UnixPtr(item.periodEnd),
           cancelAtPeriodEnd := Some(sub.cancelAtPeriodEnd),
           cancelAt := UnixPtr(sub.cancelAt),
           canceledAt := EnsureCanceledAt(status, UnixPtr(sub.canceledAt), ev.created),
           endedAt := UnixPtr(sub.endedAt),
           trialEnd := UnixPtr(sub.trialEnd),
           priceId := if item.price.Some? then NullIfEmpty(item.price.value.id) else None,
           quantity := if item.quantity > 0 then Some(ToInt32(item.quantity)) else None,
           latestInvoiceId := NullIfEmpty(sub.latestInvoice),
           defaultPaymentMethodId := NullIfEmpty(sub.defaultPaymentMethod)))
  }

  /** The first line that names a subscription. */
  function FirstNamed(ids: seq<string>): string {
    if ids == [] then "" else if ids[0] != "" then ids[0] else FirstNamed(ids[1..])
  }

  function SubscriptionIdOf(invoice: StripeInvoice): string {
    if invoice.parentSubscription != "" then invoice.parentSubscription
    else FirstNamed(invoice.lineSubscriptions)
  }

  function InvoiceUpdateFrom(invoice: StripeInvoice, ev: Event, succeeded: bool): InvoiceUpdate {
    InvoiceUpdate(
      stripeId := SubscriptionIdOf(invoice),
      succeeded := succeeded,
      eventId := ev.id,
      eventAt := ev.created,
      invoiceId := NullIfEmpty(invoice.id),
      failureReason := if succeeded then None else NullIfEmpty(invoice.declineReason),
      nextAttemptAt := UnixPtr(invoice.nextPaymentAttempt),
      periodStart := if succeeded then UnixPtr(invoice.periodStart) else None,
      periodEnd := if succeeded then UnixPtr(invoice.periodEnd) else None)
  }

  // -------------------------------------------------------------- dispatch

  /** What dispatch decides before it touches any table. */
  datatype Plan =
    | Skip
    | Fail
    | ChangeSubscription(sub: StripeSub, update: StatusUpdate)
    | RecordPayment(payment: InvoiceUpdate)
    | Provision(subscriptionId: string)   // link the customer, fetch the subscription, upsert it

  function ChangePlan(ev: Event, deleted: bool): Plan {
    if !ev.data.SubscriptionData? || ev.data.sub.id == "" then Fail
    else
      var u := StatusUpdateFrom(ev.data.sub, ev, deleted);
      if u.Err? then Fail else ChangeSubscription(ev.data.sub, u.value)
  }

  function PaymentPlan(ev: Event, succeeded: bool): Plan {
    if !ev.data.InvoiceData? then Fail
    else if SubscriptionIdOf(ev.data.invoice) == "" then Skip
    else RecordPayment(InvoiceUpdateFrom(ev.data.invoice, ev, succeeded))
  }

  function CheckoutPlan(ev: Event): Plan {
    if !ev.data.SessionData? then Fail
    else if ev.data.session.mode != "subscription" || ev.data.session.subscription == "" then Skip
    else Provision(ev.data.session.subscription)
  }

  function Dispatch(ev: Event): Plan {
    match ev.kind
    case Unsubscribed => Skip
    case CheckoutCompleted => CheckoutPlan(ev)
    case SubscriptionDeleted => ChangePlan(ev, true)
    case SubscriptionChanged => ChangePlan(ev, false)
    case InvoicePaid => PaymentPlan(ev, true)
    case InvoiceFailed => PaymentPlan(ev, false)
  }

  /** The subscription an event is about, and the stream it belongs to. */
  datatype Stream = SubscriptionStream | InvoiceStream

  function StreamOf(ev: Event): Stream {
    if ev.kind.InvoicePaid? || ev.kind.InvoiceFailed? then InvoiceStream else SubscriptionStream
  }

  function Target(ev: Event): string {
    match Dispatch(ev)
    case ChangeSubscription(sub, _) => sub.id
    case RecordPayment(payment) => payment.stripeId
    case Provision(id) => id
    case _ => ""
  }

  // --------------------------------------------- what dispatch reads off an event

  predicate FirstNonEmpty(ids: seq<string>, i: int) {
    0 <= i < |ids| && ids[i] != "" && forall j :: 0 <= j < i ==> ids[j] == ""
  }

  lemma {:induction false} FirstNamedIs(ids: seq<string>, i: nat)
    requires FirstNonEmpty(ids, i)
    ensures FirstNamed(ids) == ids[i]
    decreases |ids|
  {
    if i > 0 {
      FirstNamedIs(ids[1..], i - 1);
    }
  }

  lemma {:induction false} NoneNamed(ids: seq<string>)
    ensures FirstNamed(ids) == "" <==> forall i :: 0 <= i < |ids| ==> ids[i] == ""
    decreases |ids|
  {
    if ids != [] && ids[0] == "" {
      NoneNamed(ids[1..]);
      assert forall i :: 0 < i < |ids| ==> ids[i] == ids[1..][i - 1];
      assert forall i :: 0 <= i < |ids[1..]| ==> ids[1..][i] == ids[i + 1];
    }
  }

  /**
   * An invoice event concerns the subscription its parent names, or else the first line that
   * names one; it is skipped if and only if none does, and recorded as the verdict its type
   * gives.
   */
  lemma InvoiceDispatch(ev: Event)
    requires (ev.kind.InvoicePaid? || ev.kind.InvoiceFailed?) && ev.data.InvoiceData?
    ensures StreamOf(ev) == InvoiceStream
    ensures var invoice := ev.data.invoice;
            && (Dispatch(ev).Skip? <==>
                  invoice.parentSubscription == "" &&
                  forall i :: 0 <= i < |invoice.lineSubscriptions| ==> invoice.lineSubscriptions[i] == "")
            && (!Dispatch(ev).Skip? ==>
                  Dispatch(ev).RecordPayment? && Dispatch(ev).payment.stripeId == Target(ev) != ""
                  && Dispatch(ev).payment.succeeded == ev.kind.InvoicePaid?)
            && (invoice.parentSubscription != "" ==> Target(ev) == invoice.parentSubscription)
            && (forall i :: invoice.parentSubscription == "" && FirstNonEmpty(invoice.lineSubscriptions, i) ==>
                  Target(ev) == invoice.lineSubscriptions[i])
  {
    var lines := ev.data.invoice.lineSubscriptions;
    NoneNamed(lines);
    forall i | FirstNonEmpty(lines, i)
      ensures FirstNamed(lines) == lines[i]
    {
      FirstNamedIs(lines, i);
    }
  }

  /** A checkout provisions its subscription if and only if it is a subscription checkout that names one. */
  lemma CheckoutDispatch(ev: Event)
    requires ev.kind.CheckoutCompleted? && ev.data.SessionData?
    ensures StreamOf(ev) == SubscriptionStream
    ensures Dispatch(ev).Provision? <==> ev.data.session.mode == "subscription" && ev.data.session.subscription != ""
    ensures Dispatch(ev).Provision? ==> Target(ev) == ev.data.session.subscription
    ensures !Dispatch(ev).Provision? ==> Dispatch(ev).Skip?
  {}

  /**
   * A lifecycle event changes its own object's subscription if and only if it has an id and an
   * item and asks for a status there is; a deletion always asks for canceled. Otherwise it fails.
   */
  lemma LifecycleDispatch(ev: Event)
    requires (ev.kind.SubscriptionDeleted? || ev.kind.SubscriptionChanged?) && ev.data.SubscriptionData?
    ensures StreamOf(ev) == SubscriptionStream
    ensures Dispatch(ev).ChangeSubscription? <==>
              && ev.data.sub.id != "" && ev.data.sub.items != []
              && (ev.kind.SubscriptionDeleted? || !ev.data.sub.status.Unrecognised?)
    ensures Dispatch(ev).ChangeSubscription? ==>
              Target(ev) == ev.data.sub.id == Dispatch(ev).update.stripeId && Dispatch(ev).sub == ev.data.sub
    ensures !Dispatch(ev).ChangeSubscription? ==> Dispatch(ev).Fail?
  {}

  /** Types outside the list are skipped; an object that does not decode fails a type inside it. */
  lemma OtherDispatch(ev: Event)
    ensures ev.kind.Unsubscribed? ==> Dispatch(ev).Skip?
    ensures !ev.kind.Unsubscribed? && ev.data.Undecodable? ==> Dispatch(ev).Fail?
  {}

  // ------------------------------------------------------ replaying a skeleton

  ghost predicate LacksMember(payload: Json.Json, key: string) {
    Json.Member(Json.DataObject(payload), key) == Json.Null
  }

  /**
   * A decoder that reads each field of the object from the member of the same name and
   * leaves it at its zero value when the member is missing, as encoding/json does.
   */
  ghost predicate MemberwiseDecoder(decode: Json.Json -> Event) {
    forall j ::
      && (decode(j).data.SubscriptionData? && LacksMember(j, "items") ==> decode(j).data.sub.items == [])
      && (decode(j).data.SessionData? && LacksMember(j, "mode") ==> decode(j).data.session.mode == "")
      && (decode(j).data.InvoiceData? && LacksMember(j, "parent") ==> decode(j).data.invoice.parentSubscription == "")
      && (decode(j).data.InvoiceData? && LacksMember(j, "lines") ==> decode(j).data.invoice.lineSubscriptions == [])
  }

  lemma SkeletonLacks(payload: Json.Json, key: string)
    requires key !in Json.OBJECT_KEYS
    ensures LacksMember(Json.Skeleton(payload), key)
  {
    Json.SkeletonMembers(payload);
    Json.SkeletonObjectMembers(payload);
  }

  predicate Hollow(data: EventData) {
    match data
    case SubscriptionData(sub) => sub.items == []
    case SessionData(session) => session.mode == ""
    case InvoiceData(invoice) => invoice.parentSubscription == "" && invoice.lineSubscriptions == []
    case Undecodable => true
  }

  lemma HollowDispatch(ev: Event)
    requires Hollow(ev.data)
    ensures Dispatch(ev).Skip? || Dispatch(ev).Fail?
  {
    assert |""| != |"subscription"|;
  }

  /** Replaying a purged payload reaches no table: every handled type fails or is skipped. */
  lemma SkeletonReplayIsInert(decode: Json.Json -> Event, payload: Json.Json)
    requires MemberwiseDecoder(decode)
    ensures Dispatch(decode(Json.Skeleton(payload))).Skip? || Dispatch(decode(Json.Skeleton(payload))).Fail?
  {
    SkeletonLacks(payload, "items");
    SkeletonLacks(payload, "mode");
    SkeletonLacks(payload, "parent");
    SkeletonLacks(payload, "lines");
    HollowDispatch(decode(Json.Skeleton(payload)));
  }
}
