/**
 * Convergence of the subscription stream: whatever the order and however often events are
 * handled, the row ends up showing the newest one.
 */
module Convergence {
  import opened Domain
  import opened Subscriptions
  import opened Events

  /** A customer.subscription.* event for one subscription that no CHECK objects to. */
  predicate Applicable(ev: Event, sid: string) {
    && ev.id != "" && Dispatch(ev).ChangeSubscription? && Dispatch(ev).sub.id == sid
    && Acceptable(Dispatch(ev).update)
  }

  predicate Acceptable(u: StatusUpdate) {
    && u.status.Valid() && (u.status == Canceled ==> u.canceledAt.Some?)
    && (u.quantity.Some? ==> u.quantity.value > 0)
    && (u.priceId.Some? ==> HasForm("price_", u.priceId.value))
    && PeriodWhole(u.periodStart, u.periodEnd)
  }

  /** Both ends, in order, or neither. */
  predicate PeriodWhole(start: Option<Time>, end: Option<Time>) {
    if start.Some? then end.Some? && start.value < end.value else end.None?
  }

  predicate TrialAfter(start: Option<Time>, end: Option<Time>) {
    start.Some? && end.Some? ==> start.value < end.value
  }

  function UpdateOf(ev: Event): StatusUpdate
    requires Dispatch(ev).ChangeSubscription?
  {
    Dispatch(ev).update
  }

  /** The event can also insert the row, and a deletion reports the status it implies. */
  predicate Insertable(ev: Event, sid: string, owner: string) {
    && Applicable(ev, sid)
    && (ev.kind.SubscriptionDeleted? ==> Dispatch(ev).sub.status == Canceled)
    && SubscriptionFrom(owner, Dispatch(ev).sub, ev).Ok?
    && Checks(SubscriptionFrom(owner, Dispatch(ev).sub, ev).value)
  }

  /** handleSubscriptionChanged, run alone: update the row, or insert it when it is missing. */
  function Handle(row: Option<Subscription>, ev: Event, owner: string): Option<Subscription> {
    match Dispatch(ev)
    case ChangeSubscription(sub, u) =>
      var r := UpdateStatus(row, u);
      if !r.NotFound? then RowAfter(row, r)
      else
        var record := SubscriptionFrom(owner, sub, ev);
        if record.Err? then row else RowAfter(row, Create(row, record.value, true))
    case _ => row
  }

  function Fold(row: Option<Subscription>, es: seq<Event>, owner: string): Option<Subscription> {
    if es == [] then row
    else Handle(Fold(row, es[..|es| - 1], owner), es[|es| - 1], owner)
  }

  // ------------------------------------------------------- what a row shows

  predicate ShowsNullable<T(==)>(given: Option<T>, column: Option<T>) { given.Some? ==> column == given }
  predicate ShowsColumn<T(==)>(given: Option<T>, column: T) { given.Some? ==> column == given.value }

  /** Status, cursor and every column the event sets. */
  predicate Shows(row: Subscription, ev: Event)
    requires Dispatch(ev).ChangeSubscription?
  {
    var u := UpdateOf(ev);
    && row.status == u.status && row.lastEventId == Some(ev.id) && row.lastEventAt == Some(ev.created)
    && ShowsColumn(u.periodStart, row.periodStart) && ShowsColumn(u.periodEnd, row.periodEnd)
    && ShowsColumn(u.cancelAtPeriodEnd, row.cancelAtPeriodEnd)
    && ShowsNullable(u.cancelAt, row.cancelAt) && ShowsNullable(u.canceledAt, row.canceledAt)
    && ShowsNullable(u.endedAt, row.endedAt) && ShowsNullable(u.trialEnd, row.trialEnd)
    && ShowsColumn(u.priceId, row.priceId) && ShowsColumn(u.quantity, row.quantity)
  }

  /** The two columns an insert leaves null even when the event names them. */
  predicate ShowsLinks(row: Subscription, ev: Event)
    requires Dispatch(ev).ChangeSubscription?
  {
    && ShowsNullable(UpdateOf(ev).latestInvoiceId, row.latestInvoiceId)
    && ShowsNullable(UpdateOf(ev).defaultPaymentMethodId, row.defaultPaymentMethodId)
  }

  lemma UpdateShows(row: Subscription, ev: Event, sid: string, owner: string)
    requires Checks(row) && Applicable(ev, sid) && !Older(ev.created, row.lastEventAt)
    requires TrialAfter(row.trialStart, UpdateOf(ev).trialEnd)
    ensures var next := Handle(Some(row), ev, owner);
            && next.Some? && Checks(next.value) && next.value.trialStart == row.trialStart
            && Shows(next.value, ev) && ShowsLinks(next.value, ev)
  {
    StatusRejectedIff(row, UpdateOf(ev));
    assert UpdateOf(ev).eventAt == ev.created && UpdateOf(ev).eventId == ev.id;
  }

  lemma InsertShows(ev: Event, sid: string, owner: string)
    requires Insertable(ev, sid, owner)
    ensures var next := Handle(None, ev, owner);
            && next.Some? && Checks(next.value) && Shows(next.value, ev)
            && next.value.trialStart == UnixPtr(Dispatch(ev).sub.trialStart)
            && next.value.latestInvoiceId.None? && next.value.defaultPaymentMethodId.None?
  {}

  lemma StaleKeeps(row: Subscription, ev: Event, owner: string)
    requires Dispatch(ev).ChangeSubscription? && Older(ev.created, row.lastEventAt)
    ensures Handle(Some(row), ev, owner) == Some(row)
  {
    assert UpdateOf(ev).eventAt == ev.created;
  }

  // ------------------------------------------------------------ the hypotheses

  /** Events that may be folded onto this row: acceptable one by one, trials consistent. */
  ghost predicate Deliverable(row: Option<Subscription>, es: seq<Event>, sid: string, owner: string) {
    && (forall e :: e in es ==> Applicable(e, sid))
    && (row.Some? ==> Checks(row.value) && forall e :: e in es ==> TrialAfter(row.value.trialStart, UpdateOf(e).trialEnd))
    && (row.None? ==>
          && (forall e :: e in es ==> Insertable(e, sid, owner))
          && (forall a, b :: a in es && b in es ==>
                TrialAfter(UnixPtr(Dispatch(a).sub.trialStart), UpdateOf(b).trialEnd)))
  }

  predicate Newest(n: Event, es: seq<Event>) {
    n in es && forall e :: e in es ==> e.created <= n.created
  }

  predicate Superseded(row: Option<Subscription>, es: seq<Event>) {
    row.Some? && forall e :: e in es ==> Older(e.created, row.value.lastEventAt)
  }

  ghost predicate TrialRoot(row: Option<Subscription>, es: seq<Event>, out: Subscription) {
    if row.Some? then out.trialStart == row.value.trialStart
    else exists a :: a in es && Dispatch(a).ChangeSubscription? && out.trialStart == UnixPtr(Dispatch(a).sub.trialStart)
  }

  /** A newest event is shown; on a row that was there from the start, with its links. */
  predicate ShowsNewest(row: Option<Subscription>, es: seq<Event>, out: Subscription, n: Event) {
    && Newest(n, es) && Dispatch(n).ChangeSubscription? && Shows(out, n)
    && (row.Some? ==> !Older(n.created, row.value.lastEventAt) && ShowsLinks(out, n))
  }

  /** The state of the fold: it shows a newest event, unless the row was newer than them all. */
  ghost predicate FoldState(row: Option<Subscription>, es: seq<Event>, out: Option<Subscription>) {
    && out.Some? && Checks(out.value) && TrialRoot(row, es, out.value)
    && if Superseded(row, es) then out == row
       else exists n :: ShowsNewest(row, es, out.value, n)
  }

  lemma PrefixDeliverable(row: Option<Subscription>, es: seq<Event>, sid: string, owner: string)
    requires Deliverable(row, es, sid, owner) && es != []
    ensures Deliverable(row, es[..|es| - 1], sid, owner)
    ensures forall e :: e in es <==> e in es[..|es| - 1] || e == es[|es| - 1]
  {
    assert es == es[..|es| - 1] + [es[|es| - 1]];
  }

  /** The row's trial start came from somewhere every trial end is known to follow. */
  lemma TrialFollows(row: Option<Subscription>, init: seq<Event>, es: seq<Event>, e: Event, sid: string, owner: string, out: Subscription)
    requires Deliverable(row, es, sid, owner) && e in es && TrialRoot(row, init, out)
    requires forall x :: x in init ==> x in es
    ensures Applicable(e, sid) && TrialAfter(out.trialStart, UpdateOf(e).trialEnd)
    ensures TrialRoot(row, es, out)
  {
    if row.None? {
      var a :| a in init && Dispatch(a).ChangeSubscription? && out.trialStart == UnixPtr(Dispatch(a).sub.trialStart);
      assert a in es;
    }
  }

  lemma NewestCarries(row: Option<Subscription>, init: seq<Event>, es: seq<Event>, e: Event, out: Subscription)
    requires FoldState(row, init, Some(out)) && Older(e.created, out.lastEventAt)
    requires forall x :: x in es <==> x in init || x == e
    requires TrialRoot(row, es, out)
    ensures FoldState(row, es, Some(out))
  {
    if Superseded(row, init) {
      assert Superseded(row, es);
    } else {
      var n :| ShowsNewest(row, init, out, n);
      assert ShowsNewest(row, es, out, n);
    }
  }

  lemma NewestReplaced(row: Option<Subscription>, init: seq<Event>, es: seq<Event>, e: Event, out: Subscription, next: Subscription)
    requires FoldState(row, init, Some(out)) && !Older(e.created, out.lastEventAt)
    requires forall x :: x in es <==> x in init || x == e
    requires Dispatch(e).ChangeSubscription? && Shows(next, e) && ShowsLinks(next, e)
    requires Checks(next) && TrialRoot(row, es, next)
    ensures FoldState(row, es, Some(next))
  {
    assert ShowsNewest(row, es, next, e);
    assert !Superseded(row, es);
  }

  lemma ExtendFold(row: Option<Subscription>, es: seq<Event>, sid: string, owner: string, out: Subscription)
    requires Deliverable(row, es, sid, owner) && es != []
    requires FoldState(row, es[..|es| - 1], Some(out))
    ensures FoldState(row, es, Handle(Some(out), es[|es| - 1], owner))
  {
    var init, e := es[..|es| - 1], es[|es| - 1];
    PrefixDeliverable(row, es, sid, owner);
    TrialFollows(row, init, es, e, sid, owner, out);
    if Older(e.created, out.lastEventAt) {
      StaleKeeps(out, e, owner);
      NewestCarries(row, init, es, e, out);
    } else {
      UpdateShows(out, e, sid, owner);
      NewestReplaced(row, init, es, e, out, Handle(Some(out), e, owner).value);
    }
  }

  lemma {:induction false} FoldShowsNewest(row: Option<Subscription>, es: seq<Event>, sid: string, owner: string)
    requires Deliverable(row, es, sid, owner) && (es != [] || row.Some?)
    ensures FoldState(row, es, Fold(row, es, owner))
    decreases |es|
  {
    if es != [] {
      PrefixDeliverable(row, es, sid, owner);
      var init, e := es[..|es| - 1], es[|es| - 1];
      if init == [] && row.None? {
        InsertShows(e, sid, owner);
        assert e in es && ShowsNewest(row, es, Handle(None, e, owner).value, e);
      } else {
        FoldShowsNewest(row, init, sid, owner);
        ExtendFold(row, es, sid, owner, Fold(row, init, owner).value);
      }
    }
  }

  // ------------------------------------------------------------- convergence

  /** Stripe's one-second clock is assumed not to collide for distinct events. */
  ghost predicate DistinctTimes(es: seq<Event>) {
    forall a, b :: a in es && b in es && a.created == b.created ==> a == b
  }

  /**
   * Any two deliveries of the same set of events - any order, any repetition, from a row
   * that exists or not - end in rows that are either both the untouched original or both
   * show the same newest event: status, event id, cursor and every column it sets, except
   * that an insert leaves latest_invoice_id and default_payment_method_id null, so these two
   * are promised for a row that exists.
   */
  lemma DeliveriesConverge(row: Option<Subscription>, a: seq<Event>, b: seq<Event>, sid: string, owner: string)
    requires forall e :: e in a <==> e in b
    requires Deliverable(row, a, sid, owner) && DistinctTimes(a) && a != []
    ensures var ra, rb := Fold(row, a, owner), Fold(row, b, owner);
            && ra.Some? && rb.Some? && Checks(ra.value) && Checks(rb.value)
            && (|| (Superseded(row, a) && ra == rb == row)
                || exists n :: ShowsNewest(row, a, ra.value, n) && ShowsNewest(row, a, rb.value, n))
  {
    assert a[0] in a && a[0] in b;
    assert Deliverable(row, b, sid, owner);
    FoldShowsNewest(row, a, sid, owner);
    FoldShowsNewest(row, b, sid, owner);
    if !Superseded(row, a) {
      var ra, rb := Fold(row, a, owner), Fold(row, b, owner);
      var n :| ShowsNewest(row, a, ra.value, n);
      assert !Superseded(row, b);
      var m :| ShowsNewest(row, b, rb.value, m);
      assert n.created == m.created;
      assert n == m;
    }
  }

  /**
   * Why a deletion has to report canceled itself: handled alone, it always cancels a row it
   * finds, but inserting the row it copies the object's own status. So it does when it loses
   * the insert to a concurrent handling, which is not part of a fold.
   */
  lemma DeletionBeforeRow(ev: Event, row: Subscription, sid: string, owner: string)
    requires Applicable(ev, sid) && ev.kind.SubscriptionDeleted?
    requires Checks(row) && !Older(ev.created, row.lastEventAt) && TrialAfter(row.trialStart, UpdateOf(ev).trialEnd)
    requires Handle(None, ev, owner).Some?
    ensures Handle(Some(row), ev, owner).Some? && Handle(Some(row), ev, owner).value.status == Canceled
    ensures Handle(None, ev, owner).value.status == Canceled <==> Dispatch(ev).sub.status == Canceled
  {
    UpdateShows(row, ev, sid, owner);
  }

  // ------------------------------------------- the two columns that diverge

  /** Once a row shows an event with its links, only that event can be applied again. */
  lemma {:induction false} LinksStay(row: Subscription, es: seq<Event>, n: Event, sid: string, owner: string)
    requires Checks(row) && Applicable(n, sid) && Shows(row, n) && ShowsLinks(row, n)
    requires forall e :: e in es ==> Applicable(e, sid) && TrialAfter(row.trialStart, UpdateOf(e).trialEnd)
    requires forall e :: e in es ==> e == n || e.created < n.created
    ensures var out := Fold(Some(row), es, owner);
            out.Some? && Checks(out.value) && out.value.trialStart == row.trialStart
            && Shows(out.value, n) && ShowsLinks(out.value, n)
    decreases |es|
  {
    if es != [] {
      var init, e := es[..|es| - 1], es[|es| - 1];
      LinksStay(row, init, n, sid, owner);
      assert e in es;
      var mid := Fold(Some(row), init, owner).value;
      if e == n {
        UpdateShows(mid, e, sid, owner);
      } else {
        StaleKeeps(mid, e, owner);
      }
    }
  }

  lemma {:induction false} FoldSplit(row: Option<Subscription>, a: seq<Event>, b: seq<Event>, owner: string)
    ensures Fold(row, a + b, owner) == Fold(Fold(row, a, owner), b, owner)
    decreases |b|
  {
    if b == [] {
      assert a + b == a;
    } else {
      assert (a + b)[..|a + b| - 1] == a + b[..|b| - 1];
      FoldSplit(row, a, b[..|b| - 1], owner);
    }
  }

  lemma {:induction false} AllStale(row: Subscription, es: seq<Event>, owner: string)
    requires forall e :: e in es ==> Dispatch(e).ChangeSubscription? && Older(e.created, row.lastEventAt)
    ensures Fold(Some(row), es, owner) == Some(row)
    decreases |es|
  {
    if es != [] {
      AllStale(row, es[..|es| - 1], owner);
      assert es[|es| - 1] in es;
      StaleKeeps(row, es[|es| - 1], owner);
    }
  }

  /**
   * latest_invoice_id and default_payment_method_id are the exception: an insert does not
   * write them. From an absent row they show the newest event's values exactly when that event
   * is handled at some point after the first handling. A handling is a granted claim: the
   * redelivery of a settled event is none.
   */
  lemma LinksConvergeIff(es: seq<Event>, n: Event, sid: string, owner: string)
    requires Deliverable(None, es, sid, owner) && DistinctTimes(es) && Newest(n, es)
    requires UpdateOf(n).latestInvoiceId.Some? || UpdateOf(n).defaultPaymentMethodId.Some?
    ensures Fold(None, es, owner).Some?
    ensures ShowsLinks(Fold(None, es, owner).value, n) <==> exists i :: 1 <= i < |es| && es[i] == n
  {
    FoldShowsNewest(None, es, sid, owner);
    if i :| 1 <= i < |es| && es[i] == n {
      LinksWritten(es, i, n, sid, owner);
    } else {
      LinksMissing(es, n, sid, owner);
    }
  }

  lemma LinksMissing(es: seq<Event>, n: Event, sid: string, owner: string)
    requires Deliverable(None, es, sid, owner) && DistinctTimes(es) && Newest(n, es)
    requires forall i :: 1 <= i < |es| ==> es[i] != n
    ensures var out := Fold(None, es, owner);
            out.Some? && out.value.latestInvoiceId.None? && out.value.defaultPaymentMethodId.None?
  {
    assert n == es[0];
    assert es == [n] + es[1..];
    FoldSplit(None, [n], es[1..], owner);
    assert Fold(None, [n], owner) == Handle(None, n, owner) by { assert [n][..0] == []; }
    InsertShows(n, sid, owner);
    var row := Handle(None, n, owner).value;
    forall e | e in es[1..] ensures Dispatch(e).ChangeSubscription? && Older(e.created, row.lastEventAt) {
      assert e in es && e != n;
    }
    AllStale(row, es[1..], owner);
  }

  lemma LinksWritten(es: seq<Event>, i: nat, n: Event, sid: string, owner: string)
    requires Deliverable(None, es, sid, owner) && DistinctTimes(es) && Newest(n, es)
    requires 1 <= i < |es| && es[i] == n
    ensures Fold(None, es, owner).Some? && ShowsLinks(Fold(None, es, owner).value, n)
  {
    var head, rest := es[..i], es[i + 1..];
    assert es == (head + [n]) + rest;
    assert forall e :: e in head ==> e in es;
    assert forall e :: e in rest ==> e in es;
    var mid := LinksWrittenAt(es, head, n, sid, owner);
    FoldSplit(None, head + [n], rest, owner);
    forall e | e in rest ensures Applicable(e, sid) && TrialAfter(mid.trialStart, UpdateOf(e).trialEnd) {
      TrialFollows(None, head, es, e, sid, owner, mid);
    }
    LinksStay(mid, rest, n, sid, owner);
  }

  /** The newest event applied to a row that is already there writes its links. */
  lemma LinksWrittenAt(es: seq<Event>, head: seq<Event>, n: Event, sid: string, owner: string) returns (mid: Subscription)
    requires Deliverable(None, es, sid, owner) && Newest(n, es) && head != [] && forall e :: e in head ==> e in es
    ensures Fold(None, head + [n], owner) == Some(mid) && Checks(mid) && Applicable(n, sid)
    ensures TrialRoot(None, head, mid) && Shows(mid, n) && ShowsLinks(mid, n)
  {
    FoldShowsNewest(None, head, sid, owner);
    var row := Fold(None, head, owner).value;
    TrialFollows(None, head, es, n, sid, owner, row);
    var m :| ShowsNewest(None, head, row, m);
    UpdateShows(row, n, sid, owner);
    mid := Handle(Some(row), n, owner).value;
    assert (head + [n])[..|head|] == head;
  }
}
