/**
 * Ledger and projection agree: in every reachable state, whatever the interleaving, an
 * event the ledger calls succeeded has been applied or overtaken, and every row shows what
 * the last event committed to it says, which is a newest one.
 */
module Agreement {
  import opened Domain
  import opened Ledger
  import opened Subscriptions
  import opened Events
  import opened Protocol
  import opened Safety
  import opened Columns
  import Streams
  import Text

  function Cursor(row: Subscription, stream: Stream): Option<Time> {
    if stream == SubscriptionStream then row.lastEventAt else row.lastInvoiceEventAt
  }

  function CursorEvent(row: Subscription, stream: Stream): Option<string> {
    if stream == SubscriptionStream then row.lastEventId else row.lastInvoiceEventId
  }

  function Concerns(cm: Commit, t: string, stream: Stream): bool {
    cm.subscription == t && cm.stream == stream
  }

  /** The most recent commit to one row by one stream. */
  function LastCommit(commits: seq<Commit>, t: string, stream: Stream): Option<Commit> {
    if commits == [] then None
    else
      var cm := commits[|commits| - 1];
      if Concerns(cm, t, stream) then Some(cm) else LastCommit(commits[..|commits| - 1], t, stream)
  }

  // ------------------------------------------------------ what an event says

  /**
   * The write fits the event: a lifecycle event writes from its own object, a checkout from
   * one the Stripe API answered for its subscription, an invoice event as a payment.
   */
  predicate Fits(c: Config, ev: Event, path: Path) {
    var plan := Dispatch(ev);
    match path
    case ByPayment => plan.RecordPayment?
    case ByUpdate(sub) => plan.ChangeSubscription? && sub == plan.sub
    case _ =>
      if plan.ChangeSubscription? then path.sub == plan.sub
      else plan.Provision? && path.sub.id == plan.subscriptionId && c.answers(path.sub)
  }

  predicate SetTo(seconds: int, column: Option<Time>) { seconds > 0 ==> column == Some(seconds) }

  /**
   * The columns only this stream writes, against the Stripe object itself. An insert leaves
   * default_payment_method_id null, and int32 conversion may change a quantity.
   */
  predicate ShowsObject(side: Streams.ChangeSide, ev: Event, path: Path)
    requires !path.ByPayment?
  {
    var sub := path.sub;
    && side.status == StatusSaid(ev, path)
    && side.lastEventId == Some(ev.id) && side.lastEventAt == Some(ev.created)
    && side.cancelAtPeriodEnd == sub.cancelAtPeriodEnd
    && SetTo(sub.cancelAt, side.cancelAt) && SetTo(sub.canceledAt, side.canceledAt)
    && SetTo(sub.endedAt, side.endedAt) && SetTo(sub.trialEnd, side.trialEnd)
    && (side.status == Canceled && sub.canceledAt <= 0 ==> side.canceledAt == Some(ev.created))
    && (sub.items != [] ==> ShowsItem(side, sub.items[0]))
    && ShowsLink(sub.defaultPaymentMethod, side.defaultPaymentMethodId, path)
  }

  predicate ShowsItem(side: Streams.ChangeSide, item: StripeItem) {
    && (item.price.Some? && item.price.value.id != "" ==> side.priceId == item.price.value.id)
    && (0 < item.quantity < 0x8000_0000 ==> side.quantity == item.quantity)
  }

  /** An insert does not write the column; an update does if the object names a value. */
  predicate ShowsLink(given: string, column: Option<string>, path: Path) {
    if path.ByInsert? then column.None? else given != "" ==> column == Some(given)
  }

  /** The columns only the invoice stream writes, but the counter, against the invoice itself. */
  predicate ShowsInvoice(side: Streams.PaymentSide, ev: Event) {
    && ev.data.InvoiceData?
    && side.lastEventId == Some(ev.id) && side.lastEventAt == Some(ev.created)
    && if ev.kind.InvoicePaid? then side.failedAt.None? && side.lastError.None? && side.nextAttemptAt.None?
       else
         && side.failedAt == Some(ev.created) && side.nextAttemptAt == UnixPtr(ev.data.invoice.nextPaymentAttempt)
         && side.lastError == Some(Text.Truncated(if ev.data.invoice.declineReason == "" then "payment failed"
                                                  else ev.data.invoice.declineReason))
  }

  predicate InPeriod(start: int, end: int, row: Subscription) {
    (start > 0 ==> row.periodStart == start) && (end > 0 ==> row.periodEnd == end)
  }

  /** The columns both streams write: the billing period and latest_invoice_id. */
  predicate ShowsShared(row: Subscription, ev: Event, path: Path) {
    if path.ByPayment? then
      && ev.data.InvoiceData?
      && (ev.kind.InvoicePaid? ==> InPeriod(ev.data.invoice.periodStart, ev.data.invoice.periodEnd, row))
      && (ev.data.invoice.id != "" ==> row.latestInvoiceId == Some(ev.data.invoice.id))
    else
      && (path.sub.items != [] ==> InPeriod(path.sub.items[0].periodStart, path.sub.items[0].periodEnd, row))
      && ShowsLink(path.sub.latestInvoice, row.latestInvoiceId, path)
  }

  /** The most recent commit to one row by either stream. */
  function LastTo(commits: seq<Commit>, t: string): Option<Commit> {
    if commits == [] then None
    else if commits[|commits| - 1].subscription == t then Some(commits[|commits| - 1])
    else LastTo(commits[..|commits| - 1], t)
  }

  /** The failures committed to a row since the last success, continuing an earlier count. */
  function FailureRun(commits: seq<Commit>, t: string, before: int): int {
    if commits == [] then before
    else
      var cm, run := commits[|commits| - 1], FailureRun(commits[..|commits| - 1], t, before);
      if !Concerns(cm, t, InvoiceStream) then run else if cm.event.kind.InvoicePaid? then 0 else run + 1
  }

  // --------------------------------------------------------- the invariant

  ghost predicate Committed(w: World, ev: Event) {
    exists i :: 0 <= i < |w.commits| && w.commits[i].event == ev && Concerns(w.commits[i], Target(ev), StreamOf(ev))
  }

  /** The event's effect is in the row, or a strictly newer event's is. */
  ghost predicate Covered(w: World, ev: Event) {
    && Target(ev) in w.subs
    && var cursor := Cursor(w.subs[Target(ev)], StreamOf(ev));
       cursor.Some? && ev.created <= cursor.value && (Committed(w, ev) || ev.created < cursor.value)
  }

  /** A stream that has committed nothing to a row has left its side as the run found it. */
  ghost predicate Untouched(w: World, t: string, stream: Stream)
    requires t in w.subs
  {
    if stream == SubscriptionStream then
      t in w.start && Streams.ChangeSideOf(w.subs[t]) == Streams.ChangeSideOf(w.start[t])
    else if t in w.start then Streams.PaymentSideOf(w.subs[t]) == Streams.PaymentSideOf(w.start[t])
    else Cursor(w.subs[t], stream).None?
  }

  /** One row against the last commit of one stream. */
  ghost predicate ShowsCommit(w: World, t: string, cm: Commit)
    requires t in w.subs
  {
    var row := w.subs[t];
    && CursorEvent(row, cm.stream) == Some(cm.event.id) && Cursor(row, cm.stream) == Some(cm.event.created)
    && (cm.stream == InvoiceStream ==> ShowsInvoice(Streams.PaymentSideOf(row), cm.event))
    && (cm.stream == SubscriptionStream ==>
          && !cm.path.ByPayment? && ShowsObject(Streams.ChangeSideOf(row), cm.event, cm.path)
          && (LastCommit(w.commits, t, InvoiceStream).None? ==>
                ShowsLink(cm.path.sub.latestInvoice, row.latestInvoiceId, cm.path)))
  }

  /** One row against the history of one stream. */
  ghost predicate Reflects(w: World, t: string, stream: Stream)
    requires t in w.subs
  {
    && (forall i :: 0 <= i < |w.commits| && Concerns(w.commits[i], t, stream) ==>
          Cursor(w.subs[t], stream).Some? && w.commits[i].event.created <= Cursor(w.subs[t], stream).value)
    && var last := LastCommit(w.commits, t, stream);
       if last.Some? then last.value.stream == stream && ShowsCommit(w, t, last.value) else Untouched(w, t, stream)
  }

  /** The counter a row started with: an inserted one starts at nought. */
  function StartCount(w: World, t: string): int {
    if t in w.start then w.start[t].paymentFailureCount else 0
  }

  /** One row against both streams' commits together. */
  ghost predicate ReflectsBoth(w: World, t: string)
    requires t in w.subs
  {
    && w.subs[t].paymentFailureCount == FailureRun(w.commits, t, StartCount(w, t))
    && var last := LastTo(w.commits, t);
       if last.Some? then ShowsShared(w.subs[t], last.value.event, last.value.path)
       else t in w.start && w.subs[t] == w.start[t]
  }

  /** Every commit is by a delivered event, to the row it names, along a path that fits it. */
  ghost predicate TrueCommit(c: Config, w: World, cm: Commit) {
    && cm.event.id in c.catalogue && cm.event == c.decode(c.catalogue[cm.event.id])
    && cm.subscription == Target(cm.event) && cm.stream == StreamOf(cm.event)
    && cm.subscription in w.subs && Fits(c, cm.event, cm.path)
  }

  /** An insert is the first commit to its row, which the run did not start with. */
  ghost predicate InsertsComeFirst(w: World) {
    && (forall i :: 0 <= i < |w.commits| && w.commits[i].path.ByInsert? ==> w.commits[i].subscription !in w.start)
    && (forall i, j :: 0 <= i < j < |w.commits| && w.commits[j].path.ByInsert? ==>
          w.commits[i].subscription != w.commits[j].subscription)
  }

  ghost predicate HistoryInv(c: Config, w: World) {
    && w.start.Keys <= w.subs.Keys
    && (forall i :: 0 <= i < |w.commits| ==> TrueCommit(c, w, w.commits[i]))
    && InsertsComeFirst(w)
  }

  ghost predicate TableInv(c: Config, w: World) {
    LegalTable(w.subs) && HistoryInv(c, w) && RowsInv(w)
  }

  ghost predicate RowsInv(w: World) {
    && (forall t, stream :: t in w.subs ==> Reflects(w, t, stream))
    && (forall t :: t in w.subs ==> ReflectsBoth(w, t))
    && (forall t, col :: t in w.subs ==> HoldsNamed(w, t, col))
  }

  /** What a worker's program point says about the event it holds. */
  ghost predicate WorkerInv(c: Config, w: World, worker: Worker) {
    && worker.event in c.catalogue
    && var body := c.catalogue[worker.event];
       var ev := c.decode(body);
       match worker.pc
       case Dispatching => true
       case Creating(sub) => worker.payload == Some(body) && Fits(c, ev, AfterRace(sub))
       case Updating(sub, u) =>
         worker.payload == Some(body) && Fits(c, ev, AfterRace(sub)) && StatusUpdateFrom(sub, ev, false) == Ok(u)
       case Settling(v) => v.Done? ==> worker.payload == Some(body) && Covered(w, ev)
  }

  ghost predicate AgreementInv(c: Config, w: World) {
    && LedgerInv(c, w)
    && TableInv(c, w)
    && (forall k :: k in w.workers ==> WorkerInv(c, w, w.workers[k]))
    && SucceededCovered(c, w)
  }

  ghost predicate SucceededCovered(c: Config, w: World) {
    forall e :: e in w.ledger && w.ledger[e].status == Succeeded ==>
      e in c.catalogue && Covered(w, c.decode(c.catalogue[e]))
  }

  // ------------------------------------------------- what one write may do

  /**
   * A write by an event of one stream: its own cursor moves, forwards, its own columns show
   * what the event says, and the other stream's side is left alone. Only an insert adds a row.
   */
  ghost predicate LawfulWrite(subs: map<string, Subscription>, ev: Event, path: Path, row: Subscription) {
    var t, stream := Target(ev), StreamOf(ev);
    && row.stripeId == t && Checks(row)
    && Cursor(row, stream) == Some(ev.created) && CursorEvent(row, stream) == Some(ev.id)
    && (path.ByPayment? <==> stream == InvoiceStream)
    && (path.ByInsert? <==> t !in subs)
    && (t in subs ==> !Older(ev.created, Cursor(subs[t], stream)))
    && ShowsShared(row, ev, path) && WritesNamed(Get(subs, t), ev, path, row)
    && (if path.ByPayment? then
          && t in subs && Streams.ChangeSideOf(row) == Streams.ChangeSideOf(subs[t])
          && ShowsInvoice(Streams.PaymentSideOf(row), ev)
          && row.paymentFailureCount == (if ev.kind.InvoicePaid? then 0 else subs[t].paymentFailureCount + 1)
        else
          && ShowsObject(Streams.ChangeSideOf(row), ev, path)
          && (if t in subs then Streams.PaymentSideOf(row) == Streams.PaymentSideOf(subs[t])
              else Cursor(row, InvoiceStream).None? && row.paymentFailureCount == 0))
  }

  lemma {:induction false} LastCommitConcerns(commits: seq<Commit>, t: string, stream: Stream)
    ensures LastCommit(commits, t, stream).Some? ==>
              LastCommit(commits, t, stream).value in commits && Concerns(LastCommit(commits, t, stream).value, t, stream)
    ensures LastCommit(commits, t, stream).None? ==> forall cm :: cm in commits ==> !Concerns(cm, t, stream)
  {
    if commits != [] {
      var init := commits[..|commits| - 1];
      LastCommitConcerns(init, t, stream);
      assert commits == init + [commits[|commits| - 1]];
    }
  }

  /** The world after a write, but for the worker that made it. */
  function WithWrite(w: World, ev: Event, path: Path, row: Subscription): World {
    w.(subs := w.subs[row.stripeId := row], commits := w.commits + [CommitOf(ev, path)])
  }

  lemma WriteKeepsCovered(w: World, ev: Event, path: Path, row: Subscription, other: Event)
    requires LawfulWrite(w.subs, ev, path, row) && Covered(w, other)
    ensures Covered(WithWrite(w, ev, path, row), other)
  {
    var w' := WithWrite(w, ev, path, row);
    if Committed(w, other) {
      var i :| 0 <= i < |w.commits| && w.commits[i].event == other && Concerns(w.commits[i], Target(other), StreamOf(other));
      assert w'.commits[i] == w.commits[i];
    }
  }

  lemma WriteCovers(w: World, ev: Event, path: Path, row: Subscription)
    requires LawfulWrite(w.subs, ev, path, row)
    ensures Covered(WithWrite(w, ev, path, row), ev)
  {
    var w' := WithWrite(w, ev, path, row);
    assert w'.commits[|w.commits|] == CommitOf(ev, path);
    assert Committed(w', ev);
  }

  lemma LastCommitGrows(commits: seq<Commit>, cm: Commit, t: string, stream: Stream)
    ensures LastCommit(commits + [cm], t, stream) ==
            if Concerns(cm, t, stream) then Some(cm) else LastCommit(commits, t, stream)
  {
    assert (commits + [cm])[..|commits|] == commits;
  }

  lemma FailureRunGrows(commits: seq<Commit>, cm: Commit, t: string, before: int)
    ensures FailureRun(commits + [cm], t, before) ==
            var run := FailureRun(commits, t, before);
            if !Concerns(cm, t, InvoiceStream) then run else if cm.event.kind.InvoicePaid? then 0 else run + 1
    ensures LastTo(commits + [cm], t) == if cm.subscription == t then Some(cm) else LastTo(commits, t)
  {
    assert (commits + [cm])[..|commits|] == commits;
  }

  lemma {:induction false} NoCommitsNoRun(commits: seq<Commit>, t: string, before: int)
    requires forall i :: 0 <= i < |commits| ==> commits[i].subscription != t
    ensures FailureRun(commits, t, before) == before
  {
    if commits != [] {
      NoCommitsNoRun(commits[..|commits| - 1], t, before);
    }
  }

  /** Counter, period and latest invoice of any row, after a write to that row or another. */
  lemma WriteKeepsBoth(c: Config, w: World, ev: Event, path: Path, row: Subscription, t: string)
    requires TableInv(c, w) && LawfulWrite(w.subs, ev, path, row) && t in WithWrite(w, ev, path, row).subs
    ensures ReflectsBoth(WithWrite(w, ev, path, row), t)
  {
    FailureRunGrows(w.commits, CommitOf(ev, path), t, StartCount(w, t));
    if t in w.subs {
      assert ReflectsBoth(w, t);
    } else {
      assert forall i :: 0 <= i < |w.commits| ==> TrueCommit(c, w, w.commits[i]);
      NoCommitsNoRun(w.commits, t, StartCount(w, t));
    }
  }

  /** Every column of any row, after a write to that row or another. */
  lemma WriteKeepsNamed(c: Config, w: World, ev: Event, path: Path, row: Subscription, t: string, col: Column)
    requires TableInv(c, w) && LawfulWrite(w.subs, ev, path, row) && t in WithWrite(w, ev, path, row).subs
    ensures HoldsNamed(WithWrite(w, ev, path, row), t, col)
  {
    assert WritesColumn(Get(w.subs, Target(ev)), ev, path, row, col);
    assert t in w.subs ==> HoldsNamed(w, t, col);
    HoldsAfterWrite(w, WithWrite(w, ev, path, row), ev, path, t, col);
  }

  /** No commit in the history is newer than the row's cursor. */
  lemma WriteKeepsNewest(c: Config, w: World, ev: Event, path: Path, row: Subscription, t: string, stream: Stream)
    requires TableInv(c, w) && LawfulWrite(w.subs, ev, path, row)
    requires t in WithWrite(w, ev, path, row).subs
    ensures var w' := WithWrite(w, ev, path, row);
            forall i :: 0 <= i < |w'.commits| && Concerns(w'.commits[i], t, stream) ==>
              Cursor(w'.subs[t], stream).Some? && w'.commits[i].event.created <= Cursor(w'.subs[t], stream).value
  {
    if t in w.subs {
      assert Reflects(w, t, stream);
    } else {
      assert forall i :: 0 <= i < |w.commits| ==> TrueCommit(c, w, w.commits[i]);
    }
  }

  /** The row that was written shows the new commit. */
  lemma WrittenRowShows(c: Config, w: World, ev: Event, path: Path, row: Subscription)
    requires TableInv(c, w) && LawfulWrite(w.subs, ev, path, row)
    ensures Reflects(WithWrite(w, ev, path, row), Target(ev), StreamOf(ev))
  {
    WriteKeepsNewest(c, w, ev, path, row, Target(ev), StreamOf(ev));
    LastCommitGrows(w.commits, CommitOf(ev, path), Target(ev), StreamOf(ev));
  }

  /** It still shows what the other stream said, or has had nothing from it yet. */
  lemma OtherStreamStillShows(c: Config, w: World, ev: Event, path: Path, row: Subscription, stream: Stream)
    requires TableInv(c, w) && LawfulWrite(w.subs, ev, path, row) && stream != StreamOf(ev)
    ensures Reflects(WithWrite(w, ev, path, row), Target(ev), stream)
  {
    var t, cm := Target(ev), CommitOf(ev, path);
    WriteKeepsNewest(c, w, ev, path, row, t, stream);
    LastCommitGrows(w.commits, cm, t, stream);
    LastCommitGrows(w.commits, cm, t, InvoiceStream);
    if t in w.subs {
      assert Reflects(w, t, stream);
    } else {
      LastCommitConcerns(w.commits, t, stream);
      assert forall i :: 0 <= i < |w.commits| ==> TrueCommit(c, w, w.commits[i]);
    }
  }

  lemma OtherRowsReflect(c: Config, w: World, ev: Event, path: Path, row: Subscription, t: string, stream: Stream)
    requires TableInv(c, w) && LawfulWrite(w.subs, ev, path, row) && t in w.subs && t != Target(ev)
    ensures Reflects(WithWrite(w, ev, path, row), t, stream)
  {
    WriteKeepsNewest(c, w, ev, path, row, t, stream);
    LastCommitGrows(w.commits, CommitOf(ev, path), t, stream);
    LastCommitGrows(w.commits, CommitOf(ev, path), t, InvoiceStream);
    assert Reflects(w, t, stream);
    SameRowStillShows(w, WithWrite(w, ev, path, row), t, stream);
  }

  /** A row that has not changed, and whose last commits have not, shows what it showed. */
  lemma SameRowStillShows(w: World, w': World, t: string, stream: Stream)
    requires t in w.subs && t in w'.subs && w'.subs[t] == w.subs[t] && w'.start == w.start
    requires LastCommit(w'.commits, t, stream) == LastCommit(w.commits, t, stream)
    requires LastCommit(w'.commits, t, InvoiceStream) == LastCommit(w.commits, t, InvoiceStream)
    requires var last := LastCommit(w.commits, t, stream);
             if last.Some? then last.value.stream == stream && ShowsCommit(w, t, last.value) else Untouched(w, t, stream)
    ensures var last := LastCommit(w'.commits, t, stream);
            if last.Some? then last.value.stream == stream && ShowsCommit(w', t, last.value) else Untouched(w', t, stream)
  {}

  lemma WriteKeepsHistory(c: Config, w: World, ev: Event, path: Path, row: Subscription)
    requires HistoryInv(c, w) && LawfulWrite(w.subs, ev, path, row)
    requires ev.id in c.catalogue && ev == c.decode(c.catalogue[ev.id]) && Fits(c, ev, path)
    ensures HistoryInv(c, WithWrite(w, ev, path, row))
  {
    var w' := WithWrite(w, ev, path, row);
    forall i | 0 <= i < |w'.commits| ensures TrueCommit(c, w', w'.commits[i]) {
      if i < |w.commits| {
        assert TrueCommit(c, w, w.commits[i]);
      }
    }
    assert forall i :: 0 <= i < |w.commits| ==> w.commits[i].subscription in w.subs;
  }

  lemma WriteKeepsReflects(c: Config, w: World, ev: Event, path: Path, row: Subscription, t: string, stream: Stream)
    requires TableInv(c, w) && LawfulWrite(w.subs, ev, path, row) && t in WithWrite(w, ev, path, row).subs
    ensures Reflects(WithWrite(w, ev, path, row), t, stream)
  {
    if t != Target(ev) {
      OtherRowsReflect(c, w, ev, path, row, t, stream);
    } else if stream == StreamOf(ev) {
      WrittenRowShows(c, w, ev, path, row);
    } else {
      OtherStreamStillShows(c, w, ev, path, row, stream);
    }
  }

  lemma WriteKeepsTable(c: Config, w: World, ev: Event, path: Path, row: Subscription)
    requires TableInv(c, w) && LawfulWrite(w.subs, ev, path, row)
    requires ev.id in c.catalogue && ev == c.decode(c.catalogue[ev.id]) && Fits(c, ev, path)
    ensures TableInv(c, WithWrite(w, ev, path, row))
  {
    WriteKeepsHistory(c, w, ev, path, row);
    WriteKeepsRows(c, w, ev, path, row);
  }

  lemma WriteKeepsRows(c: Config, w: World, ev: Event, path: Path, row: Subscription)
    requires TableInv(c, w) && LawfulWrite(w.subs, ev, path, row)
    ensures RowsInv(WithWrite(w, ev, path, row))
  {
    var w' := WithWrite(w, ev, path, row);
    forall t, stream | t in w'.subs ensures Reflects(w', t, stream) {
      WriteKeepsReflects(c, w, ev, path, row, t, stream);
    }
    forall t | t in w'.subs ensures ReflectsBoth(w', t) {
      WriteKeepsBoth(c, w, ev, path, row, t);
    }
    forall t, col | t in w'.subs ensures HoldsNamed(w', t, col) {
      WriteKeepsNamed(c, w, ev, path, row, t, col);
    }
  }

  // ------------------------------------------------------ worker transactions

  /** What dispatch puts into its plan is what the event says. */
  lemma PlanFacts(ev: Event)
    ensures Dispatch(ev).ChangeSubscription? ==>
              var u, sub := Dispatch(ev).update, Dispatch(ev).sub;
              && StreamOf(ev) == SubscriptionStream && u.stripeId == sub.id == Target(ev)
              && StatusUpdateFrom(sub, ev, ev.kind.SubscriptionDeleted?) == Ok(u)
    ensures Dispatch(ev).RecordPayment? ==>
              var u := Dispatch(ev).payment;
              && StreamOf(ev) == InvoiceStream && u.stripeId == Target(ev) && ev.data.InvoiceData?
              && u == InvoiceUpdateFrom(ev.data.invoice, ev, ev.kind.InvoicePaid?)
    ensures Dispatch(ev).Provision? ==> StreamOf(ev) == SubscriptionStream && Dispatch(ev).subscriptionId == Target(ev)
  {}

  /** The updated row shows the object the update was made from. */
  lemma UpdateShowsObject(row: Subscription, ev: Event, path: Path, u: StatusUpdate)
    requires ev.id != "" && (path.ByUpdate? || path.AfterRace?)
    requires StatusUpdateFrom(path.sub, ev, path.ByUpdate? && ev.kind.SubscriptionDeleted?) == Ok(u)
    ensures ShowsObject(Streams.ChangeSideOf(OverwriteStatus(row, u)), ev, path)
    ensures ShowsShared(OverwriteStatus(row, u), ev, path)
  {}

  /** The inserted row shows the object too, but for the two columns an insert leaves null. */
  lemma InsertShowsObject(owner: string, ev: Event, sub: StripeSub)
    requires SubscriptionFrom(owner, sub, ev).Ok?
    ensures var row := SubscriptionFrom(owner, sub, ev).value;
            && row.userId == owner && row.stripeId == sub.id && row.customerId == sub.customer
            && ShowsObject(Streams.ChangeSideOf(row), ev, ByInsert(sub, owner))
            && ShowsShared(row, ev, ByInsert(sub, owner))
  {}

  /** UpdateSubscriptionStatus for the event: lawful when it writes, covered when stale. */
  lemma UpdateIsLawful(w: World, ev: Event, path: Path, u: StatusUpdate)
    requires LegalTable(w.subs) && ev.id != "" && StreamOf(ev) == SubscriptionStream
    requires (path.ByUpdate? || path.AfterRace?) && path.sub.id == Target(ev)
    requires StatusUpdateFrom(path.sub, ev, path.ByUpdate? && ev.kind.SubscriptionDeleted?) == Ok(u)
    ensures var r := UpdateStatus(Get(w.subs, u.stripeId), u);
            && (r.Written? ==> LawfulWrite(w.subs, ev, path, r.row))
            && (r.Stale? ==> Covered(w, ev))
  {
    assert u.stripeId == Target(ev) && u.eventAt == ev.created && u.eventId == ev.id;
    if u.stripeId in w.subs {
      UpdateShowsObject(w.subs[u.stripeId], ev, path, u);
      UpdateWritesNamed(w.subs[u.stripeId], ev, path, u);
    }
  }

  /** The invoice event's columns, period and counter, whatever the row held. */
  lemma PaymentShowsInvoice(row: Subscription, ev: Event, u: InvoiceUpdate)
    requires ev.id != "" && ev.data.InvoiceData? && u == InvoiceUpdateFrom(ev.data.invoice, ev, ev.kind.InvoicePaid?)
    ensures var next := OverwriteInvoice(row, u);
            && ShowsInvoice(Streams.PaymentSideOf(next), ev) && ShowsShared(next, ev, ByPayment)
            && next.paymentFailureCount == if ev.kind.InvoicePaid? then 0 else row.paymentFailureCount + 1
  {}

  lemma PaymentIsLawful(w: World, ev: Event, u: InvoiceUpdate)
    requires LegalTable(w.subs) && ev.id != "" && Dispatch(ev) == RecordPayment(u)
    ensures var r := RecordInvoice(Get(w.subs, u.stripeId), u);
            && (r.Written? ==> LawfulWrite(w.subs, ev, ByPayment, r.row))
            && (r.Stale? ==> Covered(w, ev))
  {
    PlanFacts(ev);
    if u.stripeId in w.subs {
      PaymentShowsInvoice(w.subs[u.stripeId], ev, u);
      PaymentWritesNamed(w.subs[u.stripeId], ev, u);
    }
  }

  lemma CreateIsLawful(w: World, ev: Event, sub: StripeSub, env: Environment)
    requires StreamOf(ev) == SubscriptionStream && sub.id == Target(ev)
    ensures var effect := CreateEffect(ev, w.subs, sub, env);
            && (effect.write.Some? ==> LawfulWrite(w.subs, ev, PathOf(ev, Creating(sub), env), effect.write.value))
            && (effect.write.None? && effect.pc.Settling? ==> !effect.pc.verdict.Done?)
            && !effect.pc.Creating? && !effect.pc.Dispatching?
            && (effect.pc.Updating? ==> effect.pc.sub == sub && StatusUpdateFrom(sub, ev, false) == Ok(effect.pc.update))
  {
    if env.owner.Some? && SubscriptionFrom(env.owner.value, sub, ev).Ok? {
      InsertShowsObject(env.owner.value, ev, sub);
      InsertWritesNamed(env.owner.value, ev, sub);
    }
  }

  /**
   * The outcome of any worker transaction: a write is lawful, a successful settle ahead means
   * the event is covered, and the next program point carries what the event says.
   */
  ghost predicate SoundEffect(c: Config, w: World, ev: Event, pc: Pc, env: Environment, effect: Effect) {
    && (effect.write.Some? ==>
          LawfulWrite(w.subs, ev, PathOf(ev, pc, env), effect.write.value) && Fits(c, ev, PathOf(ev, pc, env)))
    && (effect.pc.Settling? && effect.pc.verdict.Done? && effect.write.None? ==> Covered(w, ev))
    && (effect.pc.Creating? ==> Fits(c, ev, AfterRace(effect.pc.sub)))
    && (effect.pc.Updating? ==>
          Fits(c, ev, AfterRace(effect.pc.sub)) && StatusUpdateFrom(effect.pc.sub, ev, false) == Ok(effect.pc.update))
  }

  /** What a program point must carry for its next transaction to be sound. */
  ghost predicate Carries(c: Config, ev: Event, pc: Pc) {
    match pc
    case Creating(sub) => Fits(c, ev, AfterRace(sub))
    case Updating(sub, u) => Fits(c, ev, AfterRace(sub)) && StatusUpdateFrom(sub, ev, false) == Ok(u)
    case _ => true
  }

  lemma DispatchIsSound(c: Config, w: World, ev: Event, env: Environment)
    requires LegalTable(w.subs) && ev.id != ""
    requires Dispatch(ev).Provision? && env.fetched.Some? ==>
               env.fetched.value.id == Dispatch(ev).subscriptionId && c.answers(env.fetched.value)
    ensures SoundEffect(c, w, ev, Dispatching, env, DispatchEffect(ev, w.subs, env))
  {
    PlanFacts(ev);
    match Dispatch(ev)
    case ChangeSubscription(sub, u) => UpdateIsLawful(w, ev, ByUpdate(sub), u);
    case RecordPayment(u) => PaymentIsLawful(w, ev, u);
    case _ =>
  }

  lemma HealthyEffectIsSound(c: Config, w: World, ev: Event, pc: Pc, env: Environment)
    requires LegalTable(w.subs) && ev.id != "" && !pc.Settling? && Carries(c, ev, pc)
    requires Dispatch(ev).Provision? && env.fetched.Some? ==>
               env.fetched.value.id == Dispatch(ev).subscriptionId && c.answers(env.fetched.value)
    ensures SoundEffect(c, w, ev, pc, env, HealthyEffect(ev, w.subs, pc, env))
  {
    PlanFacts(ev);
    match pc
    case Dispatching => DispatchIsSound(c, w, ev, env);
    case Creating(sub) => CreateIsLawful(w, ev, sub, env);
    case Updating(sub, u) => UpdateIsLawful(w, ev, AfterRace(sub), u);
  }

  lemma WorkIsSound(c: Config, w: World, k: nat, env: Environment)
    requires WellFormed(c) && Enabled(c, w, Work(k, env)) && AgreementInv(c, w)
    requires w.workers[k].payload == Some(c.catalogue[w.workers[k].event])
    ensures SoundEffect(c, w, c.decode(c.catalogue[w.workers[k].event]), w.workers[k].pc, env, WorkEffect(c, w, k, env))
  {
    assert WorkerInv(c, w, w.workers[k]);
    var ev, pc := c.decode(c.catalogue[w.workers[k].event]), w.workers[k].pc;
    HealthyEffectIsSound(c, w, ev, pc, env);
    FaultsStaySound(c, w, ev, pc, env, HealthyEffect(ev, w.subs, pc, env), env.fault);
  }

  /** A lost transaction writes nothing, and lost news only turns the settle into a failure. */
  lemma FaultsStaySound(c: Config, w: World, ev: Event, pc: Pc, env: Environment, effect: Effect, fault: Fault)
    requires SoundEffect(c, w, ev, pc, env, effect)
    ensures SoundEffect(c, w, ev, pc, env, Faulted(effect, fault))
  {}

  // ------------------------------------------------------------- every step

  /** The parts of the invariant that read only the table and its history. */
  lemma SameTable(c: Config, w: World, w': World)
    requires w'.subs == w.subs && w'.commits == w.commits && w'.start == w.start
    ensures TableInv(c, w) ==> TableInv(c, w')
    ensures forall ev :: Covered(w, ev) ==> Covered(w', ev)
    ensures forall worker :: WorkerInv(c, w, worker) ==> WorkerInv(c, w', worker)
  {
    forall t, stream | TableInv(c, w) && t in w.subs ensures Reflects(w', t, stream) {
      assert Reflects(w, t, stream);
    }
    forall t | TableInv(c, w) && t in w.subs ensures ReflectsBoth(w', t) {
      assert ReflectsBoth(w, t);
    }
    forall t, col | TableInv(c, w) && t in w.subs ensures HoldsNamed(w', t, col) {
      assert HoldsNamed(w, t, col);
    }
    forall i | TableInv(c, w) && 0 <= i < |w.commits| ensures TrueCommit(c, w', w'.commits[i]) {
      assert TrueCommit(c, w, w.commits[i]);
    }
    forall ev | Covered(w, ev) ensures Covered(w', ev) {
      if Committed(w, ev) { assert Committed(w', ev); }
    }
  }

  lemma WorkKeepsAgreement(c: Config, w: World, k: nat, env: Environment)
    requires WellFormed(c) && Enabled(c, w, Work(k, env)) && AgreementInv(c, w)
    ensures AgreementInv(c, AfterWork(c, w, k, env))
  {
    StepKeepsLedgerInv(c, w, Work(k, env));
    var worker := w.workers[k];
    assert WorkerInv(c, w, worker) && Authentic(c, w, worker.event, worker.payload);
    var body := c.catalogue[worker.event];
    if worker.payload == Some(body) {
      WorkIsSound(c, w, k, env);
      if WorkEffect(c, w, k, env).write.Some? {
        WorkWrites(c, w, k, env, c.decode(body));
      } else {
        WorkOnlyMoves(c, w, k, env);
      }
    } else {
      SkeletonWorkerWritesNothing(c, w, k, env);
      WorkOnlyMoves(c, w, k, env);
    }
  }

  /** A transaction that writes nothing leaves the table and every other worker alone. */
  lemma WorkOnlyMoves(c: Config, w: World, k: nat, env: Environment)
    requires Enabled(c, w, Work(k, env)) && AgreementInv(c, w)
    requires WorkEffect(c, w, k, env).write.None?
    requires WorkerInv(c, w, w.workers[k].(pc := WorkEffect(c, w, k, env).pc))
    ensures var w' := AfterWork(c, w, k, env);
            && TableInv(c, w')
            && (forall j :: j in w'.workers ==> WorkerInv(c, w', w'.workers[j]))
            && SucceededCovered(c, w')
  {
    SameTable(c, w, AfterWork(c, w, k, env));
  }

  lemma WorkWrites(c: Config, w: World, k: nat, env: Environment, ev: Event)
    requires WellFormed(c) && Enabled(c, w, Work(k, env)) && AgreementInv(c, w)
    requires w.workers[k].payload == Some(c.catalogue[w.workers[k].event])
    requires ev == c.decode(c.catalogue[w.workers[k].event])
    requires WorkEffect(c, w, k, env).write.Some? && SoundEffect(c, w, ev, w.workers[k].pc, env, WorkEffect(c, w, k, env))
    ensures var w' := AfterWork(c, w, k, env);
            && TableInv(c, w')
            && (forall j :: j in w'.workers ==> WorkerInv(c, w', w'.workers[j]))
            && SucceededCovered(c, w')
  {
    assert WorkerInv(c, w, w.workers[k]);
    var effect, path := WorkEffect(c, w, k, env), PathOf(ev, w.workers[k].pc, env);
    var mid := WithWrite(w, ev, path, effect.write.value);
    WriteKeepsTable(c, w, ev, path, effect.write.value);
    WriteCovers(w, ev, path, effect.write.value);
    WriteKeepsWorkers(c, w, ev, path, effect.write.value);
    WorkIsWrite(c, w, k, env, ev);
    WorkerMoved(c, mid, AfterWork(c, w, k, env), k, effect.pc);
  }

  lemma WorkIsWrite(c: Config, w: World, k: nat, env: Environment, ev: Event)
    requires k in w.workers && w.workers[k].payload.Some? && ev == c.decode(w.workers[k].payload.value)
    requires WorkEffect(c, w, k, env).write.Some?
    ensures var effect := WorkEffect(c, w, k, env);
            AfterWork(c, w, k, env) == WithWrite(w, ev, PathOf(ev, w.workers[k].pc, env), effect.write.value)
                                       .(workers := w.workers[k := w.workers[k].(pc := effect.pc)])
  {}

  /** One worker moves on over an unchanged table. */
  lemma WorkerMoved(c: Config, w: World, w': World, k: nat, pc: Pc)
    requires k in w.workers && w' == w.(workers := w.workers[k := w.workers[k].(pc := pc)])
    requires TableInv(c, w) && SucceededCovered(c, w) && WorkerInv(c, w, w.workers[k].(pc := pc))
    requires forall j :: j in w.workers ==> WorkerInv(c, w, w.workers[j])
    ensures TableInv(c, w') && SucceededCovered(c, w')
    ensures forall j :: j in w'.workers ==> WorkerInv(c, w', w'.workers[j])
  {
    SameTable(c, w, w');
  }

  /** Other workers, and settled events, lose nothing by a write. */
  lemma WriteKeepsWorkers(c: Config, w: World, ev: Event, path: Path, row: Subscription)
    requires AgreementInv(c, w) && LawfulWrite(w.subs, ev, path, row)
    ensures var w' := WithWrite(w, ev, path, row);
            && (forall j :: j in w.workers ==> WorkerInv(c, w', w.workers[j]))
            && SucceededCovered(c, w')
  {
    var w' := WithWrite(w, ev, path, row);
    forall j | j in w.workers ensures WorkerInv(c, w', w.workers[j]) {
      assert WorkerInv(c, w, w.workers[j]);
      var his := c.decode(c.catalogue[w.workers[j].event]);
      if Covered(w, his) {
        WriteKeepsCovered(w, ev, path, row, his);
      }
    }
    forall e | e in w'.ledger && w'.ledger[e].status == Succeeded ensures Covered(w', c.decode(c.catalogue[e])) {
      WriteKeepsCovered(w, ev, path, row, c.decode(c.catalogue[e]));
    }
  }

  lemma StepKeepsAgreement(c: Config, w: World, s: Step)
    requires WellFormed(c) && Enabled(c, w, s) && AgreementInv(c, w)
    ensures AgreementInv(c, Apply(c, w, s))
  {
    if s.Work? {
      WorkKeepsAgreement(c, w, s.worker, s.env);
    } else {
      StepKeepsLedgerInv(c, w, s);
      OnlyWorkWrites(c, w, s);
      IdleStepKeepsAgreement(c, w, s, Apply(c, w, s));
    }
  }

  lemma OnlyWorkWrites(c: Config, w: World, s: Step)
    requires Enabled(c, w, s)
    ensures Apply(c, w, s).start == w.start
    ensures !s.Work? ==> Apply(c, w, s).subs == w.subs && Apply(c, w, s).commits == w.commits
  {}

  lemma IdleStepKeepsAgreement(c: Config, w: World, s: Step, w': World)
    requires Enabled(c, w, s) && AgreementInv(c, w) && !s.Work? && w' == Apply(c, w, s)
    requires w'.subs == w.subs && w'.commits == w.commits && w'.start == w.start
    ensures TableInv(c, w') && SucceededCovered(c, w')
    ensures forall k :: k in w'.workers ==> WorkerInv(c, w', w'.workers[k])
  {
    SameTable(c, w, w');
    forall k | k in w'.workers ensures WorkerInv(c, w', w'.workers[k]) {
      IdleStepKeepsWorker(c, w, s, k);
    }
    forall e | e in w'.ledger && w'.ledger[e].status == Succeeded
      ensures e in c.catalogue && Covered(w', c.decode(c.catalogue[e]))
    {
      SettledByDone(c, w, s, e);
    }
  }

  lemma IdleStepKeepsWorker(c: Config, w: World, s: Step, k: nat)
    requires Enabled(c, w, s) && AgreementInv(c, w) && !s.Work?
    requires k in Apply(c, w, s).workers
    ensures WorkerInv(c, Apply(c, w, s), Apply(c, w, s).workers[k])
  {
    OnlyWorkWrites(c, w, s);
    SameTable(c, w, Apply(c, w, s));
    if k in w.workers {
      assert WorkerInv(c, w, w.workers[k]);
    } else if s.Retry? {
      assert Authentic(c, w, s.listing.event, s.listing.payload);
    }
  }

  /** A row becomes succeeded only through a worker that has finished its work. */
  lemma SettledByDone(c: Config, w: World, s: Step, e: string)
    requires Enabled(c, w, s) && AgreementInv(c, w) && !s.Work?
    requires e in Apply(c, w, s).ledger && Apply(c, w, s).ledger[e].status == Succeeded
    ensures e in c.catalogue && Covered(w, c.decode(c.catalogue[e]))
  {
    StepTouches(c, w, s, e);
    if e in w.ledger && w.ledger[e].status == Succeeded {
    } else if s.Finish? {
      assert WorkerInv(c, w, w.workers[s.worker]);
    } else {
      OnlyFinishSucceeds(c, w, s, e);
    }
  }

  lemma OnlyFinishSucceeds(c: Config, w: World, s: Step, e: string)
    requires Enabled(c, w, s) && !s.Finish? && e in Apply(c, w, s).ledger
    requires Apply(c, w, s).ledger[e].status == Succeeded
    ensures e in w.ledger && w.ledger[e].status == Succeeded
  {}

  lemma {:induction false} RunKeepsAgreement(c: Config, w: World, steps: seq<Step>)
    requires WellFormed(c) && IsRun(c, w, steps) && AgreementInv(c, w)
    ensures AgreementInv(c, Final(c, w, steps)) && Final(c, w, steps).start == w.start
    decreases |steps|
  {
    if steps != [] {
      StepKeepsAgreement(c, w, steps[0]);
      OnlyWorkWrites(c, w, steps[0]);
      RunKeepsAgreement(c, Apply(c, w, steps[0]), steps[1..]);
    }
  }

  lemma InitAgrees(c: Config, w: World)
    requires Init(w)
    ensures AgreementInv(c, w)
  {
    forall t, stream | t in w.subs ensures Reflects(w, t, stream) {
      assert LastCommit(w.commits, t, stream).None?;
    }
  }

  /**
   * Main theorem. In every reachable state a succeeded event is covered by the row it
   * concerns - its cursor is at least the event's created, and the event was committed or
   * something strictly newer was. Each stream's own columns are what its last commit to the
   * row says, which no commit to that row is newer than; the failure counter is the run of
   * failures committed since the last success; and the period and latest invoice are what the
   * last commit of either stream sets them to. What a commit says is read off the Stripe
   * object the event carries or the API answered. What no commit touched is as it was.
   */
  lemma LedgerAndProjectionAgree(c: Config, w: World, steps: seq<Step>)
    requires WellFormed(c) && Init(w) && IsRun(c, w, steps)
    ensures var f := Final(c, w, steps);
            && SucceededCovered(c, f)
            && (forall t, stream :: t in f.subs ==> Reflects(f, t, stream))
            && (forall t :: t in f.subs ==> ReflectsBoth(f, t))
            && (forall t, col :: t in f.subs ==> HoldsNamed(f, t, col))
            && LegalTable(f.subs) && HistoryInv(c, f) && f.start == w.subs
  {
    InitAgrees(c, w);
    RunKeepsAgreement(c, w, steps);
  }
}
