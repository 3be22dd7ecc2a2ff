/**
 * Reachable runs that show where the protocol stops short of what one might expect: a
 * failed payment counted twice, and a deletion that leaves the subscription active.
 */
module Scenarios {
  import opened Domain
  import opened Ledger
  import opened Subscriptions
  import opened Events
  import opened Protocol
  import opened Service
  import opened ServiceRuns
  import Dunning
  import Outcomes
  import Exclusivity
  import RetryBudget
  import Json

  function Answers(fault: Fault, owner: string): seq<Environment> {
    var env := Environment(Healthy, Some(owner), true, None);
    [env.(fault := fault), env, env]
  }

  // ------------------------------------------------- a failure counted twice

  /** An applicable payment event handled alone: the row is written, the news may be lost. */
  lemma PaymentHandled(ev: Event, subs: Table, fault: Fault)
    requires Dispatch(ev).RecordPayment? && !fault.BeforeCommit? && LegalTable(subs)
    requires var u := Dispatch(ev).payment;
             u.stripeId in subs && !u.succeeded && !Older(u.eventAt, subs[u.stripeId].lastInvoiceEventAt)
    ensures var u := Dispatch(ev).payment;
            WorkOn(ev, subs, Dispatching, Answers(fault, "")) ==
              (subs[u.stripeId := Dunning.Record(subs[u.stripeId], u)], if fault.Healthy? then Done else FAILURE)
  {
    var u := Dispatch(ev).payment;
    InvoiceRejectedIff(subs[u.stripeId], u);
    assert RecordInvoice(Get(subs, u.stripeId), u) == Written(Dunning.Record(subs[u.stripeId], u));
  }

  /**
   * The commit succeeds, the answer is lost, the event is recorded as failed and delivered
   * again. It then succeeds, and the failure has been counted twice.
   */
  lemma FailureCountedTwice(c: Config, w: World, e: string) returns (steps: seq<Step>)
    requires Init(w) && e in c.catalogue && Dispatch(c.decode(c.catalogue[e])).RecordPayment?
    requires var u := Dispatch(c.decode(c.catalogue[e])).payment;
             u.stripeId in w.subs && !u.succeeded && !Older(u.eventAt, w.subs[u.stripeId].lastInvoiceEventAt)
    ensures IsRun(c, w, steps)
    ensures var t, f := Dispatch(c.decode(c.catalogue[e])).payment.stripeId, Final(c, w, steps);
            && e in f.ledger && f.ledger[e].status == Succeeded && t in f.subs
            && f.subs[t].paymentFailureCount == w.subs[t].paymentFailureCount + 2
  {
    var ev := c.decode(c.catalogue[e]);
    var u := Dispatch(ev).payment;
    var first := w.subs[u.stripeId];
    PaymentHandled(ev, w.subs, AfterCommit);
    Dunning.RecordEffect(first, u);
    var a := ProcessEventIsRun(c, w, 0, e, Answers(AfterCommit, ""), 0);
    var w1 := Final(c, w, a);
    var second := w1.subs[u.stripeId];
    assert second == Dunning.Record(first, u) && w1.ledger[e].status == Failed;
    PaymentHandled(ev, w1.subs, Healthy);
    Dunning.RecordEffect(second, u);
    var b := ProcessEventIsRun(c, w1, 0, e, Answers(Healthy, ""), 0);
    RunAppend(c, w, a, b);
    steps := a + b;
  }

  // --------------------------------------------- a deletion that does not cancel

  /** The row an event inserts for this owner, if it is legal. */
  predicate CanInsert(ev: Event, owner: string) {
    && Dispatch(ev).ChangeSubscription?
    && SubscriptionFrom(owner, Dispatch(ev).sub, ev).Ok?
    && Checks(SubscriptionFrom(owner, Dispatch(ev).sub, ev).value)
  }

  function InsertedRow(ev: Event, owner: string): Subscription
    requires CanInsert(ev, owner)
  {
    SubscriptionFrom(owner, Dispatch(ev).sub, ev).value
  }

  /**
   * A deletion and another event of the same subscription, both able to insert the row; the
   * deletion is not older, and its object can be applied to the row the other inserts.
   */
  predicate Race(d: Event, x: Event, owner: string) {
    && CanInsert(d, owner) && CanInsert(x, owner) && d.kind.SubscriptionDeleted?
    && Target(d) == Target(x) && x.created <= d.created
    && StatusUpdateFrom(Dispatch(d).sub, d, false).Ok?
    && Checks(OverwriteStatus(InsertedRow(x, owner), StatusUpdateFrom(Dispatch(d).sub, d, false).value))
  }

  lemma FirstToInsert(x: Event, subs: Table, owner: string)
    requires CanInsert(x, owner) && Target(x) !in subs
    ensures WorkOn(x, subs, Dispatching, Answers(Healthy, owner)) == (subs[Target(x) := InsertedRow(x, owner)], Done)
  {
    var envs := Answers(Healthy, owner);
    NothingThere(x, subs, envs[0]);
    assert HealthyEffect(x, subs, Creating(Dispatch(x).sub), envs[1]) == Effect(Some(InsertedRow(x, owner)), Settling(Done));
    assert WorkOn(x, subs, Dispatching, envs) == WorkOn(x, subs, Creating(Dispatch(x).sub), envs[1..]);
    OneLeft(x, subs, Creating(Dispatch(x).sub), envs[1..], InsertedRow(x, owner));
  }

  /** The last transaction of an event that succeeds. */
  lemma OneLeft(ev: Event, subs: Table, pc: Pc, envs: seq<Environment>, row: Subscription)
    requires |envs| + 1 >= Remaining(pc) && !pc.Settling? && envs[0].fault.Healthy?
    requires HealthyEffect(ev, subs, pc, envs[0]) == Effect(Some(row), Settling(Done))
    ensures WorkOn(ev, subs, pc, envs) == (subs[row.stripeId := row], Done)
  {
    assert WorkOn(ev, subs, pc, envs) == WorkOn(ev, subs[row.stripeId := row], Settling(Done), envs[1..]);
  }

  /** Refused the insert, the deletion is applied without being treated as one. */
  lemma SecondToInsert(d: Event, x: Event, subs: Table, owner: string)
    requires Race(d, x, owner) && Target(d) in subs && subs[Target(d)] == InsertedRow(x, owner)
    ensures var (table, v) := WorkOn(d, subs, Creating(Dispatch(d).sub), Answers(Healthy, owner)[1..]);
            && v == Done && Target(d) in table && table[Target(d)].status == Dispatch(d).sub.status
  {
    var envs, sub, row := Answers(Healthy, owner)[1..], Dispatch(d).sub, InsertedRow(x, owner);
    var u := StatusUpdateFrom(sub, d, false).value;
    assert HealthyEffect(d, subs, Creating(sub), envs[0]) == Effect(None, Updating(sub, u));
    assert UpdateStatus(Some(row), u) == Written(OverwriteStatus(row, u));
    assert HealthyEffect(d, subs, Updating(sub, u), envs[1]) == Effect(Some(OverwriteStatus(row, u)), Settling(Done));
    assert WorkOn(d, subs, Creating(sub), envs) == WorkOn(d, subs, Updating(sub, u), envs[1..]);
    OneLeft(d, subs, Updating(sub, u), envs[1..], OverwriteStatus(row, u));
  }

  /** The deletion looks for the row, finds none, and stops before its insert. */
  lemma DeletionStarts(c: Config, w: World, e: string, owner: string) returns (w': World)
    requires Init(w) && e in c.catalogue && CanInsert(c.decode(c.catalogue[e]), owner)
    requires Target(c.decode(c.catalogue[e])) !in w.subs
    ensures var steps := [Deliver(e, 0), Work(0, Answers(Healthy, owner)[0])];
            IsRun(c, w, steps) && Final(c, w, steps) == w'
    ensures w'.subs == w.subs && w'.ledger == map[e := Inserted(c.catalogue[e], w.now)] && w'.now == w.now
    ensures w'.workers == map[0 := Worker(e, Some(c.catalogue[e]), Creating(Dispatch(c.decode(c.catalogue[e])).sub), w.now, 1)]
  {
    var deliver, work := Deliver(e, 0), Work(0, Answers(Healthy, owner)[0]);
    Exclusivity.FirstClaim(c, w, e);
    var w1 := Apply(c, w, deliver);
    OneTransaction(c, w1, 0, c.decode(c.catalogue[e]), work.env);
    w' := Apply(c, w1, work);
    RetryBudget.TwoSteps(c, w, deliver, work);
    NothingThere(c.decode(c.catalogue[e]), w.subs, work.env);
  }

  lemma NothingThere(ev: Event, subs: Table, env: Environment)
    requires Dispatch(ev).ChangeSubscription? && Target(ev) !in subs
    ensures HealthyEffect(ev, subs, Dispatching, env) == Effect(None, Creating(Dispatch(ev).sub))
  {}

  /**
   * The deletion finds no row, the other event inserts it, the deletion's insert is refused
   * and its update copies the object's own status. The deletion succeeds, and the row ends
   * canceled if and only if the deleted object reports canceled.
   */
  lemma DeletionLosesRace(c: Config, w: World, dId: string, xId: string, owner: string) returns (steps: seq<Step>)
    requires WellFormed(c) && Init(w) && dId in c.catalogue && xId in c.catalogue && dId != xId
    requires Race(c.decode(c.catalogue[dId]), c.decode(c.catalogue[xId]), owner)
    requires Target(c.decode(c.catalogue[dId])) !in w.subs
    ensures IsRun(c, w, steps)
    ensures var d, f := c.decode(c.catalogue[dId]), Final(c, w, steps);
            && dId in f.ledger && f.ledger[dId].status == Succeeded && Target(d) in f.subs
            && f.subs[Target(d)].status == Dispatch(d).sub.status
            && (f.subs[Target(d)].status == Canceled <==> Dispatch(d).sub.status == Canceled)
  {
    var d, x, envs := c.decode(c.catalogue[dId]), c.decode(c.catalogue[xId]), Answers(Healthy, owner);
    var w1 := DeletionStarts(c, w, dId, owner);
    FirstToInsert(x, w.subs, owner);
    var b := ProcessEventIsRun(c, w1, 1, xId, envs, 0);
    var w2 := Final(c, w1, b);
    SecondToInsert(d, x, w2.subs, owner);
    var rest := LoserFinishes(c, w2, d, envs[1..]);
    var a := [Deliver(dId, 0), Work(0, envs[0])];
    RunAppend(c, w1, b, rest);
    RunAppend(c, w, a, b + rest);
    steps := a + (b + rest);
  }

  lemma LoserFinishes(c: Config, w: World, ev: Event, envs: seq<Environment>) returns (steps: seq<Step>)
    requires 0 in w.workers && w.workers[0].pc.Creating? && w.workers[0].payload.Some? && |envs| == 2
    requires c.decode(w.workers[0].payload.value) == ev && HonestFetch(c, ev, envs)
    requires w.workers[0].event in w.ledger && w.ledger[w.workers[0].event].status == Processing
    ensures IsRun(c, w, steps)
    ensures var (table, v) := WorkOn(ev, w.subs, w.workers[0].pc, envs);
            var e, f := w.workers[0].event, Final(c, w, steps);
            && f.subs == table && e in f.ledger && (v == Done ==> f.ledger[e].status == Succeeded)
  {
    var work := WorkOnIsRun(c, w, 0, ev, envs);
    var w1 := Final(c, w, work);
    SettleLater(c, w1, 0, 0);
    RunAppend(c, w, work, [Tick(0), Finish(0)]);
    steps := work + [Tick(0), Finish(0)];
  }

  // ----------------------------------------------------- links that stay null

  /**
   * The only event of a subscription inserts the row and is settled: the run is complete, and
   * both link columns are null whatever the event names.
   */
  lemma OnlyEventLeavesLinksNull(c: Config, w: World, e: string, owner: string) returns (steps: seq<Step>)
    requires WellFormed(c) && Init(w) && e in c.catalogue && CanInsert(c.decode(c.catalogue[e]), owner)
    requires var t := Target(c.decode(c.catalogue[e]));
             && t !in w.subs
             && forall x :: x in c.catalogue && Outcomes.About(c.decode(c.catalogue[x]), t, SubscriptionStream) ==> x == e
    ensures IsRun(c, w, steps)
    ensures var t, f := Target(c.decode(c.catalogue[e])), Final(c, w, steps);
            && Outcomes.AllSucceeded(c, f, t, SubscriptionStream)
            && t in f.subs && f.subs[t].latestInvoiceId.None? && f.subs[t].defaultPaymentMethodId.None?
  {
    var ev := c.decode(c.catalogue[e]);
    FirstToInsert(ev, w.subs, owner);
    steps := ProcessEventIsRun(c, w, 0, e, Answers(Healthy, owner), 0);
    assert Final(c, w, steps).subs[Target(ev)] == InsertedRow(ev, owner);
  }

  // ------------------------------------------------------------ one such run

  const ACTIVE: StripeSub :=
    StripeSub("sub_a", "cus_a", Active, [StripeItem(Some(StripePrice("price_a", "", 0, "")), 1, 1, 2)],
              false, 0, 0, 0, 0, 0, "in_a", "pm_a")
  const CHANGED: Event := Event("evt_x", SubscriptionChanged, 10, SubscriptionData(ACTIVE))
  const DELETED: Event := Event("evt_d", SubscriptionDeleted, 20, SubscriptionData(ACTIVE))

  lemma ActiveFits(ev: Event)
    requires ev == CHANGED || ev == DELETED
    ensures CanInsert(ev, "u") && Dispatch(ev).sub == ACTIVE && Target(ev) == "sub_a"
  {
    assert Dispatch(ev).ChangeSubscription? && Dispatch(ev).sub == ACTIVE;
    var row := SubscriptionFrom("u", ACTIVE, ev).value;
    assert HasForm("sub_", "sub_a") && HasForm("cus_", "cus_a") && HasForm("price_", "price_a");
    assert IdentityChecks(row) && PriceCheck(row) && QuantityCheck(row) && PeriodCheck(row);
    assert TrialCheck(row) && CanceledCheck(row) && DunningCheck(row);
  }

  lemma ActiveUpdate()
    ensures StatusUpdateFrom(ACTIVE, DELETED, false).Ok?
    ensures var u := StatusUpdateFrom(ACTIVE, DELETED, false).value;
            && u.status == Active && u.eventAt == 20 && u.periodStart == Some(1) && u.periodEnd == Some(2)
            && u.trialEnd.None? && u.quantity == Some(1) && u.priceId == Some("price_a")
  {}

  lemma ActiveRace()
    ensures Race(DELETED, CHANGED, "u")
  {
    ActiveFits(CHANGED);
    ActiveFits(DELETED);
    ActiveUpdate();
    var u, row := StatusUpdateFrom(ACTIVE, DELETED, false).value, InsertedRow(CHANGED, "u");
    assert row.lastEventAt == Some(10);
    assert HasForm("price_", "price_a");
    StatusRejectedIff(row, u);
    assert UpdateStatus(Some(row), u) == Guarded(OverwriteStatus(row, u));
  }

  function Body(name: string): Json.Json {
    Json.Obj(map["id" := Json.Str(name),
                 "data" := Json.Obj(map["object" := Json.Obj(map["items" := Json.Bool(true)])])])
  }

  function Decoded(j: Json.Json): Event {
    if j == Body("evt_x") then CHANGED
    else if j == Body("evt_d") then DELETED
    else Event("", Unsubscribed, 0, Undecodable)
  }

  lemma BodiesDiffer()
    ensures Body("evt_x") != Body("evt_d")
  {
    assert Body("evt_x").members["id"] == Json.Str("evt_x");
    assert Body("evt_d").members["id"] == Json.Str("evt_d");
    assert "evt_x"[4] != "evt_d"[4];
  }

  lemma DecodesMemberwise()
    ensures MemberwiseDecoder(Decoded)
  {
    assert !LacksMember(Body("evt_x"), "items") && !LacksMember(Body("evt_d"), "items");
  }

  function TwoEvents(): Config {
    Config(map["evt_x" := Body("evt_x"), "evt_d" := Body("evt_d")], Decoded, _ => false, 300, 300, 5, 1, 1, 1, 1)
  }

  function Empty(): World { World(0, map[], map[], map[], map[], {}, [], map[]) }

  lemma TwoEventsDecode()
    ensures var c := TwoEvents();
            && WellFormed(c) && "evt_d" in c.catalogue && "evt_x" in c.catalogue
            && c.decode(c.catalogue["evt_d"]) == DELETED && c.decode(c.catalogue["evt_x"]) == CHANGED
  {
    BodiesDiffer();
    DecodesMemberwise();
  }

  /** The deletion of a subscription is recorded as succeeded, and the row says active. */
  lemma DeletedYetActive() returns (steps: seq<Step>)
    ensures WellFormed(TwoEvents()) && Init(Empty()) && IsRun(TwoEvents(), Empty(), steps)
    ensures var f := Final(TwoEvents(), Empty(), steps);
            && "evt_d" in f.ledger && f.ledger["evt_d"].status == Succeeded
            && "sub_a" in f.subs && f.subs["sub_a"].status == Active
  {
    TwoEventsDecode();
    ActiveRace();
    ActiveFits(DELETED);
    assert "evt_x"[4] != "evt_d"[4];
    steps := DeletionLosesRace(TwoEvents(), Empty(), "evt_d", "evt_x", "u");
  }

  function OneEvent(): Config { TwoEvents().(catalogue := map["evt_x" := Body("evt_x")]) }

  /** An event that names an invoice and a payment method succeeds, and the row has neither. */
  lemma NamedYetNull() returns (steps: seq<Step>)
    ensures WellFormed(OneEvent()) && Init(Empty()) && IsRun(OneEvent(), Empty(), steps)
    ensures CHANGED.data.sub.latestInvoice != "" && CHANGED.data.sub.defaultPaymentMethod != ""
    ensures var f := Final(OneEvent(), Empty(), steps);
            && Outcomes.AllSucceeded(OneEvent(), f, "sub_a", SubscriptionStream)
            && "sub_a" in f.subs && f.subs["sub_a"].latestInvoiceId.None? && f.subs["sub_a"].defaultPaymentMethodId.None?
  {
    TwoEventsDecode();
    ActiveFits(CHANGED);
    assert |"in_a"| == |"pm_a"| == 4;
    steps := OnlyEventLeavesLinksNull(OneEvent(), Empty(), "evt_x", "u");
  }
}
