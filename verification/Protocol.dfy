/**
 * The webhook protocol as one transition system: any number of HTTP deliveries and
 * sweepers, each at a program point, interleaved statement by statement over the shared
 * ledger and the subscriptions table. Workers may die anywhere, transactions may fail
 * before or after their commit, and time may pass at any moment.
 */
module Protocol {
  import opened Domain
  import opened Ledger
  import opened Subscriptions
  import opened Events
  import Json

  /**
   * The fixed environment: what Stripe sends for each event id, how a payload decodes,
   * and the configured windows. HTTP claims and the sweeper have separate stale windows.
   */
  datatype Config = Config(
    catalogue: map<string, Json.Json>,
    decode: Json.Json -> Event,
    answers: StripeSub -> bool,   // what the Stripe API may answer when asked for a subscription
    httpStale: Time,
    sweepStale: Time,
    maxAttempts: int,
    baseBackoff: nat,
    maxBackoff: nat,
    settledAfter: Time,
    unsettledAfter: Time)

  ghost predicate WellFormed(c: Config) {
    && MemberwiseDecoder(c.decode)
    && (forall e :: e in c.catalogue ==> e != "" && c.decode(c.catalogue[e]).id == e)
  }

  /** Where a worker holding a claim stands: each point is the next transaction it runs. */
  datatype Pc =
    | Dispatching
    | Creating(sub: StripeSub)
    | Updating(sub: StripeSub, update: StatusUpdate)
    | Settling(verdict: Verdict)

  datatype Worker = Worker(event: string, payload: Option<Json.Json>, pc: Pc, claimedAt: Time, attempt: int)

  /** One row of a sweeper's listing, which may be arbitrarily old when it is used. */
  datatype Listing = Listing(event: string, payload: Option<Json.Json>)

  /** How a write came about, and the Stripe object it was made from. */
  datatype Path =
    | ByUpdate(sub: StripeSub)                  // the update of handleSubscriptionChanged
    | ByInsert(sub: StripeSub, owner: string)   // the first row, from an event or a fetched object
    | AfterRace(sub: StripeSub)                 // the update that follows a refused insert
    | ByPayment                                 // an invoice event

  /** History: one committed write to the subscriptions table, by which event and how. */
  datatype Commit = Commit(subscription: string, stream: Stream, event: Event, path: Path)

  /** History: claims granted for one event, by path. */
  datatype Grants = Grants(http: nat, sweep: nat)

  datatype World = World(
    now: Time,
    ledger: Rows,
    subs: map<string, Subscription>,
    start: map<string, Subscription>,   // history: the table the run began with
    workers: map<nat, Worker>,
    listed: set<Listing>,
    commits: seq<Commit>,
    grants: map<string, Grants>)

  datatype Fault = Healthy | BeforeCommit | AfterCommit

  /**
   * What the world outside a transaction answers: faults, owner resolution and whether the
   * owner is still there when the row is inserted, the Stripe API.
   */
  datatype Environment = Environment(fault: Fault, owner: Option<string>, ownerExists: bool, fetched: Option<StripeSub>)

  const LOST: Environment := Environment(BeforeCommit, None, false, None)

  datatype Step =
    | Deliver(event: string, worker: nat)
    | List(events: set<string>)
    | Retry(listing: Listing, worker: nat)
    | Work(worker: nat, env: Environment)
    | Finish(worker: nat)
    | Die(worker: nat)
    | Reclaim(events: set<string>)
    | Purge(events: set<string>)
    | Tick(elapsed: nat)

  predicate Init(w: World) {
    && w.start == w.subs && w.ledger == map[] && w.workers == map[] && w.listed == {} && w.commits == [] && w.grants == map[]
    && forall k :: k in w.subs ==> w.subs[k].stripeId == k && Checks(w.subs[k])
  }

  // ------------------------------------------------- one worker transaction

  /** The row a transaction writes, if any, and where the worker goes next. */
  datatype Effect = Effect(write: Option<Subscription>, pc: Pc)

  const FAILURE: Verdict := Error("event could not be applied")
  const NO_ACTION: Verdict := Ignore("no action required for this event")
  const NOT_SUBSCRIBED: Verdict := Ignore("event type not subscribed")
  const NOT_RETAINED: Verdict := Ignore("payload no longer retained; cannot replay")

  function AfterUpdate(r: StoreResult, onMissing: Pc): Effect {
    match r
    case Written(row) => Effect(Some(row), Settling(Done))
    case Stale => Effect(None, Settling(Done))
    case NotFound => Effect(None, onMissing)
    case _ => Effect(None, Settling(FAILURE))
  }

  function CreateEffect(ev: Event, subs: map<string, Subscription>, sub: StripeSub, env: Environment): Effect {
    if env.owner.None? then Effect(None, Settling(NO_ACTION))
    else
      var record := SubscriptionFrom(env.owner.value, sub, ev);
      if record.Err? then Effect(None, Settling(FAILURE))
      else
        var r := Create(Get(subs, sub.id), record.value, env.ownerExists);
        if r.Written? then Effect(Some(r.row), Settling(Done))
        else if r.Conflict? && StatusUpdateFrom(sub, ev, false).Ok? then
          Effect(None, Updating(sub, StatusUpdateFrom(sub, ev, false).value))
        else Effect(None, Settling(FAILURE))
  }

  /** A checkout looks for its owner first and only then fetches the subscription. */
  function DispatchEffect(ev: Event, subs: map<string, Subscription>, env: Environment): Effect {
    match Dispatch(ev)
    case Skip => Effect(None, Settling(if ev.kind.Unsubscribed? then NOT_SUBSCRIBED else NO_ACTION))
    case Fail => Effect(None, Settling(FAILURE))
    case ChangeSubscription(sub, u) => AfterUpdate(UpdateStatus(Get(subs, u.stripeId), u), Creating(sub))
    case RecordPayment(u) => AfterUpdate(RecordInvoice(Get(subs, u.stripeId), u), Settling(NO_ACTION))
    case Provision(_) =>
      Effect(None, if env.owner.None? then Settling(NO_ACTION)
                   else if env.fetched.None? then Settling(FAILURE)
                   else Creating(env.fetched.value))
  }

  function HealthyEffect(ev: Event, subs: map<string, Subscription>, pc: Pc, env: Environment): Effect {
    match pc
    case Dispatching => DispatchEffect(ev, subs, env)
    case Creating(sub) => CreateEffect(ev, subs, sub, env)
    case Updating(_, u) => AfterUpdate(UpdateStatus(Get(subs, u.stripeId), u), Settling(FAILURE))
    case Settling(_) => Effect(None, pc)
  }

  /** A fault loses the transaction, or loses only the news that it committed. */
  function Faulted(effect: Effect, fault: Fault): Effect {
    match fault
    case Healthy => effect
    case BeforeCommit => Effect(None, Settling(FAILURE))
    case AfterCommit => Effect(effect.write, Settling(FAILURE))
  }

  function WorkEffect(c: Config, w: World, k: nat, env: Environment): Effect
    requires k in w.workers
  {
    var worker := w.workers[k];
    if worker.payload.None? then
      Effect(None, Settling(NOT_RETAINED))
    else
      Faulted(HealthyEffect(c.decode(worker.payload.value), w.subs, worker.pc, env), env.fault)
  }

  /** Transactions a worker can still run, counting its settle. */
  function Remaining(pc: Pc): nat {
    match pc
    case Dispatching => 4
    case Creating(_) => 3
    case Updating(_, _) => 2
    case Settling(_) => 1
  }

  lemma EffectShortens(ev: Event, subs: map<string, Subscription>, pc: Pc, env: Environment)
    requires !pc.Settling?
    ensures Remaining(Faulted(HealthyEffect(ev, subs, pc, env), env.fault).pc) < Remaining(pc)
  {}

  /** The write a worker makes for its event at a program point; the row is not consulted. */
  function PathOf(ev: Event, pc: Pc, env: Environment): Path {
    match pc
    case Creating(sub) => ByInsert(sub, if env.owner.Some? then env.owner.value else "")
    case Updating(sub, _) => AfterRace(sub)
    case _ => if Dispatch(ev).ChangeSubscription? then ByUpdate(Dispatch(ev).sub) else ByPayment
  }

  function CommitOf(ev: Event, path: Path): Commit {
    Commit(Target(ev), StreamOf(ev), ev, path)
  }

  // ------------------------------------------------------------------ steps

  predicate Due(c: Config, w: World, e: string)
    requires e in w.ledger
  {
    Retryable(w.ledger[e], w.now, c.maxAttempts, c.baseBackoff, c.maxBackoff)
  }

  predicate Enabled(c: Config, w: World, s: Step) {
    match s
    case Deliver(e, k) => e in c.catalogue && k !in w.workers
    case List(es) => forall e :: e in es ==> e in w.ledger && Due(c, w, e)
    case Retry(l, k) => l in w.listed && l.event in w.ledger && k !in w.workers
    case Work(k, env) =>
      && k in w.workers && !w.workers[k].pc.Settling?
      && (w.workers[k].payload.Some? && env.fetched.Some? ==>
            var plan := Dispatch(c.decode(w.workers[k].payload.value));
            plan.Provision? ==> env.fetched.value.id == plan.subscriptionId && c.answers(env.fetched.value))
    case Finish(k) => k in w.workers && w.workers[k].pc.Settling? && w.workers[k].event in w.ledger
    case Die(k) => k in w.workers
    case Reclaim(es) => forall e :: e in es ==> e in w.ledger && Abandoned(w.ledger[e], w.now, c.sweepStale)
    case Purge(es) => es <= DueRows(w.ledger, w.now, c.settledAfter, c.unsettledAfter)
    case Tick(_) => true
  }

  function GrantsOf(w: World, e: string): Grants {
    if e in w.grants then w.grants[e] else Grants(0, 0)
  }

  /** A granted claim: the row is open again and a new worker holds it. */
  function Claimed(w: World, e: string, row: LedgerRow, k: nat, payload: Option<Json.Json>, g: Grants): World {
    w.(ledger := w.ledger[e := row],
       workers := w.workers[k := Worker(e, payload, Dispatching, w.now, row.attempts)],
       grants := w.grants[e := g])
  }

  function AfterDeliver(c: Config, w: World, e: string, k: nat): World
    requires e in c.catalogue
  {
    var claim := TryClaim(Get(w.ledger, e), c.catalogue[e], w.now, c.httpStale);
    var g := GrantsOf(w, e);
    if claim.None? then w
    else Claimed(w, e, claim.value, k, Some(c.catalogue[e]), Grants(g.http + 1, g.sweep))
  }

  function AfterRetry(c: Config, w: World, l: Listing, k: nat): World
    requires l.event in w.ledger
  {
    var claim := ClaimForRetry(w.ledger[l.event], c.maxAttempts, w.now);
    var g := GrantsOf(w, l.event);
    if claim.None? then w
    else Claimed(w, l.event, claim.value, k, l.payload, Grants(g.http, g.sweep + 1))
  }

  function AfterWork(c: Config, w: World, k: nat, env: Environment): World
    requires k in w.workers
  {
    var effect := WorkEffect(c, w, k, env);
    var moved := w.workers[k := w.workers[k].(pc := effect.pc)];
    if effect.write.None? || w.workers[k].payload.None? then w.(workers := moved)
    else
      var ev := c.decode(w.workers[k].payload.value);
      w.(workers := moved,
         subs := w.subs[effect.write.value.stripeId := effect.write.value],
         commits := w.commits + [CommitOf(ev, PathOf(ev, w.workers[k].pc, env))])
  }

  /** A settle that finds the row no longer processing changes nothing. */
  function AfterFinish(w: World, k: nat): World
    requires k in w.workers && w.workers[k].pc.Settling? && w.workers[k].event in w.ledger
  {
    var e := w.workers[k].event;
    var settled := Settle(w.ledger[e], w.workers[k].pc.verdict, w.now);
    w.(ledger := if settled.Some? then w.ledger[e := settled.value] else w.ledger,
       workers := w.workers - {k})
  }

  function Apply(c: Config, w: World, s: Step): World
    requires Enabled(c, w, s)
  {
    match s
    case Deliver(e, k) => AfterDeliver(c, w, e, k)
    case List(es) => w.(listed := w.listed + set e | e in es :: Listing(e, w.ledger[e].payload))
    case Retry(l, k) => AfterRetry(c, w, l, k)
    case Work(k, env) => AfterWork(c, w, k, env)
    case Finish(k) => AfterFinish(w, k)
    case Die(k) => w.(workers := w.workers - {k})
    case Reclaim(es) => w.(ledger := ReclaimRows(w.ledger, es, w.now))
    case Purge(es) => w.(ledger := PurgeRows(w.ledger, es, w.now))
    case Tick(d) => w.(now := w.now + d)
  }

  // ------------------------------------------------------------------- runs

  predicate IsRun(c: Config, w: World, steps: seq<Step>)
    decreases |steps|
  {
    steps == [] || (Enabled(c, w, steps[0]) && IsRun(c, Apply(c, w, steps[0]), steps[1..]))
  }

  function Final(c: Config, w: World, steps: seq<Step>): World
    requires IsRun(c, w, steps)
    decreases |steps|
  {
    if steps == [] then w else Final(c, Apply(c, w, steps[0]), steps[1..])
  }

  lemma {:induction false} RunAppend(c: Config, w: World, a: seq<Step>, b: seq<Step>)
    requires IsRun(c, w, a) && IsRun(c, Final(c, w, a), b)
    ensures IsRun(c, w, a + b) && Final(c, w, a + b) == Final(c, Final(c, w, a), b)
    decreases |a|
  {
    if a == [] {
      assert a + b == b;
    } else {
      assert (a + b)[0] == a[0] && (a + b)[1..] == a[1..] + b;
      RunAppend(c, Apply(c, w, a[0]), a[1..], b);
    }
  }

  lemma RunPrepend(c: Config, w: World, s: Step, rest: seq<Step>)
    requires Enabled(c, w, s) && IsRun(c, Apply(c, w, s), rest)
    ensures IsRun(c, w, [s] + rest) && Final(c, w, [s] + rest) == Final(c, Apply(c, w, s), rest)
  {
    assert ([s] + rest)[1..] == rest;
  }
}
