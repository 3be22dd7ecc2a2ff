/**
 * The webhook service as code: ProcessEvent, ReplayEvent and the sweeper's retry loop drive
 * the repositories statement by statement, and every call is a run of the protocol.
 */
module Service {
  import opened Domain
  import opened Ledger
  import opened Subscriptions
  import opened Events
  import opened Protocol
  import Json

  type Table = map<string, Subscription>

  /** What a call reports: not granted the claim, or settled with a verdict. */
  datatype Outcome = Duplicate | Concluded(verdict: Verdict)

  function Stored(subs: Table, effect: Effect): Table {
    if effect.write.Some? then subs[effect.write.value.stripeId := effect.write.value] else subs
  }

  /** A worker's transactions run back to back; each consumes one answer of the outside world. */
  function WorkOn(ev: Event, subs: Table, pc: Pc, envs: seq<Environment>): (Table, Verdict)
    requires |envs| + 1 >= Remaining(pc)
    decreases |envs|
  {
    if pc.Settling? then (subs, pc.verdict)
    else
      EffectShortens(ev, subs, pc, envs[0]);
      var effect := Faulted(HealthyEffect(ev, subs, pc, envs[0]), envs[0].fault);
      WorkOn(ev, Stored(subs, effect), effect.pc, envs[1..])
  }

  /** The whole handling of a claimed payload, up to but not including the settle. */
  function Handling(decode: Json.Json -> Event, payload: Option<Json.Json>, subs: Table, envs: seq<Environment>): (Table, Verdict)
    requires |envs| == 3
  {
    if payload.None? then (subs, NOT_RETAINED) else WorkOn(decode(payload.value), subs, Dispatching, envs)
  }

  /** A checkout resolves its owner once, before it fetches the subscription. */
  predicate OwnerResolvedOnce(ev: Event, envs: seq<Environment>) {
    Dispatch(ev).Provision? && |envs| >= 2 ==> envs[0].owner == envs[1].owner
  }

  /** GetSubscription answers with the subscription that was asked for. */
  predicate HonestFetch(c: Config, ev: Event, envs: seq<Environment>) {
    Dispatch(ev).Provision? ==>
      forall i :: 0 <= i < |envs| && envs[i].fetched.Some? ==>
        envs[i].fetched.value.id == Dispatch(ev).subscriptionId && c.answers(envs[i].fetched.value)
  }

  /** A statement that committed but whose answer was lost is reported as a failure. */
  function Reported(v: Verdict, fault: Fault): Verdict {
    if fault.Healthy? then v else FAILURE
  }

  // ------------------------------------------------------------ the service

  class WebhookService {
    const hooks: WebhookRepo
    const subs: SubscriptionRepo

    constructor (hooks: WebhookRepo, subs: SubscriptionRepo)
      ensures this.hooks == hooks && this.subs == subs
    {
      this.hooks := hooks;
      this.subs := subs;
    }

    /** The update that follows a lost insert race. */
    method UpdateAfterConflict(ev: Event, sub: StripeSub, u: StatusUpdate, env: Environment) returns (v: Verdict)
      requires LegalTable(subs.rows)
      modifies subs
      ensures LegalTable(subs.rows)
      ensures (subs.rows, v) == WorkOn(ev, old(subs.rows), Updating(sub, u), [env])
    {
      if env.fault.BeforeCommit? {
        return FAILURE;
      }
      var r := subs.UpdateSubscriptionStatus(u);
      v := Reported(if r.Written? || r.Stale? then Done else FAILURE, env.fault);
    }

    /** Insert the row, and update it if a concurrent delivery won the insert. */
    method UpsertSubscription(ev: Event, sub: StripeSub, owner: string, envs: seq<Environment>) returns (v: Verdict)
      requires LegalTable(subs.rows) && |envs| == 2 && envs[0].owner == Some(owner)
      modifies subs
      ensures LegalTable(subs.rows)
      ensures (subs.rows, v) == WorkOn(ev, old(subs.rows), Creating(sub), envs)
    {
      var record := SubscriptionFrom(owner, sub, ev);
      if record.Err? || envs[0].fault.BeforeCommit? {
        return FAILURE;
      }
      var r := subs.CreateSubscription(record.value, envs[0].ownerExists);
      if r.Written? {
        return Reported(Done, envs[0].fault);
      }
      var u := StatusUpdateFrom(sub, ev, false);
      if r.Conflict? && u.Ok? && envs[0].fault.Healthy? {
        assert envs[1..] == [envs[1]];
        v := UpdateAfterConflict(ev, sub, u.value, envs[1]);
        return;
      }
      return FAILURE;
    }

    /** A subscription seen for the first time on a lifecycle event. */
    method CreateFromEvent(ev: Event, sub: StripeSub, envs: seq<Environment>) returns (v: Verdict)
      requires LegalTable(subs.rows) && |envs| == 2
      modifies subs
      ensures LegalTable(subs.rows)
      ensures (subs.rows, v) == WorkOn(ev, old(subs.rows), Creating(sub), envs)
    {
      if envs[0].owner.None? {
        return Reported(NO_ACTION, envs[0].fault);
      }
      v := UpsertSubscription(ev, sub, envs[0].owner.value, envs);
    }

    method HandleSubscriptionChanged(ev: Event, sub: StripeSub, u: StatusUpdate, envs: seq<Environment>) returns (v: Verdict)
      requires LegalTable(subs.rows) && |envs| == 3 && Dispatch(ev) == ChangeSubscription(sub, u)
      modifies subs
      ensures LegalTable(subs.rows)
      ensures (subs.rows, v) == WorkOn(ev, old(subs.rows), Dispatching, envs)
    {
      if envs[0].fault.BeforeCommit? {
        return FAILURE;
      }
      var r := subs.UpdateSubscriptionStatus(u);
      if r.NotFound? && envs[0].fault.Healthy? {
        v := CreateFromEvent(ev, sub, envs[1..]);
        return;
      }
      return Reported(if r.Written? || r.Stale? then Done else FAILURE, envs[0].fault);
    }

    method HandleInvoicePayment(ev: Event, u: InvoiceUpdate, envs: seq<Environment>) returns (v: Verdict)
      requires LegalTable(subs.rows) && |envs| == 3 && Dispatch(ev) == RecordPayment(u)
      modifies subs
      ensures LegalTable(subs.rows)
      ensures (subs.rows, v) == WorkOn(ev, old(subs.rows), Dispatching, envs)
    {
      if envs[0].fault.BeforeCommit? {
        return FAILURE;
      }
      var r := subs.RecordInvoicePayment(u);
      v := if r.NotFound? then NO_ACTION else if r.Written? || r.Stale? then Done else FAILURE;
      v := Reported(v, envs[0].fault);
    }

    method HandleCheckoutCompleted(ev: Event, envs: seq<Environment>) returns (v: Verdict)
      requires LegalTable(subs.rows) && |envs| == 3 && Dispatch(ev).Provision?
      requires OwnerResolvedOnce(ev, envs)
      modifies subs
      ensures LegalTable(subs.rows)
      ensures (subs.rows, v) == WorkOn(ev, old(subs.rows), Dispatching, envs)
    {
      if envs[0].owner.None? {
        return Reported(NO_ACTION, envs[0].fault);
      }
      if envs[0].fetched.None? || !envs[0].fault.Healthy? {
        return FAILURE;
      }
      v := UpsertSubscription(ev, envs[0].fetched.value, envs[0].owner.value, envs[1..]);
    }

    method DispatchEvent(ev: Event, envs: seq<Environment>) returns (v: Verdict)
      requires LegalTable(subs.rows) && |envs| == 3 && OwnerResolvedOnce(ev, envs)
      modifies subs
      ensures LegalTable(subs.rows)
      ensures (subs.rows, v) == WorkOn(ev, old(subs.rows), Dispatching, envs)
    {
      match Dispatch(ev)
      case Skip =>
        v := Reported(if ev.kind.Unsubscribed? then NOT_SUBSCRIBED else NO_ACTION, envs[0].fault);
      case Fail => v := FAILURE;
      case ChangeSubscription(sub, u) => v := HandleSubscriptionChanged(ev, sub, u, envs);
      case RecordPayment(u) => v := HandleInvoicePayment(ev, u, envs);
      case Provision(_) => v := HandleCheckoutCompleted(ev, envs);
    }

    /** Claim, dispatch, settle. The claim commits on its own, before any work is done. */
    method ProcessEvent(id: string, body: Json.Json, decode: Json.Json -> Event, envs: seq<Environment>, now: Time, settledAt: Time)
      returns (outcome: Outcome)
      requires LegalRows(hooks.rows) && LegalTable(subs.rows)
      requires |envs| == 3 && OwnerResolvedOnce(decode(body), envs)
      modifies hooks, subs
      ensures LegalRows(hooks.rows) && LegalTable(subs.rows)
      ensures var claim := TryClaim(Get(old(hooks.rows), id), body, now, hooks.staleClaimAfter);
              if claim.None? then
                outcome == Duplicate && hooks.rows == old(hooks.rows) && subs.rows == old(subs.rows)
              else
                var (table, v) := Handling(decode, Some(body), old(subs.rows), envs);
                && outcome == Concluded(v) && subs.rows == table
                && Settle(claim.value, v, settledAt).Some?
                && hooks.rows == old(hooks.rows)[id := Settle(claim.value, v, settledAt).value]
    {
      var claimed := hooks.TryClaimEvent(id, body, now);
      if !claimed {
        return Duplicate;
      }
      var v := DispatchEvent(decode(body), envs);
      var settled := hooks.MarkEvent(id, v, settledAt);
      return Concluded(v);
    }

    /** Re-runs a stored event whose claim the caller already holds. */
    method ReplayEvent(record: Listing, decode: Json.Json -> Event, envs: seq<Environment>, settledAt: Time)
      returns (v: Verdict)
      requires LegalRows(hooks.rows) && LegalTable(subs.rows)
      requires record.event in hooks.rows && hooks.rows[record.event].status == Processing
      requires |envs| == 3 && (record.payload.Some? ==> OwnerResolvedOnce(decode(record.payload.value), envs))
      modifies hooks, subs
      ensures LegalRows(hooks.rows) && LegalTable(subs.rows)
      ensures (subs.rows, v) == Handling(decode, record.payload, old(subs.rows), envs)
      ensures Settle(old(hooks.rows)[record.event], v, settledAt).Some?
      ensures hooks.rows == old(hooks.rows)[record.event := Settle(old(hooks.rows)[record.event], v, settledAt).value]
    {
      if record.payload.None? {
        v := NOT_RETAINED;
      } else {
        v := DispatchEvent(decode(record.payload.value), envs);
      }
      var settled := hooks.MarkEvent(record.event, v, settledAt);
    }
  }
}

/**
 * A service call that nothing interferes with is a protocol run, so it keeps whatever every
 * run keeps. Calls that do interfere are runs in which their steps alternate.
 */
module ServiceRuns {
  import opened Domain
  import opened Ledger
  import opened Subscriptions
  import opened Events
  import opened Protocol
  import opened Service
  import Convergence
  import Json

  /** Nothing but the table, its history and one worker's program point has changed. */
  ghost predicate OnlyWorked(w: World, w': World, k: nat, table: Table, v: Verdict)
    requires k in w.workers
  {
    && w' == w.(subs := table, commits := w'.commits, workers := w'.workers)
    && w'.workers == w.workers[k := w.workers[k].(pc := Settling(v))]
  }

  /** One Work step is one transaction of WorkOn. */
  lemma OneTransaction(c: Config, w: World, k: nat, ev: Event, env: Environment)
    requires k in w.workers && w.workers[k].payload.Some? && c.decode(w.workers[k].payload.value) == ev
    requires !w.workers[k].pc.Settling? && HonestFetch(c, ev, [env])
    ensures Enabled(c, w, Work(k, env))
    ensures var effect, w' := Faulted(HealthyEffect(ev, w.subs, w.workers[k].pc, env), env.fault), Apply(c, w, Work(k, env));
            && w' == w.(subs := Stored(w.subs, effect), commits := w'.commits, workers := w'.workers)
            && w'.workers == w.workers[k := w.workers[k].(pc := effect.pc)]
  {
    assert [env][0] == env;
  }

  lemma WorkedFurther(w: World, w1: World, f: World, k: nat, table: Table, v: Verdict)
    requires k in w.workers && k in w1.workers && OnlyWorked(w1, f, k, table, v)
    requires w1 == w.(subs := w1.subs, commits := w1.commits, workers := w1.workers)
    requires w1.workers == w.workers[k := w.workers[k].(pc := w1.workers[k].pc)]
    ensures OnlyWorked(w, f, k, table, v)
  {}

  lemma {:induction false} WorkOnIsRun(c: Config, w: World, k: nat, ev: Event, envs: seq<Environment>) returns (steps: seq<Step>)
    requires k in w.workers && w.workers[k].payload.Some? && c.decode(w.workers[k].payload.value) == ev
    requires |envs| + 1 >= Remaining(w.workers[k].pc) && HonestFetch(c, ev, envs)
    ensures IsRun(c, w, steps)
    ensures var (table, v) := WorkOn(ev, w.subs, w.workers[k].pc, envs);
            OnlyWorked(w, Final(c, w, steps), k, table, v)
    decreases |envs|
  {
    var pc := w.workers[k].pc;
    if pc.Settling? {
      steps := [];
    } else {
      EffectShortens(ev, w.subs, pc, envs[0]);
      assert HonestFetch(c, ev, [envs[0]]) && HonestFetch(c, ev, envs[1..]);
      OneTransaction(c, w, k, ev, envs[0]);
      var rest := WorkOnIsRun(c, Apply(c, w, Work(k, envs[0])), k, ev, envs[1..]);
      RunPrepend(c, w, Work(k, envs[0]), rest);
      steps := [Work(k, envs[0])] + rest;
      var (table, v) := WorkOn(ev, w.subs, pc, envs);
      WorkedFurther(w, Apply(c, w, Work(k, envs[0])), Final(c, w, steps), k, table, v);
    }
  }

  lemma HandlingIsRun(c: Config, w: World, k: nat, envs: seq<Environment>) returns (steps: seq<Step>)
    requires k in w.workers && w.workers[k].pc.Dispatching? && |envs| == 3
    requires w.workers[k].payload.Some? ==> HonestFetch(c, c.decode(w.workers[k].payload.value), envs)
    ensures IsRun(c, w, steps)
    ensures var (table, v) := Handling(c.decode, w.workers[k].payload, w.subs, envs);
            OnlyWorked(w, Final(c, w, steps), k, table, v)
  {
    if w.workers[k].payload.None? {
      var s := Work(k, envs[0]);
      steps := [s];
      assert steps[1..] == [];
    } else {
      steps := WorkOnIsRun(c, w, k, c.decode(w.workers[k].payload.value), envs);
    }
  }

  /** A claimed event handled and settled without interference. */
  lemma EpisodeIsRun(c: Config, w: World, k: nat, envs: seq<Environment>, elapsed: nat) returns (steps: seq<Step>)
    requires k in w.workers && w.workers[k].pc.Dispatching? && |envs| == 3
    requires w.workers[k].payload.Some? ==> HonestFetch(c, c.decode(w.workers[k].payload.value), envs)
    requires w.workers[k].event in w.ledger && w.ledger[w.workers[k].event].status == Processing
    ensures IsRun(c, w, steps)
    ensures var (table, v) := Handling(c.decode, w.workers[k].payload, w.subs, envs);
            var e, f := w.workers[k].event, Final(c, w, steps);
            && f.subs == table && f.workers == w.workers - {k} && f.listed == w.listed
            && Settle(w.ledger[e], v, w.now + elapsed).Some? && f.now == w.now + elapsed
            && f.ledger == w.ledger[e := Settle(w.ledger[e], v, w.now + elapsed).value]
  {
    var work := HandlingIsRun(c, w, k, envs);
    var w1 := Final(c, w, work);
    SettleLater(c, w1, k, elapsed);
    RunAppend(c, w, work, [Tick(elapsed), Finish(k)]);
    steps := work + [Tick(elapsed), Finish(k)];
    assert w1.workers - {k} == w.workers - {k};
  }

  lemma SettleLater(c: Config, w: World, k: nat, elapsed: nat)
    requires k in w.workers && w.workers[k].pc.Settling?
    requires w.workers[k].event in w.ledger && w.ledger[w.workers[k].event].status == Processing
    ensures IsRun(c, w, [Tick(elapsed), Finish(k)])
    ensures var e, f := w.workers[k].event, Final(c, w, [Tick(elapsed), Finish(k)]);
            var settled := Settle(w.ledger[e], w.workers[k].pc.verdict, w.now + elapsed);
            settled.Some? && f == w.(ledger := w.ledger[e := settled.value], workers := w.workers - {k}, now := w.now + elapsed)
  {
    var steps := [Tick(elapsed), Finish(k)];
    var w1 := Apply(c, w, Tick(elapsed));
    assert steps[1..] == [Finish(k)];
    assert [Finish(k)][1..] == [];
    assert Final(c, w1, [Finish(k)]) == Apply(c, w1, Finish(k));
  }

  /** ProcessEvent's contract, read as a run: deliver, work, let time pass, settle. */
  lemma ProcessEventIsRun(c: Config, w: World, k: nat, e: string, envs: seq<Environment>, elapsed: nat) returns (steps: seq<Step>)
    requires e in c.catalogue && k !in w.workers && |envs| == 3 && HonestFetch(c, c.decode(c.catalogue[e]), envs)
    requires TryClaim(Get(w.ledger, e), c.catalogue[e], w.now, c.httpStale).Some?
    ensures IsRun(c, w, steps)
    ensures var open := TryClaim(Get(w.ledger, e), c.catalogue[e], w.now, c.httpStale).value;
            var (table, v) := Handling(c.decode, Some(c.catalogue[e]), w.subs, envs);
            var f := Final(c, w, steps);
            && f.subs == table && f.workers == w.workers && f.now == w.now + elapsed
            && Settle(open, v, w.now + elapsed).Some?
            && f.ledger == w.ledger[e := Settle(open, v, w.now + elapsed).value]
  {
    var claim := Deliver(e, k);
    var w1 := Apply(c, w, claim);
    var rest := EpisodeIsRun(c, w1, k, envs, elapsed);
    steps := [claim] + rest;
    assert steps[1..] == rest;
    assert w1.workers - {k} == w.workers;
  }

  /** One turn of the sweeper's loop: a listed event claimed, replayed and settled. */
  lemma ReplayIsRun(c: Config, w: World, k: nat, l: Listing, envs: seq<Environment>, elapsed: nat) returns (steps: seq<Step>)
    requires l in w.listed && l.event in w.ledger && k !in w.workers && |envs| == 3
    requires l.payload.Some? ==> HonestFetch(c, c.decode(l.payload.value), envs)
    requires ClaimForRetry(w.ledger[l.event], c.maxAttempts, w.now).Some?
    ensures IsRun(c, w, steps)
    ensures var open := ClaimForRetry(w.ledger[l.event], c.maxAttempts, w.now).value;
            var (table, v) := Handling(c.decode, l.payload, w.subs, envs);
            var f := Final(c, w, steps);
            && f.subs == table && f.workers == w.workers && f.now == w.now + elapsed && f.listed == w.listed
            && Settle(open, v, w.now + elapsed).Some?
            && f.ledger == w.ledger[l.event := Settle(open, v, w.now + elapsed).value]
  {
    var claim := Retry(l, k);
    var w1 := Apply(c, w, claim);
    var rest := EpisodeIsRun(c, w1, k, envs, elapsed);
    steps := [claim] + rest;
    assert steps[1..] == rest;
    assert w1.workers - {k} == w.workers;
  }

  /** What one turn of the loop meets: the claim may error, and handling takes time. */
  datatype Turn = Turn(claimErrs: bool, envs: seq<Environment>, elapsed: nat)

  /**
   * The sweeper's retry loop over a listing that may have gone stale. The pass is a run of
   * the protocol, counts what it claimed and what it recovered, and strands no claim.
   */
  method RetryFailed(service: WebhookService, events: seq<Listing>, turns: seq<Turn>, stopAfter: nat,
                     maxAttempts: int, decode: Json.Json -> Event, now: Time, ghost c: Config, ghost w: World, ghost k: nat)
    returns (attempted: nat, recovered: nat, ghost steps: seq<Step>)
    requires LegalRows(service.hooks.rows) && LegalTable(service.subs.rows)
    requires w.ledger == service.hooks.rows && w.subs == service.subs.rows && w.now == now && k !in w.workers
    requires c.maxAttempts == maxAttempts && c.decode == decode && |turns| == |events|
    requires forall i :: 0 <= i < |events| ==> Replayable(c, w, events[i], turns[i].envs)
    modifies service.hooks, service.subs
    ensures LegalRows(service.hooks.rows) && LegalTable(service.subs.rows)
    ensures IsRun(c, w, steps)
    ensures Final(c, w, steps).ledger == service.hooks.rows && Final(c, w, steps).subs == service.subs.rows
    ensures Final(c, w, steps).workers == w.workers
    ensures recovered <= attempted <= |events|
    ensures NoneStranded(old(service.hooks.rows), service.hooks.rows)
  {
    attempted, recovered, steps := 0, 0, [];
    ghost var at := w;
    var i, clock := 0, now;
    while i < |events| && i < stopAfter
      invariant 0 <= i <= |events| && recovered <= attempted <= i
      invariant LegalRows(service.hooks.rows) && LegalTable(service.subs.rows)
      invariant IsRun(c, w, steps) && Final(c, w, steps) == at && at.now == clock
      invariant Mirrors(at, w, service.hooks.rows, service.subs.rows)
      invariant NoneStranded(old(service.hooks.rows), service.hooks.rows)
    {
      assert Replayable(c, w, events[i], turns[i].envs);
      if !turns[i].claimErrs {
        var claimed, cured;
        ghost var turn;
        claimed, cured, clock, turn := RetryOne(service, events[i], turns[i], maxAttempts, decode, clock, c, at, k);
        RunAppend(c, w, steps, turn);
        steps, at := steps + turn, Final(c, at, turn);
        attempted := if claimed then attempted + 1 else attempted;
        recovered := if cured then recovered + 1 else recovered;
      }
      i := i + 1;
    }
  }

  /** One turn: the claim may be refused, because a redelivery or another sweeper was faster. */
  method RetryOne(service: WebhookService, l: Listing, turn: Turn, maxAttempts: int,
                  decode: Json.Json -> Event, now: Time, ghost c: Config, ghost w: World, ghost k: nat)
    returns (claimed: bool, cured: bool, clock: Time, ghost steps: seq<Step>)
    requires LegalRows(service.hooks.rows) && LegalTable(service.subs.rows)
    requires w.ledger == service.hooks.rows && w.subs == service.subs.rows && w.now == now && k !in w.workers
    requires c.maxAttempts == maxAttempts && c.decode == decode && Replayable(c, w, l, turn.envs)
    modifies service.hooks, service.subs
    ensures LegalRows(service.hooks.rows) && LegalTable(service.subs.rows)
    ensures IsRun(c, w, steps) && Mirrors(Final(c, w, steps), w, service.hooks.rows, service.subs.rows)
    ensures Final(c, w, steps).now == clock == if claimed then now + turn.elapsed else now
    ensures claimed <==> ClaimForRetry(w.ledger[l.event], maxAttempts, now).Some?
    ensures cured ==> claimed && service.hooks.rows[l.event].Settled()
    ensures NoneStranded(w.ledger, service.hooks.rows)
  {
    claimed := service.hooks.ClaimEventForRetry(l.event, maxAttempts, now);
    if !claimed {
      return false, false, now, [];
    }
    clock := now + turn.elapsed;
    steps := TurnIsRun(c, w, k, l, turn);
    ghost var open := service.hooks.rows[l.event];
    var v := service.ReplayEvent(l, decode, turn.envs, clock);
    LastUpdateWins(w.ledger, l.event, open, Settle(open, v, clock).value);
    cured := !v.Error?;
  }

  lemma LastUpdateWins<K, V>(m: map<K, V>, k: K, a: V, b: V)
    ensures m[k := a][k := b] == m[k := b]
  {}

  /** A granted turn as a run: what it mirrors, and that the row it opened is closed again. */
  lemma TurnIsRun(c: Config, w: World, k: nat, l: Listing, turn: Turn) returns (steps: seq<Step>)
    requires Replayable(c, w, l, turn.envs) && k !in w.workers
    requires ClaimForRetry(w.ledger[l.event], c.maxAttempts, w.now).Some?
    ensures IsRun(c, w, steps)
    ensures var open, clock := ClaimForRetry(w.ledger[l.event], c.maxAttempts, w.now).value, w.now + turn.elapsed;
            var (table, v) := Handling(c.decode, l.payload, w.subs, turn.envs);
            && Settle(open, v, clock).Some?
            && var rows := w.ledger[l.event := Settle(open, v, clock).value];
               && Mirrors(Final(c, w, steps), w, rows, table) && Final(c, w, steps).now == clock
               && NoneStranded(w.ledger, rows) && (!v.Error? ==> rows[l.event].Settled())
  {
    steps := ReplayIsRun(c, w, k, l, turn.envs, turn.elapsed);
    var v := Handling(c.decode, l.payload, w.subs, turn.envs).1;
    SettledStrandsNone(w.ledger, l.event, ClaimForRetry(w.ledger[l.event], c.maxAttempts, w.now).value, v, w.now + turn.elapsed);
  }

  /** A listing taken from this ledger, with answers that fit its payload. */
  ghost predicate Replayable(c: Config, w: World, l: Listing, envs: seq<Environment>) {
    && l in w.listed && l.event in w.ledger && |envs| == 3
    && (l.payload.Some? ==>
          HonestFetch(c, c.decode(l.payload.value), envs) && OwnerResolvedOnce(c.decode(l.payload.value), envs))
  }

  ghost predicate Mirrors(at: World, w: World, rows: Rows, table: Table) {
    && at.ledger == rows && at.subs == table
    && at.workers == w.workers && at.listed == w.listed && at.ledger.Keys == w.ledger.Keys
  }

  /** No row is left processing that was not processing before. */
  ghost predicate NoneStranded(before: Rows, after: Rows) {
    before.Keys <= after.Keys
    && forall e :: e in before && after[e].status == Processing ==> before[e].status == Processing
  }

  lemma SettledStrandsNone(rows: Rows, e: string, open: LedgerRow, v: Verdict, now: Time)
    requires Settle(open, v, now).Some?
    ensures NoneStranded(rows, rows[e := Settle(open, v, now).value])
    ensures !v.Error? ==> Settle(open, v, now).value.Settled()
  {}

  // ------------------------------------------------- the convergence theorem's step

  /** A healthy answer with a known owner who is still there. */
  predicate Calm(env: Environment, owner: string) {
    env.fault.Healthy? && env.owner == Some(owner) && env.ownerExists
  }

  function Put(subs: Table, t: string, row: Option<Subscription>): Table {
    if row.Some? then subs[t := row.value] else subs
  }

  /**
   * A lifecycle event handled without interference does to its row what the convergence
   * results fold, and touches no other row.
   */
  lemma HandlingIsTheFoldStep(ev: Event, subs: Table, envs: seq<Environment>, owner: string)
    requires LegalTable(subs) && |envs| == 3 && Calm(envs[0], owner) && Calm(envs[1], owner)
    requires Dispatch(ev).ChangeSubscription?
    ensures WorkOn(ev, subs, Dispatching, envs).0 ==
            Put(subs, Target(ev), Convergence.Handle(Get(subs, Target(ev)), ev, owner))
  {
    if Target(ev) in subs {
      SeenBefore(ev, subs, envs, owner);
    } else {
      var u := Dispatch(ev).update;
      assert UpdateStatus(Get(subs, u.stripeId), u).NotFound?;
      FirstSeen(ev, subs, Dispatch(ev).sub, envs[1..], owner);
    }
  }

  lemma SeenBefore(ev: Event, subs: Table, envs: seq<Environment>, owner: string)
    requires LegalTable(subs) && |envs| == 3 && Calm(envs[0], owner)
    requires Dispatch(ev).ChangeSubscription? && Target(ev) in subs
    ensures WorkOn(ev, subs, Dispatching, envs).0 ==
            Put(subs, Target(ev), Convergence.Handle(Some(subs[Target(ev)]), ev, owner))
  {
    var u := Dispatch(ev).update;
    var r := UpdateStatus(Some(subs[Target(ev)]), u);
    assert u.stripeId == Target(ev) && !r.NotFound?;
    assert HealthyEffect(ev, subs, Dispatching, envs[0]) == AfterUpdate(r, Creating(Dispatch(ev).sub));
  }

  lemma FirstSeen(ev: Event, subs: Table, sub: StripeSub, envs: seq<Environment>, owner: string)
    requires |envs| == 2 && Calm(envs[0], owner) && sub.id !in subs
    ensures var record := SubscriptionFrom(owner, sub, ev);
            WorkOn(ev, subs, Creating(sub), envs).0 ==
            if record.Ok? && Checks(record.value) then subs[sub.id := record.value] else subs
  {}
}
