/**
 * The webhook ledger: one row per Stripe event, ever. Each SQL statement is a function on
 * one row, and the repository applies it in place.
 */
module Ledger {
  import opened Domain
  import Json
  import Text

  datatype WebhookStatus = Processing | Succeeded | Failed | Skipped

  datatype LedgerRow = LedgerRow(
    status: WebhookStatus,
    attempts: int,
    lastError: Option<string>,
    payload: Option<Json.Json>,
    purgedAt: Option<Time>,
    receivedAt: Time,
    processedAt: Option<Time>,
    updatedAt: Time)   // owned by a trigger: every statement that changes the row moves it
  {
    predicate Settled() { status == Succeeded || status == Skipped }
  }

  /** The CHECK constraints of processed_webhooks. */
  predicate Legal(r: LedgerRow) {
    && r.attempts >= 1
    && (r.Settled() <==> r.processedAt.Some?)
    && (r.status == Failed ==> r.lastError.Some?)
    && (r.purgedAt.Some? && r.payload.Some? ==> Json.PurgeCheck(r.payload.value))
  }

  // ------------------------------------------------------------ statements

  predicate Abandoned(r: LedgerRow, now: Time, staleAfter: Time) {
    r.status == Processing && r.updatedAt < now - staleAfter
  }

  function Inserted(payload: Json.Json, now: Time): LedgerRow {
    LedgerRow(Processing, 1, None, Some(payload), None, now, None, now)
  }

  function Reopened(r: LedgerRow, now: Time): LedgerRow {
    r.(status := Processing, attempts := r.attempts + 1, lastError := None, updatedAt := now)
  }

  /** TryClaimEvent: insert, or take over a failed or stale row. None means no row came back. */
  function TryClaim(row: Option<LedgerRow>, payload: Json.Json, now: Time, staleAfter: Time): Option<LedgerRow> {
    if row.None? then Some(Inserted(payload, now))
    else if row.value.status == Failed || Abandoned(row.value, now, staleAfter)
    then Some(Reopened(row.value, now))
    else None
  }

  /** ClaimEventForRetry: the attempt budget is part of the statement. */
  function ClaimForRetry(r: LedgerRow, maxAttempts: int, now: Time): Option<LedgerRow> {
    if r.status == Failed && r.attempts < maxAttempts then Some(Reopened(r, now)) else None
  }

  datatype Verdict = Done | Ignore(reason: string) | Error(cause: string)

  function FailureReason(cause: string): string {
    if cause == "" then "unspecified failure" else Text.Truncated(cause)
  }

  /** MarkEventProcessed, MarkEventSkipped and MarkEventFailed. None is ErrEventNotClaimed. */
  function Settle(r: LedgerRow, v: Verdict, now: Time): Option<LedgerRow> {
    if r.status != Processing then None else
      Some(match v
           case Done => r.(status := Succeeded, processedAt := Some(now), lastError := None, updatedAt := now)
           case Ignore(reason) => r.(status := Skipped, processedAt := Some(now), lastError := Some(Text.Truncated(reason)), updatedAt := now)
           case Error(cause) => r.(status := Failed, processedAt := None, lastError := Some(FailureReason(cause)), updatedAt := now))
  }

  function Reclaimed(r: LedgerRow, now: Time): LedgerRow {
    r.(status := Failed, lastError := Some("claim abandoned by a worker that did not settle it"),
       processedAt := None, updatedAt := now)
  }

  function Pow2(n: nat): (p: nat)
    ensures p >= 1
  {
    if n == 0 then 1 else 2 * Pow2(n - 1)
  }

  /** LEAST(base * 2^(attempts-1), cap). */
  function Backoff(base: nat, cap: nat, attempts: int): (d: nat)
    ensures d <= cap
  {
    var raw := base * Pow2(if attempts >= 1 then attempts - 1 else 0);
    if raw < cap then raw else cap
  }

  /** The wait doubles with every attempt until it reaches the cap. */
  lemma BackoffDoubles(base: nat, cap: nat, attempts: int)
    requires attempts >= 1
    ensures Backoff(base, cap, 1) == if base < cap then base else cap
    ensures Backoff(base, cap, attempts + 1) ==
            if 2 * Backoff(base, cap, attempts) < cap then 2 * Backoff(base, cap, attempts) else cap
  {
    var raw := base * Pow2(attempts - 1);
    assert base * Pow2(attempts) == 2 * raw by {
      assert Pow2(attempts) == 2 * Pow2(attempts - 1);
    }
    assert Pow2(0) == 1;
  }

  predicate Retryable(r: LedgerRow, now: Time, maxAttempts: int, base: nat, cap: nat) {
    r.status == Failed && r.attempts < maxAttempts && r.updatedAt < now - Backoff(base, cap, r.attempts)
  }

  predicate Purgeable(r: LedgerRow, now: Time, settledAfter: Time, unsettledAfter: Time) {
    && r.payload.Some? && r.purgedAt.None?
    && (|| (r.Settled() && r.receivedAt < now - settledAfter)
        || (r.status == Failed && r.receivedAt < now - unsettledAfter))
  }

  function Purged(r: LedgerRow, now: Time): LedgerRow {
    r.(payload := if r.payload.Some? then Some(Json.Skeleton(r.payload.value)) else None,
       purgedAt := Some(now), updatedAt := now)
  }

  type Rows = map<string, LedgerRow>

  function ReclaimRows(rows: Rows, ids: set<string>, now: Time): (r: Rows)
    ensures r.Keys == rows.Keys
  {
    map e | e in rows :: if e in ids then Reclaimed(rows[e], now) else rows[e]
  }

  function PurgeRows(rows: Rows, ids: set<string>, now: Time): (r: Rows)
    ensures r.Keys == rows.Keys
  {
    map e | e in rows :: if e in ids then Purged(rows[e], now) else rows[e]
  }

  function DueRows(rows: Rows, now: Time, settledAfter: Time, unsettledAfter: Time): (due: set<string>)
    ensures due <= rows.Keys
  {
    set e | e in rows && Purgeable(rows[e], now, settledAfter, unsettledAfter)
  }

  ghost predicate LegalRows(rows: Rows) {
    forall e :: e in rows ==> Legal(rows[e])
  }

  // ------------------------------------------------------------ properties

  /** Every statement keeps the CHECK constraints. */
  lemma StatementsKeepChecks(r: LedgerRow, now: Time, v: Verdict)
    requires Legal(r)
    ensures r.status == Failed || r.status == Processing ==> Legal(Reopened(r, now))
    ensures Settle(r, v, now).Some? ==> Legal(Settle(r, v, now).value)
    ensures r.status == Processing ==> Legal(Reclaimed(r, now))
    ensures Legal(Purged(r, now))
  {
    if r.payload.Some? {
      Json.SkeletonPassesPurgeCheck(r.payload.value);
    }
  }

  lemma BatchesKeepChecks(rows: Rows, ids: set<string>, now: Time)
    requires LegalRows(rows)
    ensures (forall e :: e in ids && e in rows ==> rows[e].status == Processing) ==>
            LegalRows(ReclaimRows(rows, ids, now))
    ensures LegalRows(PurgeRows(rows, ids, now))
  {
    forall e | e in rows
      ensures Legal(Purged(rows[e], now))
      ensures rows[e].status == Processing ==> Legal(Reclaimed(rows[e], now))
    {
      StatementsKeepChecks(rows[e], now, Done);
    }
  }

  // ------------------------------------------------------------ repository

  datatype PurgeResult = PurgeResult(settled: nat, unsettled: nat) {
    function Total(): nat { settled + unsettled }

    function Plus(other: PurgeResult): PurgeResult {
      PurgeResult(settled + other.settled, unsettled + other.unsettled)
    }
  }

  ghost function WithFailed(rows: Rows, ids: set<string>, failed: bool): set<string>
    requires ids <= rows.Keys
  {
    set e | e in ids && (rows[e].status == Failed) == failed
  }

  /** How many of the given rows are settled, and how many are not. */
  ghost function CountByStatus(rows: Rows, ids: set<string>): PurgeResult
    requires ids <= rows.Keys
  {
    PurgeResult(|WithFailed(rows, ids, false)|, |WithFailed(rows, ids, true)|)
  }

  function Min(a: nat, b: nat): nat { if a < b then a else b }

  class WebhookRepo {
    var rows: Rows
    const staleClaimAfter: Time

    /** A non-positive window selects the default of five minutes. */
    constructor (staleClaimAfter: Time, unitsPerMinute: nat)
      ensures rows == map[]
      ensures staleClaimAfter > 0 ==> this.staleClaimAfter == staleClaimAfter
      ensures staleClaimAfter <= 0 ==> this.staleClaimAfter == 5 * unitsPerMinute
    {
      rows := map[];
      this.staleClaimAfter := if staleClaimAfter <= 0 then 5 * unitsPerMinute else staleClaimAfter;
    }

    method TryClaimEvent(id: string, payload: Json.Json, now: Time) returns (claimed: bool)
      requires LegalRows(rows)
      modifies this
      ensures claimed <==> TryClaim(Get(old(rows), id), payload, now, staleClaimAfter).Some?
      ensures claimed <==>
                || id !in old(rows) || old(rows)[id].status == Failed
                || (old(rows)[id].status == Processing && old(rows)[id].updatedAt < now - staleClaimAfter)
      ensures claimed ==>
                && id in rows
                && var r := rows[id];
                && r.status == Processing && r.lastError.None? && r.updatedAt == now
                && (id !in old(rows) ==>
                      r.attempts == 1 && r.payload == Some(payload) && r.receivedAt == now
                      && r.processedAt.None? && r.purgedAt.None?)
                && (id in old(rows) ==>
                      r == old(rows)[id].(status := r.status, attempts := old(rows)[id].attempts + 1,
                                          lastError := r.lastError, updatedAt := r.updatedAt))
      ensures claimed ==> rows == old(rows)[id := TryClaim(Get(old(rows), id), payload, now, staleClaimAfter).value]
      ensures !claimed ==> rows == old(rows)
      ensures LegalRows(rows)
    {
      if id !in rows {
        rows := rows[id := Inserted(payload, now)];
        return true;
      }
      var r := rows[id];
      if r.status == Failed || (r.status == Processing && r.updatedAt < now - staleClaimAfter) {
        StatementsKeepChecks(r, now, Done);
        rows := rows[id := Reopened(r, now)];
        return true;
      }
      return false;
    }

    method ClaimEventForRetry(id: string, maxAttempts: int, now: Time) returns (claimed: bool)
      requires LegalRows(rows)
      modifies this
      ensures claimed <==> id in old(rows) && ClaimForRetry(old(rows)[id], maxAttempts, now).Some?
      ensures claimed <==> id in old(rows) && old(rows)[id].status == Failed && old(rows)[id].attempts < maxAttempts
      ensures claimed ==>
                id in rows &&
                rows[id] == old(rows)[id].(status := Processing, attempts := old(rows)[id].attempts + 1,
                                           lastError := None, updatedAt := now)
      ensures claimed ==> rows == old(rows)[id := ClaimForRetry(old(rows)[id], maxAttempts, now).value]
      ensures !claimed ==> rows == old(rows)
      ensures LegalRows(rows)
    {
      if id in rows && rows[id].status == Failed && rows[id].attempts < maxAttempts {
        StatementsKeepChecks(rows[id], now, Done);
        rows := rows[id := Reopened(rows[id], now)];
        return true;
      }
      return false;
    }

    /** The three MarkEvent statements; false is ErrEventNotClaimed. */
    method MarkEvent(id: string, v: Verdict, now: Time) returns (settled: bool)
      requires LegalRows(rows)
      modifies this
      ensures settled <==> id in old(rows) && Settle(old(rows)[id], v, now).Some?
      ensures settled <==> id in old(rows) && old(rows)[id].status == Processing
      ensures settled ==>
                && id in rows
                && var r := rows[id];
                && r == old(rows)[id].(status := r.status, processedAt := r.processedAt, lastError := r.lastError, updatedAt := now)
                && (v.Done? ==> r.status == Succeeded && r.processedAt == Some(now) && r.lastError.None?)
                && (v.Ignore? ==> r.status == Skipped && r.processedAt == Some(now) && r.lastError == Some(Text.Truncated(v.reason)))
                && (v.Error? ==>
                      && r.status == Failed && r.processedAt.None?
                      && r.lastError == Some(if v.cause == "" then "unspecified failure" else Text.Truncated(v.cause)))
      ensures settled ==> rows == old(rows)[id := Settle(old(rows)[id], v, now).value]
      ensures !settled ==> rows == old(rows)
      ensures LegalRows(rows)
    {
      if id !in rows || rows[id].status != Processing {
        return false;
      }
      StatementsKeepChecks(rows[id], now, v);
      rows := rows[id := Settle(rows[id], v, now).value];
      return true;
    }

    /** Rescues at most limit stale claims; which ones is the scan's choice. */
    method ReclaimAbandonedEvents(staleAfter: Time, limit: nat, now: Time) returns (ids: seq<string>)
      requires LegalRows(rows)
      modifies this
      ensures Distinct(ids) && Members(ids) <= AbandonedRows(old(rows), now, staleAfter)
      ensures |ids| == Min(limit, |AbandonedRows(old(rows), now, staleAfter)|)
      ensures rows == ReclaimRows(old(rows), Members(ids), now)
      ensures forall e :: e in old(rows) ==>
                rows[e] == if e !in ids then old(rows)[e] else
                             old(rows)[e].(status := Failed, processedAt := None, updatedAt := now,
                                           lastError := Some("claim abandoned by a worker that did not settle it"))
      ensures LegalRows(rows)
    {
      ids := LimitedScan(AbandonedRows(rows, now, staleAfter), limit);
      BatchesKeepChecks(rows, Members(ids), now);
      rows := ReclaimRows(rows, Members(ids), now);
    }

    /** One retention batch: at most limit due rows, counted by status as they return. */
    method PurgePayloads(settledAfter: Time, unsettledAfter: Time, limit: nat, now: Time)
      returns (result: PurgeResult, ghost picked: set<string>)
      requires LegalRows(rows)
      modifies this
      ensures picked <= DueRows(old(rows), now, settledAfter, unsettledAfter)
      ensures |picked| == Min(limit, |DueRows(old(rows), now, settledAfter, unsettledAfter)|)
      ensures rows == PurgeRows(old(rows), picked, now)
      ensures forall e :: e in picked ==>
                && old(rows)[e].payload.Some?
                && rows[e] == old(rows)[e].(payload := Some(Json.Skeleton(old(rows)[e].payload.value)),
                                            purgedAt := Some(now), updatedAt := now)
      ensures result == CountByStatus(old(rows), picked) && result.Total() == |picked|
      ensures LegalRows(rows)
    {
      var ids := LimitedScan(DueRows(rows, now, settledAfter, unsettledAfter), limit);
      picked := Members(ids);
      MembersOfDistinct(ids);
      BatchesKeepChecks(rows, picked, now);
      assert forall j :: 0 <= j < |ids| ==> ids[j] in picked;
      result := CountReturned(rows, ids);
      TallyCountsAll(rows, ids);
      rows := PurgeRows(rows, Members(ids), now);
    }
  }

  function AbandonedRows(rows: Rows, now: Time, staleAfter: Time): (stale: set<string>)
    ensures stale <= rows.Keys
  {
    set e | e in rows && Abandoned(rows[e], now, staleAfter)
  }

  // ----------------------------------------------------------- limited scans

  predicate Distinct(ids: seq<string>) {
    forall i, j :: 0 <= i < j < |ids| ==> ids[i] != ids[j]
  }

  function Members(ids: seq<string>): set<string> { set e | e in ids }

  lemma MembersGrow(ids: seq<string>, e: string)
    ensures Members(ids + [e]) == Members(ids) + {e}
  {}

  lemma {:induction false} MembersOfDistinct(ids: seq<string>)
    requires Distinct(ids)
    ensures |Members(ids)| == |ids|
    decreases |ids|
  {
    if ids != [] {
      var init, e := ids[..|ids| - 1], ids[|ids| - 1];
      assert ids == init + [e];
      MembersGrow(init, e);
      MembersOfDistinct(init);
    }
  }

  /** LIMIT over a scan whose order is left open. */
  method LimitedScan(found: set<string>, limit: nat) returns (ids: seq<string>)
    ensures Distinct(ids) && Members(ids) <= found && |ids| == Min(limit, |found|)
  {
    var waiting := found;
    ids := [];
    while |ids| < limit && waiting != {}
      invariant Distinct(ids) && |ids| <= limit && |ids| + |waiting| == |found|
      invariant Members(ids) !! waiting && Members(ids) + waiting == found
      decreases waiting
    {
      var e :| e in waiting;
      MembersGrow(ids, e);
      waiting := waiting - {e};
      ids := ids + [e];
    }
  }

  function One(r: LedgerRow): PurgeResult {
    if r.status == Failed then PurgeResult(0, 1) else PurgeResult(1, 0)
  }

  predicate Known(rows: Rows, ids: seq<string>) { forall j :: 0 <= j < |ids| ==> ids[j] in rows }

  /** The counts once the first i returned rows have been seen. */
  function Tally(rows: Rows, ids: seq<string>, i: nat): PurgeResult
    requires i <= |ids| && Known(rows, ids)
  {
    if i == 0 then PurgeResult(0, 0) else Tally(rows, ids, i - 1).Plus(One(rows[ids[i - 1]]))
  }

  lemma {:induction false} TallyCounts(rows: Rows, ids: seq<string>, i: nat)
    requires Distinct(ids) && i <= |ids| && Known(rows, ids)
    ensures Members(ids[..i]) <= rows.Keys
    ensures Tally(rows, ids, i) == CountByStatus(rows, Members(ids[..i]))
  {
    if i == 0 {
      assert Members(ids[..0]) == {};
      assert WithFailed(rows, {}, true) == {} == WithFailed(rows, {}, false);
    } else {
      TallyCounts(rows, ids, i - 1);
      assert ids[..i] == ids[..i - 1] + [ids[i - 1]];
      MembersGrow(ids[..i - 1], ids[i - 1]);
      CountOneMore(rows, Members(ids[..i - 1]), ids[i - 1]);
    }
  }

  lemma {:induction false} TallyTotals(rows: Rows, ids: seq<string>, i: nat)
    requires i <= |ids| && Known(rows, ids)
    ensures Tally(rows, ids, i).Total() == i
  {
    if i > 0 {
      TallyTotals(rows, ids, i - 1);
    }
  }

  lemma TallyCountsAll(rows: Rows, ids: seq<string>)
    requires Distinct(ids) && Known(rows, ids)
    ensures Members(ids) <= rows.Keys
    ensures Tally(rows, ids, |ids|) == CountByStatus(rows, Members(ids)) && Tally(rows, ids, |ids|).Total() == |ids|
  {
    TallyCounts(rows, ids, |ids|);
    TallyTotals(rows, ids, |ids|);
    assert ids[..|ids|] == ids;
  }

  /** The loop over the statuses a batch returned. */
  method CountReturned(rows: Rows, ids: seq<string>) returns (result: PurgeResult)
    requires Known(rows, ids)
    ensures result == Tally(rows, ids, |ids|)
  {
    result := PurgeResult(0, 0);
    var i := 0;
    while i < |ids|
      invariant 0 <= i <= |ids| && result == Tally(rows, ids, i)
    {
      if rows[ids[i]].status == Failed {
        result := result.(unsettled := result.unsettled + 1);
      } else {
        result := result.(settled := result.settled + 1);
      }
      i := i + 1;
    }
  }

  lemma WithFailedUnion(rows: Rows, a: set<string>, b: set<string>, failed: bool)
    requires a !! b && a <= rows.Keys && b <= rows.Keys
    ensures WithFailed(rows, a + b, failed) == WithFailed(rows, a, failed) + WithFailed(rows, b, failed)
    ensures |WithFailed(rows, a + b, failed)| == |WithFailed(rows, a, failed)| + |WithFailed(rows, b, failed)|
  {
    var x, y := WithFailed(rows, a, failed), WithFailed(rows, b, failed);
    assert x !! y;
    assert |x + y| == |x| + |y|;
  }

  /** Counts of disjoint batches add up. */
  lemma CountsOfUnion(rows: Rows, a: set<string>, b: set<string>)
    requires a !! b && a <= rows.Keys && b <= rows.Keys
    ensures CountByStatus(rows, a + b) == CountByStatus(rows, a).Plus(CountByStatus(rows, b))
  {
    WithFailedUnion(rows, a, b, true);
    WithFailedUnion(rows, a, b, false);
  }

  lemma CountOfOne(rows: Rows, e: string)
    requires e in rows
    ensures CountByStatus(rows, {e}) == One(rows[e])
  {
    var failed := rows[e].status == Failed;
    assert WithFailed(rows, {e}, failed) == {e};
    assert WithFailed(rows, {e}, !failed) == {};
  }

  lemma CountOneMore(rows: Rows, ids: set<string>, e: string)
    requires ids <= rows.Keys && e in rows && e !in ids
    ensures CountByStatus(rows, ids + {e}) == CountByStatus(rows, ids).Plus(One(rows[e]))
  {
    CountsOfUnion(rows, ids, {e});
    CountOfOne(rows, e);
  }
}
