/** One retention pass: batches until a short one, against purging everything at once. */
module Retention {
  import opened Domain
  import opened Ledger

  // ------------------------------------------------------- batches compose

  lemma PurgeLeavesRest(rows: Rows, done: set<string>, now: Time, settledAfter: Time, unsettledAfter: Time)
    ensures DueRows(PurgeRows(rows, done, now), now, settledAfter, unsettledAfter) ==
            DueRows(rows, now, settledAfter, unsettledAfter) - done
  {}

  lemma PurgesCompose(rows: Rows, a: set<string>, b: set<string>, now: Time)
    requires a !! b
    ensures PurgeRows(PurgeRows(rows, a, now), b, now) == PurgeRows(rows, a + b, now)
  {}

  lemma CountsAdd(rows: Rows, a: set<string>, b: set<string>, now: Time)
    requires a !! b && a <= rows.Keys && b <= rows.Keys
    ensures CountByStatus(rows, a + b) == CountByStatus(rows, a).Plus(CountByStatus(PurgeRows(rows, a, now), b))
  {
    CountsOfUnion(rows, a, b);
    PurgeKeepsStatus(rows, a, b, true, now);
    PurgeKeepsStatus(rows, a, b, false, now);
  }

  lemma PurgeKeepsStatus(rows: Rows, a: set<string>, ids: set<string>, failed: bool, now: Time)
    requires ids <= rows.Keys
    ensures WithFailed(PurgeRows(rows, a, now), ids, failed) == WithFailed(rows, ids, failed)
  {}

  /** Where a pass stands: the rows in done are purged and counted, and nothing else is. */
  ghost predicate PassState(before: Rows, rows: Rows, done: set<string>, due: set<string>, total: PurgeResult, now: Time) {
    && done <= due <= before.Keys
    && rows == PurgeRows(before, done, now)
    && total == CountByStatus(before, done)
  }

  lemma PassStarts(before: Rows, due: set<string>, now: Time)
    requires due <= before.Keys
    ensures PassState(before, before, {}, due, PurgeResult(0, 0), now)
  {
    assert PurgeRows(before, {}, now) == before;
    CountsAreTotal(before, {});
  }

  lemma CountsAreTotal(rows: Rows, ids: set<string>)
    requires ids <= rows.Keys
    ensures CountByStatus(rows, ids).Total() == |ids|
  {
    var x, y := WithFailed(rows, ids, false), WithFailed(rows, ids, true);
    assert ids == x + y && x !! y;
  }

  lemma BatchExtends(before: Rows, rows: Rows, done: set<string>, total: PurgeResult,
                     picked: set<string>, size: nat, now: Time, settledAfter: Time, unsettledAfter: Time)
    requires var due := DueRows(before, now, settledAfter, unsettledAfter);
             PassState(before, rows, done, due, total, now)
    requires var waiting := DueRows(rows, now, settledAfter, unsettledAfter);
             picked <= waiting && |picked| == Min(size, |waiting|)
    ensures var due := DueRows(before, now, settledAfter, unsettledAfter);
            && PassState(before, PurgeRows(rows, picked, now), done + picked, due,
                         total.Plus(CountByStatus(rows, picked)), now)
            && |done + picked| == |done| + |picked|
            && (|picked| < size ==> done + picked == due)
  {
    var due := DueRows(before, now, settledAfter, unsettledAfter);
    PurgeLeavesRest(before, done, now, settledAfter, unsettledAfter);
    PurgesCompose(before, done, picked, now);
    CountsAdd(before, done, picked, now);
    if |picked| < size {
      SubsetOfSameSize(picked, due - done);
    }
  }

  class RetentionWorker {
    const hooks: WebhookRepo
    const settledAfter: Time
    const unsettledAfter: Time
    const batchSize: nat

    /** A batch size that is not positive selects the default. */
    constructor (hooks: WebhookRepo, settledAfter: Time, unsettledAfter: Time, batchSize: int)
      ensures this.hooks == hooks && this.settledAfter == settledAfter && this.unsettledAfter == unsettledAfter
      ensures this.batchSize == (if batchSize <= 0 then 500 else batchSize)
    {
      this.hooks := hooks;
      this.settledAfter := settledAfter;
      this.unsettledAfter := unsettledAfter;
      this.batchSize := if batchSize <= 0 then 500 else batchSize;
    }

    ghost function Due(rows: Rows, now: Time): set<string> {
      DueRows(rows, now, settledAfter, unsettledAfter)
    }

    /** Where the pass stands after a batch of the given size, and how many batches it still needs. */
    ghost predicate InPass(before: Rows, rows: Rows, done: set<string>, total: PurgeResult, size: nat, todo: nat, now: Time)
      requires batchSize >= 1
    {
      && LegalRows(rows) && PassState(before, rows, done, Due(before, now), total, now)
      && StillNeeded(done, Due(before, now), size, todo, batchSize)
    }

    lemma PassBegins(before: Rows, now: Time)
      requires batchSize >= 1 && LegalRows(before)
      ensures InPass(before, before, {}, PurgeResult(0, 0), batchSize, Needed(|Due(before, now)|, batchSize), now)
    {
      PassStarts(before, Due(before, now), now);
    }

    lemma PassGoesOn(before: Rows, rows: Rows, done: set<string>, total: PurgeResult, todo: nat, now: Time,
                     rows': Rows, picked: set<string>, batch: PurgeResult)
      requires batchSize >= 1 && InPass(before, rows, done, total, batchSize, todo, now) && LegalRows(rows')
      requires picked <= Due(rows, now) && |picked| == Min(batchSize, |Due(rows, now)|)
      requires rows' == PurgeRows(rows, picked, now) && batch == CountByStatus(rows, picked)
      ensures todo >= 1 && InPass(before, rows', done + picked, total.Plus(batch), |picked|, todo - 1, now)
    {
      BatchExtends(before, rows, done, total, picked, batchSize, now, settledAfter, unsettledAfter);
      PurgeLeavesRest(before, done, now, settledAfter, unsettledAfter);
      OneBatchLess(done, Due(before, now), picked, todo, batchSize);
    }

    /** One batch of the pass, added to what has been done before it. */
    method Batch(now: Time, soFar: PurgeResult, ghost before: Rows, ghost done: set<string>, ghost todo: nat)
      returns (total: PurgeResult, size: nat, ghost done': set<string>)
      requires batchSize >= 1 && InPass(before, hooks.rows, done, soFar, batchSize, todo, now)
      modifies hooks
      ensures todo >= 1 && InPass(before, hooks.rows, done', total, size, todo - 1, now)
    {
      ghost var rows := hooks.rows;
      var batch, picked := hooks.PurgePayloads(settledAfter, unsettledAfter, batchSize, now);
      PassGoesOn(before, rows, done, soFar, todo, now, hooks.rows, picked, batch);
      total, size, done' := soFar.Plus(batch), batch.Total(), done + picked;
    }

    /**
     * Purges in batches until one comes back short. A cancelled context or a failing
     * statement stops it earlier, after `stopAfter` batches. Left to finish, it is one purge
     * of every due row, in exactly the batches it needs.
     */
    method RunOnce(now: Time, stopAfter: Option<nat>)
      returns (total: PurgeResult, batches: nat, ghost done: set<string>)
      requires batchSize >= 1 && LegalRows(hooks.rows)
      modifies hooks
      ensures LegalRows(hooks.rows)
      ensures PassState(old(hooks.rows), hooks.rows, done, Due(old(hooks.rows), now), total, now)
      ensures stopAfter.None? ==>
                done == Due(old(hooks.rows), now) && batches == Needed(|Due(old(hooks.rows), now)|, batchSize)
    {
      ghost var before := hooks.rows;
      ghost var todo := Needed(|Due(before, now)|, batchSize);
      total, batches, done := PurgeResult(0, 0), 0, {};
      PassBegins(before, now);
      var size: nat := batchSize;
      while size == batchSize && (stopAfter.None? || batches < stopAfter.value)
        invariant InPass(before, hooks.rows, done, total, size, todo, now)
        invariant batches + todo == Needed(|Due(before, now)|, batchSize)
        decreases todo
      {
        total, size, done := Batch(now, total, before, done, todo);
        batches, todo := batches + 1, todo - 1;
      }
    }
  }

  /**
   * A finished pass equals the one-shot purge: nothing is due any more, the totals are the
   * counts of what was due, and claims in flight are untouched.
   */
  lemma FinishedPassIsOneShot(before: Rows, rows: Rows, total: PurgeResult, now: Time, settledAfter: Time, unsettledAfter: Time)
    requires var due := DueRows(before, now, settledAfter, unsettledAfter);
             PassState(before, rows, due, due, total, now)
    ensures rows == PurgeRows(before, DueRows(before, now, settledAfter, unsettledAfter), now)
    ensures total == CountByStatus(before, DueRows(before, now, settledAfter, unsettledAfter))
    ensures DueRows(rows, now, settledAfter, unsettledAfter) == {}
    ensures forall e :: e in before && before[e].status == Processing ==> rows[e] == before[e]
  {
    PurgeLeavesRest(before, DueRows(before, now, settledAfter, unsettledAfter), now, settledAfter, unsettledAfter);
  }

  /** The batches it takes to come to a short one. */
  function Needed(rows: nat, batchSize: nat): (batches: nat)
    requires batchSize >= 1
    ensures batches >= 1
    decreases rows
  {
    if rows < batchSize then 1 else 1 + Needed(rows - batchSize, batchSize)
  }

  /** So many batches are needed after one of the given size, unless it was short. */
  ghost predicate StillNeeded(done: set<string>, due: set<string>, size: nat, todo: nat, batchSize: nat)
    requires batchSize >= 1
  {
    && size <= batchSize
    && if size == batchSize then |done| <= |due| && todo == Needed(|due| - |done|, batchSize)
       else todo == 0 && done == due
  }

  lemma OneBatchLess(done: set<string>, due: set<string>, picked: set<string>, todo: nat, batchSize: nat)
    requires batchSize >= 1 && StillNeeded(done, due, batchSize, todo, batchSize)
    requires done <= due && picked <= due - done && |picked| == Min(batchSize, |due - done|)
    ensures todo >= 1 && StillNeeded(done + picked, due, |picked|, todo - 1, batchSize)
  {
    var left := |due| - |done|;
    assert |due| == |done| + |due - done|;
    assert |done + picked| == |done| + |picked|;
    NeededStep(left, |picked|, batchSize);
    if |picked| < batchSize {
      SubsetOfSameSize(picked, due - done);
    }
  }

  lemma NeededStep(rows: nat, size: nat, batchSize: nat)
    requires batchSize >= 1 && size == Min(batchSize, rows)
    ensures Needed(rows, batchSize) == 1 + if size == batchSize then Needed(rows - size, batchSize) else 0
  {}

  /** That is floor(rows / batch) + 1. */
  lemma {:induction false} NeededIsFloor(rows: nat, batchSize: nat)
    requires batchSize >= 1
    ensures Needed(rows, batchSize) == rows / batchSize + 1
    decreases rows
  {
    if rows >= batchSize {
      NeededIsFloor(rows - batchSize, batchSize);
      OneLess(rows, batchSize);
    } else {
      Quotient(rows, 0, batchSize, rows);
    }
  }

  lemma OneLess(rows: nat, batchSize: nat)
    requires 1 <= batchSize <= rows
    ensures rows / batchSize == (rows - batchSize) / batchSize + 1
  {
    var q, r := (rows - batchSize) / batchSize, (rows - batchSize) % batchSize;
    assert rows - batchSize == q * batchSize + r;
    assert (q + 1) * batchSize == q * batchSize + batchSize;
    Quotient(rows, q + 1, batchSize, r);
  }

  lemma SubsetOfSameSize<T>(a: set<T>, b: set<T>)
    requires a <= b && |a| == |b|
    ensures a == b
  {
    assert |b| == |a| + |b - a|;
  }

  lemma TooManyBatches(total: nat, full: nat, size: nat)
    requires size >= 1 && full * size <= total
    ensures full <= total / size
  {
    if total / size < full {
      MulMonotone(size, total / size + 1, full);
    }
  }

  lemma Quotient(total: nat, full: nat, size: nat, rest: nat)
    requires size >= 1 && total == full * size + rest && rest < size
    ensures total / size == full
  {
    TooManyBatches(total, full, size);
    if full < total / size {
      MulMonotone(size, full + 1, total / size);
    }
  }
}
