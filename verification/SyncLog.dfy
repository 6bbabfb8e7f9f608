/**
 The `sync_logs` table: one row per sync run, the atomic updates that workers and
 the watchdog issue against it, and the class whose methods perform those updates.
 Every method is proved against a pure function on the whole table (`Apply`), so
 that the run properties in LeaseRuns speak about exactly these methods.
 */
module SyncLog {
  import opened Options

  /** Hard ceiling on how many times one row is claimed between two attempt resets. */
  const MAX_SYNC_ATTEMPTS: nat := 5
  /** A RUNNING row whose last tick is older than this is reaped, in milliseconds. */
  const STALE_THRESHOLD_MS: nat := 90_000
  const BACKOFF_BASE_MS: nat := 30_000
  const BACKOFF_CAP_MS: nat := 30 * 60_000

  type RowId = nat
  type Worker = nat
  type Instant = nat

  datatype Status = PENDING | RUNNING | FAILED_RETRYABLE | COMPLETED | FAILED
  datatype SyncType = PRODUCTS | PRODUCTS_DELTA | ORDERS | SETTLEMENTS | CLAIMS
  datatype ErrorCode =
    | MARKETPLACE_AUTH_FAILED
    | MARKETPLACE_ACCESS_DENIED
    | MARKETPLACE_UNREACHABLE
    | INTERNAL_ERROR
    | OTHER_ERROR(code: nat)

  /** `pageCursor`: null, one of the two products shapes, or any other JSON. */
  datatype Cursor = NoCursor | Page(n: nat) | Token(token: string) | OtherJson(json: string)

  datatype SkipEntry = SkipEntry(page: nat, attemptedAt: Instant, errorCode: ErrorCode, httpStatus: int)

  datatype Row = Row(
    store: nat,
    syncType: SyncType,
    status: Status,
    startedAt: Instant,
    attemptCount: nat,
    claimedBy: Option<Worker>,
    lastTickAt: Option<Instant>,
    nextAttemptAt: Option<Instant>,
    pageCursor: Cursor,
    progress: nat,
    recordsProcessed: nat,
    completedAt: Option<Instant>,
    errorCode: Option<ErrorCode>,
    skippedPages: seq<SkipEntry>)

  type Table = map<RowId, Row>

  predicate Waiting(r: Row) { r.status == PENDING || r.status == FAILED_RETRYABLE }

  predicate Active(r: Row) { Waiting(r) || r.status == RUNNING }

  predicate Terminal(r: Row) { r.status == COMPLETED || r.status == FAILED }

  predicate Claimable(r: Row, now: Instant) {
    && (r.status == PENDING || (r.status == FAILED_RETRYABLE && r.nextAttemptAt.Some? && r.nextAttemptAt.value <= now))
    && r.attemptCount < MAX_SYNC_ATTEMPTS
    && r.startedAt <= now
  }

  /** COALESCE(next_attempt_at, started_at): the moment the row became ready. */
  function ReadyKey(r: Row): Instant { r.nextAttemptAt.GetOr(r.startedAt) }

  /** The fence: RUNNING and claimed by exactly this worker. */
  predicate Held(r: Row, w: Worker) { r.status == RUNNING && r.claimedBy == Some(w) }

  predicate Stale(r: Row, now: Instant) {
    r.status == RUNNING && r.lastTickAt.Some? && r.lastTickAt.value + STALE_THRESHOLD_MS < now
  }

  function Pow2(n: nat): nat { if n == 0 then 1 else 2 * Pow2(n - 1) }

  /** 30 s doubled per attempt, capped at 30 min; attempt 0 would halve the base. */
  function BackoffMs(attempts: nat): nat {
    if attempts == 0 then BACKOFF_BASE_MS / 2
    else if BACKOFF_BASE_MS * Pow2(attempts - 1) <= BACKOFF_CAP_MS then BACKOFF_BASE_MS * Pow2(attempts - 1)
    else BACKOFF_CAP_MS
  }

  /** The writes a claim holder may issue, each guarded by the fence. */
  datatype FencedOp =
    | Tick(cursor: Cursor, progress: nat)
    | Heartbeat
    | Complete(syncedCount: nat)
    | Fail(code: ErrorCode)
    | MarkRetryable(attempts: nat, error: ErrorCode)
    | ReleaseToPending
    | SkipPage(entry: SkipEntry, next: Cursor)

  predicate EndsLease(op: FencedOp) { !op.Tick? && !op.Heartbeat? }

  function NewRow(store: nat, syncType: SyncType, startedAt: Instant): Row {
    Row(store, syncType, PENDING, startedAt, 0, None, None, None, NoCursor, 0, 0, None, None, [])
  }

  function Claimed(r: Row, w: Worker, now: Instant): Row {
    r.(status := RUNNING, claimedBy := Some(w), lastTickAt := Some(now), attemptCount := r.attemptCount + 1)
  }

  function Written(r: Row, op: FencedOp, now: Instant): Row {
    match op
    case Tick(cursor, progress) => r.(lastTickAt := Some(now), pageCursor := cursor, progress := progress)
    case Heartbeat => r.(lastTickAt := Some(now))
    case Complete(count) =>
      r.(status := COMPLETED, completedAt := Some(now), recordsProcessed := count, progress := count, errorCode := None)
    case Fail(code) => r.(status := FAILED, completedAt := Some(now), errorCode := Some(code))
    case MarkRetryable(attempts, error) =>
      r.(status := FAILED_RETRYABLE, errorCode := Some(error),
         nextAttemptAt := Some(now + BackoffMs(attempts)), claimedBy := None)
    case ReleaseToPending => r.(status := PENDING, claimedBy := None, attemptCount := 0)
    case SkipPage(entry, next) =>
      r.(status := PENDING, attemptCount := 0, pageCursor := next, skippedPages := r.skippedPages + [entry],
         claimedBy := None, errorCode := None, nextAttemptAt := None)
  }

  /** First bulk update of the sweep: give up on rows that burned every attempt. */
  predicate ToTerminate(r: Row, now: Instant) {
    r.attemptCount >= MAX_SYNC_ATTEMPTS && (Stale(r, now) || Waiting(r))
  }

  /** Second bulk update of the sweep: requeue the rows of crashed workers. */
  predicate ToRequeue(r: Row, now: Instant) { Stale(r, now) && r.attemptCount < MAX_SYNC_ATTEMPTS }

  function Terminated(r: Row, now: Instant): Row {
    r.(status := FAILED, completedAt := Some(now), errorCode := Some(INTERNAL_ERROR), claimedBy := None)
  }

  function Requeued(r: Row): Row { r.(status := PENDING, claimedBy := None) }

  function TerminateExhausted(t: Table, now: Instant): Table {
    map id | id in t :: if ToTerminate(t[id], now) then Terminated(t[id], now) else t[id]
  }

  function RequeueStale(t: Table, now: Instant): Table {
    map id | id in t :: if ToRequeue(t[id], now) then Requeued(t[id]) else t[id]
  }

  predicate SlotTaken(t: Table, store: nat, syncType: SyncType) {
    exists id :: id in t && Active(t[id]) && t[id].store == store && t[id].syncType == syncType
  }

  /** `id` may be the row that `tryClaimNext` picks: claimable, and no claimable row was ready earlier. */
  predicate Choosable(t: Table, id: RowId, now: Instant) {
    id in t && Claimable(t[id], now) &&
    forall j :: j in t && Claimable(t[j], now) ==> ReadyKey(t[id]) <= ReadyKey(t[j])
  }

  /** One atomic database step, by whom and on which row. */
  datatype Event =
    | Acquire(id: RowId, store: nat, syncType: SyncType, startedAt: Instant)
    | Claim(worker: Worker, id: RowId)
    | Fenced(worker: Worker, id: RowId, op: FencedOp)
    | Sweep

  /** What the database itself guarantees: fresh ids, and the claim query's choice. */
  predicate Enabled(t: Table, e: Event, now: Instant) {
    match e
    case Acquire(id, _, _, _) => id !in t
    case Claim(_, id) => Choosable(t, id, now)
    case _ => true
  }

  function Apply(t: Table, e: Event, now: Instant): Table {
    match e
    case Acquire(id, store, syncType, startedAt) =>
      if SlotTaken(t, store, syncType) then t else t[id := NewRow(store, syncType, startedAt)]
    case Claim(w, id) => if id in t then t[id := Claimed(t[id], w, now)] else t
    case Fenced(w, id, op) => if id in t && Held(t[id], w) then t[id := Written(t[id], op, now)] else t
    case Sweep => RequeueStale(TerminateExhausted(t, now), now)
  }

  /** What the sweep makes of one row. */
  function Swept(r: Row, now: Instant): Row {
    if ToTerminate(r, now) then Terminated(r, now) else if ToRequeue(r, now) then Requeued(r) else r
  }

  lemma SweepIsRowwise(t: Table, now: Instant)
    ensures Apply(t, Sweep, now).Keys == t.Keys
    ensures forall id :: id in t ==> Apply(t, Sweep, now)[id] == Swept(t[id], now)
  {
  }

  /** A table with a single row: the steps that reap it and claim it. */
  lemma SweepAlone(r: Row, now: Instant)
    requires ToRequeue(r, now)
    ensures Apply(map[0 := r], Sweep, now) == map[0 := Requeued(r)]
  {
    SweepIsRowwise(map[0 := r], now);
  }

  lemma ClaimAlone(r: Row, w: Worker, now: Instant)
    requires Claimable(r, now)
    ensures Choosable(map[0 := r], 0, now)
    ensures Apply(map[0 := r], Claim(w, 0), now) == map[0 := Claimed(r, w, now)]
  {
  }

  datatype WriteResult = Landed | LostLease
  datatype AcquireResult = Acquired(id: RowId) | SyncInProgress(existing: RowId)

  // ─── The table itself ─────────────────────────────────────────────────

  /** A finite non-empty set of rows has one that was ready first. */
  lemma EarliestExists(t: Table, ids: set<RowId>)
    requires ids != {} && ids <= t.Keys
    ensures exists id :: id in ids && forall j :: j in ids ==> ReadyKey(t[id]) <= ReadyKey(t[j])
  {
    var x :| x in ids;
    if ids - {x} == {} {
      assert ids == {x};
    } else {
      EarliestExists(t, ids - {x});
      var y :| y in ids - {x} && forall j :: j in ids - {x} ==> ReadyKey(t[y]) <= ReadyKey(t[j]);
      var best := if ReadyKey(t[x]) <= ReadyKey(t[y]) then x else y;
      assert forall j :: j in ids ==> j == x || j in ids - {x};
      assert forall j :: j in ids ==> ReadyKey(t[best]) <= ReadyKey(t[j]);
    }
  }

  class SyncLogTable {
    var rows: Table

    constructor ()
      ensures rows == map[]
    {
      rows := map[];
    }

    /** Insert a PENDING row unless the (store, type) slot already has an active one. */
    method AcquireSlot(id: RowId, store: nat, syncType: SyncType, startedAt: Instant, ghost now: Instant)
      returns (res: AcquireResult)
      requires id !in rows
      modifies this
      ensures rows == Apply(old(rows), Acquire(id, store, syncType, startedAt), now)
      ensures res.Acquired? ==> res.id == id && !SlotTaken(old(rows), store, syncType)
      ensures res.SyncInProgress? ==>
                && rows == old(rows) && res.existing in rows && Active(rows[res.existing])
                && rows[res.existing].store == store && rows[res.existing].syncType == syncType
    {
      if SlotTaken(rows, store, syncType) {
        var existing :| existing in rows && Active(rows[existing]) && rows[existing].store == store
                        && rows[existing].syncType == syncType;
        res := SyncInProgress(existing);
      } else {
        rows := rows[id := NewRow(store, syncType, startedAt)];
        res := Acquired(id);
      }
    }

    /** Claim a claimable row that became ready first; ties are broken arbitrarily. */
    method TryClaimNext(w: Worker, now: Instant) returns (claimed: Option<(RowId, Row)>)
      modifies this
      ensures claimed.None? ==> rows == old(rows) && forall id :: id in rows ==> !Claimable(rows[id], now)
      ensures claimed.Some? ==>
                && Choosable(old(rows), claimed.value.0, now)
                && rows == Apply(old(rows), Claim(w, claimed.value.0), now)
                && claimed.value.1 == rows[claimed.value.0]
    {
      ghost var ready := set id | id in rows && Claimable(rows[id], now);
      if id :| id in rows && Claimable(rows[id], now) {
        assert id in ready;
        EarliestExists(rows, ready);
        assert exists pick :: Choosable(rows, pick, now) by {
          var pick :| pick in ready && forall j :: j in ready ==> ReadyKey(rows[pick]) <= ReadyKey(rows[j]);
          assert Choosable(rows, pick, now);
        }
        var pick :| pick in rows && Choosable(rows, pick, now);
        rows := rows[pick := Claimed(rows[pick], w, now)];
        claimed := Some((pick, rows[pick]));
      } else {
        claimed := None;
      }
    }

    /** The fence shared by every claim-holder write: zero matched rows is a lost lease. */
    method FencedUpdate(id: RowId, w: Worker, op: FencedOp, now: Instant) returns (res: WriteResult)
      modifies this
      ensures rows == Apply(old(rows), Fenced(w, id, op), now)
      ensures res == LostLease <==> !(id in old(rows) && Held(old(rows)[id], w))
      ensures res == LostLease ==> rows == old(rows)
    {
      if id in rows && Held(rows[id], w) {
        rows := rows[id := Written(rows[id], op, now)];
        res := Landed;
      } else {
        res := LostLease;
      }
    }

    /** The watchdog: both bulk updates in one transaction, returning the rows touched. */
    method SweepStaleClaims(now: Instant) returns (reaped: nat)
      modifies this
      ensures rows == Apply(old(rows), Sweep, now)
      ensures reaped == |set id | id in old(rows) && ToTerminate(old(rows)[id], now)|
                       + |set id | id in old(rows) && ToRequeue(old(rows)[id], now)|
    {
      var terminal := set id | id in rows && ToTerminate(rows[id], now);
      rows := TerminateExhausted(rows, now);
      var requeued := set id | id in rows && ToRequeue(rows[id], now);
      rows := RequeueStale(rows, now);
      assert requeued == set id | id in old(rows) && ToRequeue(old(rows)[id], now);
      reaped := |terminal| + |requeued|;
    }
  }
}
