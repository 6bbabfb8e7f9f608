/**
 Routing of a failed sync run: permanent failure, skip of a bad products page, giving
 up, or a retry with backoff. The attempt count is the one of the claimed copy, which
 may lag behind the row.
 */
module RunErrors {
  import opened Options
  import opened SyncLog

  const PRODUCTS_PAGE_SIZE: nat := 100
  const APPROVED_PAGE_CAP_ITEMS: nat := 10_000

  predicate Permanent(code: ErrorCode) {
    code == MARKETPLACE_AUTH_FAILED || code == MARKETPLACE_ACCESS_DENIED
  }

  /** The page a products cursor stands on, when it stands on one. */
  function PageOf(c: Cursor): Option<nat> {
    match c
    case NoCursor => Some(0)
    case Page(n) => Some(n)
    case Token(_) => None
    case OtherJson(_) => None
  }

  /** The page to skip, when the next page is still below the catalogue cap. */
  function SkippablePage(c: Cursor): Option<nat> {
    match PageOf(c)
    case None => None
    case Some(n) => if (n + 1) * PRODUCTS_PAGE_SIZE >= APPROVED_PAGE_CAP_ITEMS then None else Some(n)
  }

  function SkipWrite(page: nat, httpStatus: int, now: Instant): FencedOp {
    SkipPage(SkipEntry(page, now, MARKETPLACE_UNREACHABLE, httpStatus), Page(page + 1))
  }

  /** The single fenced write that an error of a claimed run leads to. */
  function ErrorWrite(t: Table, id: RowId, syncType: SyncType, attempts: nat, code: ErrorCode, httpStatus: int, now: Instant)
    : FencedOp
  {
    if Permanent(code) then Fail(code)
    else if attempts >= MAX_SYNC_ATTEMPTS then
      if syncType == PRODUCTS && code == MARKETPLACE_UNREACHABLE && id in t && SkippablePage(t[id].pageCursor).Some?
      then SkipWrite(SkippablePage(t[id].pageCursor).value, httpStatus, now)
      else Fail(code)
    else MarkRetryable(attempts, code)
  }

  /** Move the cursor past the page that keeps failing; None when no recovery is possible. */
  method AdvanceCursorPastBadPage(table: SyncLogTable, id: RowId, httpStatus: int, w: Worker, now: Instant)
    returns (advanced: Option<WriteResult>)
    modifies table
    ensures advanced.Some? <==> id in old(table.rows) && SkippablePage(old(table.rows)[id].pageCursor).Some?
    ensures advanced.None? ==> table.rows == old(table.rows)
    ensures advanced.Some? ==>
              && (var page := SkippablePage(old(table.rows)[id].pageCursor).value;
                  table.rows == Apply(old(table.rows), Fenced(w, id, SkipWrite(page, httpStatus, now)), now))
              && (advanced.value == LostLease <==> !Held(old(table.rows)[id], w))
  {
    if id !in table.rows { return None; }
    var page := PageOf(table.rows[id].pageCursor);
    if page.None? { return None; }
    var next := page.value + 1;
    if next * PRODUCTS_PAGE_SIZE >= APPROVED_PAGE_CAP_ITEMS { return None; }
    var res := table.FencedUpdate(id, w, SkipWrite(page.value, httpStatus, now), now);
    advanced := Some(res);
  }

  method HandleRunError(table: SyncLogTable, id: RowId, syncType: SyncType, attempts: nat, code: ErrorCode,
                        httpStatus: int, w: Worker, now: Instant)
    returns (res: WriteResult)
    modifies table
    ensures var op := ErrorWrite(old(table.rows), id, syncType, attempts, code, httpStatus, now);
            table.rows == Apply(old(table.rows), Fenced(w, id, op), now)
    ensures res == LostLease <==> !(id in old(table.rows) && Held(old(table.rows)[id], w))
  {
    if Permanent(code) {
      res := table.FencedUpdate(id, w, Fail(code), now);
      return;
    }
    if attempts >= MAX_SYNC_ATTEMPTS {
      if syncType == PRODUCTS && code == MARKETPLACE_UNREACHABLE {
        var advanced := AdvanceCursorPastBadPage(table, id, httpStatus, w, now);
        if advanced.Some? { return advanced.value; }
      }
      res := table.FencedUpdate(id, w, Fail(code), now);
      return;
    }
    res := table.FencedUpdate(id, w, MarkRetryable(attempts, code), now);
  }

  /** A waiting row that no clock can ever make claimable: only the sweep can end it. */
  ghost predicate Stranded(r: Row) {
    Waiting(r) && forall later :: !Claimable(r, later)
  }

  /**
   When the holder's error is routed, the row ends terminal or claimable again later,
   except in one case: the copy's attempt count lags behind a row that already burned
   its last attempt, so the retry puts the row where only the sweep can reach it.
   */
  lemma ErrorStrandsIffCopyLags(t: Table, id: RowId, attempts: nat, code: ErrorCode, httpStatus: int, w: Worker, now: Instant)
    requires id in t && Held(t[id], w)
    ensures var r := Apply(t, Fenced(w, id, ErrorWrite(t, id, t[id].syncType, attempts, code, httpStatus, now)), now)[id];
            && (Terminal(r) || Waiting(r))
            && (Stranded(r) <==> !Permanent(code) && attempts < MAX_SYNC_ATTEMPTS <= t[id].attemptCount)
  {
    var r := Apply(t, Fenced(w, id, ErrorWrite(t, id, t[id].syncType, attempts, code, httpStatus, now)), now)[id];
    if Waiting(r) && r.attemptCount < MAX_SYNC_ATTEMPTS {
      var later := r.startedAt + r.nextAttemptAt.GetOr(0);
      assert Claimable(r, later);
    }
  }
}
