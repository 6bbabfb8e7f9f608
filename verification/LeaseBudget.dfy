/**
 How often one row can be claimed and skipped: attempts bound the claims between two
 resets, and the page cap bounds the resets by page skips. Graceful releases are the
 only other reset, so they are the only way to buy further claims.
 */
module LeaseBudget {
  import opened Options
  import opened SyncLog
  import opened LeaseRuns
  import opened RunErrors

  /** Highest page from which no skip is possible any more. */
  const LAST_PAGE: nat := 99

  /** How far a cursor has come; past the cap (or on a token) there is nothing left to skip. */
  function Rank(c: Cursor): nat {
    match PageOf(c)
    case Some(n) => if n < LAST_PAGE then n else LAST_PAGE
    case None => LAST_PAGE
  }

  predicate ReleasesRow(e: Event, id: RowId) { e.Fenced? && e.id == id && e.op.ReleaseToPending? }

  /** Steps of the trace that satisfy `p` on the row and took effect on it. */
  function Claims(tr: Trace, id: RowId): nat {
    if tr == [] then 0 else Claims(Front(tr), id) + if ClaimsRow(Last(tr).ev, id) then 1 else 0
  }

  function Releases(tr: Trace, id: RowId): nat {
    if tr == [] then 0
    else Releases(Front(tr), id)
         + if ReleasesRow(Last(tr).ev, id) && id in Hit(Final(Front(tr)), Last(tr).ev, Last(tr).now) then 1 else 0
  }

  function Skips(tr: Trace, id: RowId): nat {
    if tr == [] then 0
    else Skips(Front(tr), id)
         + if SkipsPageOf(Last(tr).ev, id) && id in Hit(Final(Front(tr)), Last(tr).ev, Last(tr).now) then 1 else 0
  }

  /** A release or page skip that reached the row. */
  predicate Resets(t: Table, e: Event, now: Instant, id: RowId) {
    (ReleasesRow(e, id) || SkipsPageOf(e, id)) && id in Hit(t, e, now)
  }

  /** Claims of the row since its attempt count was last reset by a release or a skip. */
  function ClaimsSinceReset(tr: Trace, id: RowId): nat {
    if tr == [] then 0
    else if Resets(Final(Front(tr)), Last(tr).ev, Last(tr).now, id) then 0
    else ClaimsSinceReset(Front(tr), id) + if ClaimsRow(Last(tr).ev, id) then 1 else 0
  }

  /**
   The step treats row `id` as the worker does: a skip is the routed one, taken together
   with its read of the cursor, and the handler never ticks a lower page.
   */
  predicate PagesAscend(t: Table, e: Event, id: RowId) {
    e.Fenced? && e.id == id && id in t && Held(t[id], e.worker) ==>
      && (e.op.Tick? ==> Rank(t[id].pageCursor) <= Rank(e.op.cursor))
      && (e.op.SkipPage? ==>
            && SkippablePage(t[id].pageCursor) == Some(e.op.entry.page)
            && e.op.next == Page(e.op.entry.page + 1))
  }

  predicate AscendingRun(tr: Trace, id: RowId) {
    Run(tr) && forall k :: 0 <= k < |tr| ==> PagesAscend(Final(tr[..k]), tr[k].ev, id)
  }

  lemma AscendingFront(tr: Trace, id: RowId)
    requires tr != [] && AscendingRun(tr, id)
    ensures AscendingRun(Front(tr), id) && PagesAscend(Final(Front(tr)), Last(tr).ev, id)
  {
    forall k | 0 <= k < |tr| - 1 ensures PagesAscend(Final(Front(tr)[..k]), Front(tr)[k].ev, id) {
      assert Front(tr)[..k] == tr[..k];
    }
    assert tr[..|tr| - 1] == Front(tr);
  }

  lemma StepCountsAttempts(t: Table, e: Event, now: Instant, id: RowId)
    requires Enabled(t, e, now)
    ensures id in t ==> id in Apply(t, e, now)
    ensures ClaimsRow(e, id) ==> id in t
    ensures id in Apply(t, e, now) ==>
              Apply(t, e, now)[id].attemptCount
              == if Resets(t, e, now, id) then 0
                 else (if id in t then t[id].attemptCount else 0) + if ClaimsRow(e, id) then 1 else 0
  {
    match e
    case Acquire(_, _, _, _) =>
    case Claim(_, _) =>
    case Fenced(_, _, _) =>
    case Sweep => SweepIsRowwise(t, now);
  }

  /** The attempt count of a row is the number of its claims since the last reset, so at most 5. */
  lemma {:induction false} AttemptsCountClaims(tr: Trace, id: RowId)
    requires Run(tr)
    ensures id in Final(tr) ==> Final(tr)[id].attemptCount == ClaimsSinceReset(tr, id)
    ensures id !in Final(tr) ==> ClaimsSinceReset(tr, id) == 0
    ensures ClaimsSinceReset(tr, id) <= MAX_SYNC_ATTEMPTS
  {
    ReachableTable(tr);
    if tr != [] {
      AttemptsCountClaims(Front(tr), id);
      StepCountsAttempts(Final(Front(tr)), Last(tr).ev, Last(tr).now, id);
    }
  }

  /** What the lexicographic measure (page, attempts) still allows: 5 claims for each page left. */
  function ClaimsLeft(r: Row): int {
    MAX_SYNC_ATTEMPTS * (LAST_PAGE - Rank(r.pageCursor)) + MAX_SYNC_ATTEMPTS - r.attemptCount
  }

  lemma StepSpendsBudget(t: Table, e: Event, now: Instant, id: RowId)
    requires TableOk(t, now) && Enabled(t, e, now) && PagesAscend(t, e, id)
    requires id in t
    ensures var t' := Apply(t, e, now);
            && id in t'
            && ClaimsLeft(t'[id]) + (if ClaimsRow(e, id) then 1 else 0)
               <= ClaimsLeft(t[id]) + (if ReleasesRow(e, id) && id in Hit(t, e, now) then MAX_SYNC_ATTEMPTS else 0)
  {
  }

  /**
   Bounded work: a row is claimed at most 500 times plus 5 for each graceful release, so
   every run without a graceful release makes at most 500 claims of it.
   */
  lemma {:induction false} ClaimsAreBounded(tr: Trace, id: RowId)
    requires AscendingRun(tr, id)
    ensures Claims(tr, id) <= 500 + 5 * Releases(tr, id)
    ensures id in Final(tr) ==> Claims(tr, id) + ClaimsLeft(Final(tr)[id]) <= 500 + 5 * Releases(tr, id)
    ensures id !in Final(tr) ==> Claims(tr, id) == 0
  {
    if tr != [] {
      AscendingFront(tr, id);
      ClaimsAreBounded(Front(tr), id);
      ReachableTable(Front(tr));
      ReachableTable(tr);
      var t := Final(Front(tr));
      if id in t {
        assert TableOk(t, Last(tr).now);
        StepSpendsBudget(t, Last(tr).ev, Last(tr).now, id);
      }
    }
  }

  predicate StrictlyAscending(skipped: seq<SkipEntry>) {
    forall i, j :: 0 <= i < j < |skipped| ==> skipped[i].page < skipped[j].page
  }

  /**
   The skipped pages of a row are strictly increasing and all below the page the cursor
   stands on; there is one entry per skip, hence never more than 99 of them.
   */
  lemma {:induction false} SkippedPagesAscend(tr: Trace, id: RowId)
    requires AscendingRun(tr, id)
    ensures id in Final(tr) ==>
              && StrictlyAscending(Final(tr)[id].skippedPages)
              && (forall i :: 0 <= i < |Final(tr)[id].skippedPages| ==>
                    Final(tr)[id].skippedPages[i].page < Rank(Final(tr)[id].pageCursor))
              && Skips(tr, id) == |Final(tr)[id].skippedPages|
    ensures id !in Final(tr) ==> Skips(tr, id) == 0
    ensures Skips(tr, id) <= 99
  {
    if tr != [] {
      AscendingFront(tr, id);
      SkippedPagesAscend(Front(tr), id);
      SkipStep(Final(Front(tr)), Last(tr).ev, Last(tr).now, id);
    }
    if id in Final(tr) { AscendingIsShort(Final(tr)[id].skippedPages, Rank(Final(tr)[id].pageCursor)); }
  }

  lemma SkipStep(t: Table, e: Event, now: Instant, id: RowId)
    requires Enabled(t, e, now) && PagesAscend(t, e, id)
    requires id in t ==>
               && StrictlyAscending(t[id].skippedPages)
               && forall i :: 0 <= i < |t[id].skippedPages| ==> t[id].skippedPages[i].page < Rank(t[id].pageCursor)
    ensures var t' := Apply(t, e, now);
            && (id in t ==> id in t')
            && (id in t' ==>
                && StrictlyAscending(t'[id].skippedPages)
                && (forall i :: 0 <= i < |t'[id].skippedPages| ==> t'[id].skippedPages[i].page < Rank(t'[id].pageCursor))
                && |t'[id].skippedPages| == (if id in t then |t[id].skippedPages| else 0)
                   + (if SkipsPageOf(e, id) && id in Hit(t, e, now) then 1 else 0))
  {
  }

  lemma {:induction false} AscendingIsShort(skipped: seq<SkipEntry>, bound: nat)
    requires StrictlyAscending(skipped)
    requires forall i :: 0 <= i < |skipped| ==> skipped[i].page < bound
    ensures |skipped| <= bound
  {
    if skipped != [] {
      var n := |skipped| - 1;
      AscendingIsShort(skipped[..n], skipped[n].page);
    }
  }

  // ─── A copy can lag ───────────────────────────────────────────────────

  /** The run leaves one row, held by worker 7 since its last tick just now. */
  predicate HeldAlone(tr: Trace, row: Row) {
    && Run(tr) && Final(tr) == map[0 := row]
    && Held(row, 7) && row.lastTickAt == Some(Clock(tr)) && row.startedAt <= Clock(tr)
  }

  lemma ClaimTheOnlyRow(tr: Trace, row: Row)
    requires Run(tr) && Final(tr) == map[0 := row] && Claimable(row, Clock(tr))
    ensures HeldAlone(tr + [Timed(Clock(tr), Claim(7, 0))], Claimed(row, 7, Clock(tr)))
  {
    ClaimAlone(row, 7, Clock(tr));
    ExtendRun(tr, Claim(7, 0), Clock(tr));
  }

  /** Worker 7 misses its heartbeat, is reaped, and claims the row again. */
  lemma ReapAndReclaim(tr: Trace, row: Row) returns (tr': Trace, row': Row)
    requires HeldAlone(tr, row) && row.attemptCount < MAX_SYNC_ATTEMPTS
    ensures HeldAlone(tr', row') && |tr'| == |tr| + 2 && tr <= tr'
    ensures row'.attemptCount == row.attemptCount + 1
  {
    var now := Clock(tr) + STALE_THRESHOLD_MS + 1;
    SweepAlone(row, now);
    ExtendRun(tr, Sweep, now);
    var swept := tr + [Timed(now, Sweep)];
    ClaimTheOnlyRow(swept, Requeued(row));
    tr' := swept + [Timed(now, Claim(7, 0))];
    row' := Claimed(Requeued(row), 7, now);
  }

  /** Worker 7 makes the first claim, and four more after that. */
  lemma FiveClaims() returns (tr: Trace, row: Row)
    ensures HeldAlone(tr, row) && row.attemptCount == MAX_SYNC_ATTEMPTS
    ensures |tr| == 10 && tr[1].ev == Claim(7, 0)
    ensures Final(tr[..2]) == map[0 := Claimed(NewRow(1, ORDERS, 0), 7, 0)]
  {
    var acquire, claim := Timed(0, Acquire(0, 1, ORDERS, 0)), Timed(0, Claim(7, 0));
    ExtendRun([], acquire.ev, 0);
    assert [] + [acquire] == [acquire];
    ClaimTheOnlyRow([acquire], NewRow(1, ORDERS, 0));
    assert [acquire] + [claim] == [acquire, claim];
    tr, row := ReapAndReclaim([acquire, claim], Claimed(NewRow(1, ORDERS, 0), 7, 0));
    tr, row := ReapAndReclaim(tr, row);
    tr, row := ReapAndReclaim(tr, row);
    tr, row := ReapAndReclaim(tr, row);
    assert tr[..2] == [acquire, claim];
  }

  /**
   The stranding case of the error routing is reached: worker 7 is reaped and re-claims
   its own row four times while its first task, claimed at attempt 1, still runs; that
   task's retryable error then passes the fence and leaves a row no claim can ever take.
   */
  lemma LaggingCopyStrands() returns (tr: Trace, r: Row)
    ensures Run(tr) && |tr| == 10 && tr[1].ev == Claim(7, 0)
    ensures 0 in Final(tr[..2]) && Final(tr[..2])[0].attemptCount == 1
    ensures 0 in Final(tr) && Held(Final(tr)[0], 7) && Final(tr)[0].attemptCount == MAX_SYNC_ATTEMPTS
    ensures var t, now := Final(tr), Clock(tr);
            && r == Apply(t, Fenced(7, 0, ErrorWrite(t, 0, t[0].syncType, 1, MARKETPLACE_UNREACHABLE, 503, now)), now)[0]
            && Stranded(r)
  {
    var row;
    tr, row := FiveClaims();
    ErrorStrandsIffCopyLags(Final(tr), 0, 1, MARKETPLACE_UNREACHABLE, 503, 7, Clock(tr));
    var op := ErrorWrite(Final(tr), 0, row.syncType, 1, MARKETPLACE_UNREACHABLE, 503, Clock(tr));
    r := Apply(Final(tr), Fenced(7, 0, op), Clock(tr))[0];
  }
}
