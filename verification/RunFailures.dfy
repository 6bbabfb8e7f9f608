/**
 Runs in which every error write is one that the worker's error routing issues: what each
 routed error makes of a row, with codes, pages and waiting times written out, and exactly
 when a row ends up FAILED.
 */
module RunFailures {
  import opened Options
  import opened SyncLog
  import opened LeaseRuns
  import opened LeaseBudget
  import opened RunErrors

  // ─── One routed error ─────────────────────────────────────────────────

  /** The row after the worker that holds it routes an error of its copy. */
  function RoutedRow(t: Table, id: RowId, attempts: nat, code: ErrorCode, httpStatus: int, w: Worker, now: Instant): Row
    requires id in t
  {
    Apply(t, Fenced(w, id, ErrorWrite(t, id, t[id].syncType, attempts, code, httpStatus, now)), now)[id]
  }

  /** The two codes that no retry can cure. */
  predicate Incurable(code: ErrorCode) { code in {MARKETPLACE_AUTH_FAILED, MARKETPLACE_ACCESS_DENIED} }

  /** A products run whose cursor stands on one of the first 99 pages. */
  predicate OnSkippablePage(r: Row) {
    r.syncType == PRODUCTS && (r.pageCursor == NoCursor || (r.pageCursor.Page? && r.pageCursor.n <= 98))
  }

  function PageNumber(r: Row): nat { if r.pageCursor.Page? then r.pageCursor.n else 0 }

  /** Waiting times in milliseconds of the attempts that are ever retried. */
  lemma BackoffTable()
    ensures BackoffMs(0) == 15_000 && BackoffMs(1) == 30_000 && BackoffMs(2) == 60_000
    ensures BackoffMs(3) == 120_000 && BackoffMs(4) == 240_000
  {
    assert Pow2(0) == 1 && Pow2(1) == 2 && Pow2(2) == 4 && Pow2(3) == 8;
  }

  /** Each further attempt waits twice as long, up to half an hour. */
  lemma BackoffDoubles(a: nat)
    requires a > 0
    ensures BackoffMs(a + 1) == if 2 * BackoffMs(a) <= 1_800_000 then 2 * BackoffMs(a) else 1_800_000
  {
    assert Pow2(a) == 2 * Pow2(a - 1);
  }

  /**
   Every routed error of a held row, told by its code, the copy's attempt and the row: an
   incurable code fails it; below five attempts it waits and is retried; at five attempts
   it continues on the next page if it is a products run stopped by an unreachable
   marketplace on one of the first 99 pages, and fails otherwise.
   */
  lemma RoutedErrorOutcome(t: Table, id: RowId, attempts: nat, code: ErrorCode, httpStatus: int, w: Worker, now: Instant)
    requires id in t && Held(t[id], w)
    ensures var r, r' := t[id], RoutedRow(t, id, attempts, code, httpStatus, w, now);
            && (Incurable(code) ==> r'.status == FAILED && r'.errorCode == Some(code))
            && (!Incurable(code) && attempts < 5 ==>
                  && r'.status == FAILED_RETRYABLE && r'.claimedBy == None && r'.errorCode == Some(code)
                  && r'.pageCursor == r.pageCursor && r'.attemptCount == r.attemptCount
                  && (attempts > 0 ==> r'.nextAttemptAt == Some(now + [30_000, 60_000, 120_000, 240_000][attempts - 1])))
            && (!Incurable(code) && attempts >= 5 ==>
                  if code == MARKETPLACE_UNREACHABLE && OnSkippablePage(r) then
                    && r'.status == PENDING && r'.pageCursor == Page(PageNumber(r) + 1) && r'.attemptCount == 0
                    && r'.claimedBy == None && r'.nextAttemptAt == None && r'.progress == r.progress
                    && r'.skippedPages == r.skippedPages + [SkipEntry(PageNumber(r), now, MARKETPLACE_UNREACHABLE, httpStatus)]
                  else r'.status == FAILED && r'.errorCode == Some(code))
  {
    BackoffTable();
  }

  // ─── Routed runs ──────────────────────────────────────────────────────

  /** A step of the system: a database step that routes no error, or an error of a worker's run. */
  datatype Step =
    | Plain(ev: Event)
    | RunError(worker: Worker, id: RowId, attempts: nat, code: ErrorCode, httpStatus: int)

  datatype TimedStep = TimedStep(now: Instant, step: Step)

  type Steps = seq<TimedStep>

  function EventOf(t: Table, s: Step, now: Instant): Event {
    match s
    case Plain(ev) => ev
    case RunError(w, id, attempts, code, httpStatus) =>
      Fenced(w, id, ErrorWrite(t, id, if id in t then t[id].syncType else PRODUCTS, attempts, code, httpStatus, now))
  }

  /** The run of database steps that the steps amount to. */
  function TraceOf(steps: Steps): (tr: Trace)
    ensures |tr| == |steps|
  {
    if steps == [] then []
    else
      var tr, last := TraceOf(steps[..|steps| - 1]), steps[|steps| - 1];
      tr + [Timed(last.now, EventOf(Final(tr), last.step, last.now))]
  }

  /** Failing, backing off and skipping are left to the error routing. */
  predicate RoutesNoError(s: Step) {
    s.Plain? && s.ev.Fenced? ==> !s.ev.op.Fail? && !s.ev.op.MarkRetryable? && !s.ev.op.SkipPage?
  }

  predicate RoutedRun(steps: Steps) {
    Run(TraceOf(steps)) && forall k :: 0 <= k < |steps| ==> RoutesNoError(steps[k].step)
  }

  function TableAfter(steps: Steps): Table { Final(TraceOf(steps)) }

  lemma TraceGrows(steps: Steps)
    requires steps != []
    ensures var pre, last := steps[..|steps| - 1], steps[|steps| - 1];
            && TraceOf(steps) != [] && Front(TraceOf(steps)) == TraceOf(pre)
            && Last(TraceOf(steps)) == Timed(last.now, EventOf(TableAfter(pre), last.step, last.now))
            && TableAfter(steps) == Apply(TableAfter(pre), EventOf(TableAfter(pre), last.step, last.now), last.now)
  {
  }

  lemma RoutedFront(steps: Steps)
    requires steps != [] && RoutedRun(steps)
    ensures RoutedRun(steps[..|steps| - 1])
    ensures var pre, last := steps[..|steps| - 1], steps[|steps| - 1];
            && Clock(TraceOf(pre)) <= last.now
            && Enabled(TableAfter(pre), EventOf(TableAfter(pre), last.step, last.now), last.now)
  {
    TraceGrows(steps);
  }

  // ─── Exactly when a row fails ─────────────────────────────────────────

  /**
   The step fails row `id`, seen from the table before it: an incurable error of its holder;
   another error of its holder at five attempts that no page skip recovers; or the watchdog
   finding five claims burnt since the last reset on a row that waits or has been silent for
   more than 90 seconds.
   */
  predicate FailsRow(t: Table, s: Step, now: Instant, id: RowId, claims: nat) {
    match s
    case RunError(w, i, attempts, code, _) =>
      && i == id && id in t && Held(t[id], w)
      && (Incurable(code) || (attempts >= 5 && !(code == MARKETPLACE_UNREACHABLE && OnSkippablePage(t[id]))))
    case Plain(ev) =>
      && ev.Sweep? && id in t && claims == 5
      && (Waiting(t[id]) || (t[id].status == RUNNING && t[id].lastTickAt.GetOr(now) + 90_000 < now))
  }

  lemma StepFailsIff(t: Table, s: Step, before: Instant, now: Instant, id: RowId)
    requires TableOk(t, before) && before <= now && Enabled(t, EventOf(t, s, now), now) && RoutesNoError(s)
    requires id in t ==> t[id].status != FAILED
    ensures var t' := Apply(t, EventOf(t, s, now), now);
            (id in t' && t'[id].status == FAILED) <==> FailsRow(t, s, now, id, if id in t then t[id].attemptCount else 0)
  {
    match s
    case RunError(w, i, attempts, code, httpStatus) =>
      if i in t && Held(t[i], w) { RoutedErrorOutcome(t, i, attempts, code, httpStatus, w, now); }
    case Plain(ev) =>
      PlainFailsIff(t, ev, before, now, id);
  }

  lemma PlainFailsIff(t: Table, ev: Event, before: Instant, now: Instant, id: RowId)
    requires TableOk(t, before) && before <= now && Enabled(t, ev, now) && RoutesNoError(Plain(ev))
    requires id in t ==> t[id].status != FAILED
    ensures var t' := Apply(t, ev, now);
            (id in t' && t'[id].status == FAILED) <==> FailsRow(t, Plain(ev), now, id, if id in t then t[id].attemptCount else 0)
  {
    match ev
    case Acquire(_, _, _, _) =>
    case Claim(_, _) =>
    case Fenced(_, _, _) =>
    case Sweep =>
      SweepIsRowwise(t, now);
      if id in t { assert RowOk(t[id], before); }
  }

  predicate FailsAt(steps: Steps, k: nat, id: RowId)
    requires k < |steps|
  {
    FailsRow(TableAfter(steps[..k]), steps[k].step, steps[k].now, id, ClaimsSinceReset(TraceOf(steps[..k]), id))
  }

  /** Some step of the run failed the row. */
  predicate FailedBy(steps: Steps, id: RowId) { exists k :: 0 <= k < |steps| && FailsAt(steps, k, id) }

  lemma FailsAtFront(steps: Steps, k: nat, id: RowId)
    requires k < |steps| - 1
    ensures FailsAt(steps[..|steps| - 1], k, id) == FailsAt(steps, k, id)
  {
    assert steps[..|steps| - 1][..k] == steps[..k];
  }

  lemma FailedByGrows(steps: Steps, id: RowId)
    requires steps != []
    ensures FailedBy(steps, id) <==> FailedBy(steps[..|steps| - 1], id) || FailsAt(steps, |steps| - 1, id)
  {
    var pre := steps[..|steps| - 1];
    if k :| 0 <= k < |pre| && FailsAt(pre, k, id) { FailsAtFront(steps, k, id); }
    if k :| 0 <= k < |steps| && FailsAt(steps, k, id) {
      if k < |pre| { FailsAtFront(steps, k, id); }
    }
  }

  /** In every routed run a row is FAILED exactly when some step failed it in one of those ways. */
  lemma {:induction false} FailedIff(steps: Steps, id: RowId)
    requires RoutedRun(steps)
    ensures (id in TableAfter(steps) && TableAfter(steps)[id].status == FAILED) <==> FailedBy(steps, id)
  {
    if steps != [] {
      var pre, last := steps[..|steps| - 1], steps[|steps| - 1];
      var t := TableAfter(pre);
      RoutedFront(steps);
      TraceGrows(steps);
      FailedIff(pre, id);
      FailedByGrows(steps, id);
      ReachableTable(TraceOf(pre));
      AttemptsCountClaims(TraceOf(pre), id);
      if id in t && t[id].status == FAILED {
        StepFreezesTerminal(t, EventOf(t, last.step, last.now), last.now, id);
      } else {
        StepFailsIff(t, last.step, Clock(TraceOf(pre)), last.now, id);
      }
    }
  }

  /** Step `k` routes an error of the worker that holds row `id`. */
  predicate HitsHolder(steps: Steps, k: nat, id: RowId)
    requires k < |steps|
  {
    && steps[k].step.RunError? && steps[k].step.id == id
    && id in TableAfter(steps[..k]) && Held(TableAfter(steps[..k])[id], steps[k].step.worker)
  }

  /** From the step that routes an incurable error of its holder on, a row is FAILED for good. */
  lemma IncurableErrorsFail(steps: Steps, k: nat, id: RowId)
    requires RoutedRun(steps) && k < |steps| && HitsHolder(steps, k, id)
    requires steps[k].step.code == MARKETPLACE_AUTH_FAILED || steps[k].step.code == MARKETPLACE_ACCESS_DENIED
    ensures id in TableAfter(steps) && TableAfter(steps)[id].status == FAILED
  {
    FailedIff(steps, id);
    assert FailsAt(steps, k, id);
  }

  /**
   A row that was never hit by an incurable error of its holder, never routed from a copy at
   five attempts, and never claimed five times since its last reset, is never FAILED.
   */
  lemma OtherwiseNeverFailed(steps: Steps, id: RowId)
    requires RoutedRun(steps)
    requires forall k :: 0 <= k < |steps| && HitsHolder(steps, k, id) ==>
               && steps[k].step.attempts < 5
               && steps[k].step.code != MARKETPLACE_AUTH_FAILED && steps[k].step.code != MARKETPLACE_ACCESS_DENIED
    requires forall k :: 0 <= k <= |steps| ==> ClaimsSinceReset(TraceOf(steps[..k]), id) < 5
    ensures id in TableAfter(steps) ==> TableAfter(steps)[id].status != FAILED
  {
    FailedIff(steps, id);
    forall k | 0 <= k < |steps| ensures !FailsAt(steps, k, id) {
      if HitsHolder(steps, k, id) { assert steps[k].step.attempts < 5; }
    }
  }
}
