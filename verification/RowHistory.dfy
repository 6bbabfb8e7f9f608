/**
 What the columns of a sync row tell about the run that led to it: when its worker last gave
 a sign of life, when the row ended, and which error it last reported; and what keeps a
 running row out of the watchdog's reach.
 */
module RowHistory {
  import opened Options
  import opened SyncLog
  import opened LeaseRuns

  // ─── The history of one row ───────────────────────────────────────────

  /** The last sign of life of a row's worker, the end of the row, and the last error not cleared since. */
  datatype History = History(sign: Option<Instant>, ended: Option<Instant>, error: Option<ErrorCode>)

  /** A fenced write of the worker that runs the row. */
  predicate ByItsWorker(t: Table, e: Event, id: RowId) {
    e.Fenced? && e.id == id && id in t && t[id].status == RUNNING && t[id].claimedBy == Some(e.worker)
  }

  /** The sweep gives up on the row: five claims burnt, and it waits or has been silent for more than 90 seconds. */
  predicate GivenUp(t: Table, h: History, now: Instant, id: RowId) {
    && id in t && t[id].attemptCount == 5
    && (Waiting(t[id]) || (t[id].status == RUNNING && h.sign.GetOr(now) + 90_000 < now))
  }

  function AfterWrite(h: History, op: FencedOp, now: Instant): History {
    match op
    case Tick(_, _) => h.(sign := Some(now))
    case Heartbeat => h.(sign := Some(now))
    case Complete(_) => h.(ended := Some(now), error := None)
    case Fail(code) => h.(ended := Some(now), error := Some(code))
    case MarkRetryable(_, code) => h.(error := Some(code))
    case ReleaseToPending => h
    case SkipPage(_, _) => h.(error := None)
  }

  function HistoryOf(tr: Trace, id: RowId): History {
    if tr == [] then History(None, None, None)
    else
      var h, t, step := HistoryOf(Front(tr), id), Final(Front(tr)), Last(tr);
      match step.ev
      case Acquire(_, _, _, _) => h
      case Claim(_, i) => if i == id then h.(sign := Some(step.now)) else h
      case Fenced(_, _, op) => if ByItsWorker(t, step.ev, id) then AfterWrite(h, op, step.now) else h
      case Sweep => if GivenUp(t, h, step.now, id) then h.(ended := Some(step.now), error := Some(INTERNAL_ERROR)) else h
  }

  predicate Tells(r: Row, h: History) { r.lastTickAt == h.sign && r.completedAt == h.ended && r.errorCode == h.error }

  lemma WriteTells(t: Table, h: History, e: Event, now: Instant, id: RowId)
    requires id in t && Tells(t[id], h) && ByItsWorker(t, e, id)
    ensures Tells(Apply(t, e, now)[id], AfterWrite(h, e.op, now))
  {
  }

  lemma SweepTells(t: Table, h: History, before: Instant, now: Instant, id: RowId)
    requires TableOk(t, before) && id in t && Tells(t[id], h)
    ensures Tells(Apply(t, Sweep, now)[id],
                  if GivenUp(t, h, now, id) then h.(ended := Some(now), error := Some(INTERNAL_ERROR)) else h)
  {
    SweepIsRowwise(t, now);
    assert RowOk(t[id], before);
  }

  /**
   In every run the columns say what happened: the tick is the time of the worker's last
   claim, tick or heartbeat; the completion time is when the row ended; and the error is the
   last one reported, kept through waiting, release and new claims until the row completes,
   skips its page or reports another.
   */
  lemma {:induction false} RowTellsItsHistory(tr: Trace, id: RowId)
    requires Run(tr)
    ensures id in Final(tr) ==> Tells(Final(tr)[id], HistoryOf(tr, id))
    ensures id !in Final(tr) ==> HistoryOf(tr, id) == History(None, None, None)
  {
    if tr != [] {
      var t, h, step := Final(Front(tr)), HistoryOf(Front(tr), id), Last(tr);
      RowTellsItsHistory(Front(tr), id);
      ReachableTable(Front(tr));
      match step.ev
      case Acquire(_, _, _, _) =>
      case Claim(_, _) =>
      case Fenced(_, _, _) => if ByItsWorker(t, step.ev, id) { WriteTells(t, h, step.ev, step.now, id); }
      case Sweep => if id in t { SweepTells(t, h, Clock(Front(tr)), step.now, id); }
    }
  }

  /** The watchdog takes a running row from its worker exactly when more than 90 seconds passed without a sign of life. */
  lemma SilentWorkersLoseTheRow(tr: Trace, id: RowId, now: Instant)
    requires Run(tr) && Clock(tr) <= now && id in Final(tr) && Final(tr)[id].status == RUNNING
    ensures HistoryOf(tr, id).sign.Some? && HistoryOf(tr, id).sign.value <= Clock(tr)
    ensures Apply(Final(tr), Sweep, now)[id].status == RUNNING <==> now <= HistoryOf(tr, id).sign.value + 90_000
    ensures now <= HistoryOf(tr, id).sign.value + 90_000 ==> Apply(Final(tr), Sweep, now)[id] == Final(tr)[id]
  {
    RowTellsItsHistory(tr, id);
    ReachableTable(tr);
    assert RowOk(Final(tr)[id], Clock(tr));
    SweepIsRowwise(Final(tr), now);
  }

  // ─── Ended rows ───────────────────────────────────────────────────────

  /** Exactly the ended rows carry an end time; a completed one reports no error, a failed or retried one does. */
  predicate EndsWell(r: Row) {
    && (r.completedAt.Some? <==> r.status == COMPLETED || r.status == FAILED)
    && (r.status == COMPLETED ==> r.errorCode == None && r.progress == r.recordsProcessed)
    && (r.status == FAILED || r.status == FAILED_RETRYABLE ==> r.errorCode.Some?)
    && (r.status != COMPLETED ==> r.recordsProcessed == 0)
  }

  lemma WrittenEndsWell(r: Row, w: Worker, op: FencedOp, now: Instant)
    requires EndsWell(r) && Held(r, w)
    ensures EndsWell(Written(r, op, now))
  {
  }

  lemma SweptEndsWell(r: Row, now: Instant)
    requires EndsWell(r)
    ensures EndsWell(Swept(r, now))
  {
  }

  lemma StepEndsWell(t: Table, e: Event, now: Instant, id: RowId)
    requires (id in t ==> EndsWell(t[id])) && Enabled(t, e, now) && id in Apply(t, e, now)
    ensures EndsWell(Apply(t, e, now)[id])
  {
    match e
    case Acquire(_, _, _, _) =>
    case Claim(_, _) =>
    case Fenced(w, i, op) => if i == id && id in t && Held(t[id], w) { WrittenEndsWell(t[id], w, op, now); }
    case Sweep =>
      SweepIsRowwise(t, now);
      SweptEndsWell(t[id], now);
  }

  /** Every row of every run is like that. */
  lemma {:induction false} RowsEndWell(tr: Trace, id: RowId)
    requires Run(tr) && id in Final(tr)
    ensures EndsWell(Final(tr)[id])
  {
    if tr != [] {
      if id in Final(Front(tr)) { RowsEndWell(Front(tr), id); }
      StepEndsWell(Final(Front(tr)), Last(tr).ev, Last(tr).now, id);
    }
  }

  // ─── The slot ─────────────────────────────────────────────────────────

  /** A new row is inserted exactly when every earlier one of its store and type has ended; it starts waiting and empty. */
  lemma AcquiredIffAllEnded(t: Table, id: RowId, store: nat, syncType: SyncType, startedAt: Instant, now: Instant)
    requires id !in t
    ensures var t' := Apply(t, Acquire(id, store, syncType, startedAt), now);
            && (id in t' <==> forall j :: j in t && t[j].store == store && t[j].syncType == syncType ==>
                                t[j].status == COMPLETED || t[j].status == FAILED)
            && (id !in t' ==> t' == t)
            && (id in t' ==> && t'[id].status == PENDING && t'[id].attemptCount == 0 && t'[id].pageCursor == NoCursor
                             && t'[id].progress == 0 && t'[id].claimedBy == None && t'[id].startedAt == startedAt)
  {
  }
}
