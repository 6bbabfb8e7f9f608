/**
 The schedules of HandOff refine the lease protocol: what tasks, chunks and crashes do to the
 table is one run of its atomic steps, so every property of lease runs holds under them.
 */
module HandOffRuns {
  import opened Options
  import opened SyncLog
  import L = LeaseRuns
  import opened HandOff

  /** The database step a move amounts to; dispatching a chunk and crashing touch no row. */
  function StepOf(s: World, id: RowId, h: Handler, m: Move, now: Instant): Option<Event>
    requires EnabledMove(s, id, m, now)
  {
    match m
    case Elsewhere(e) => Some(e)
    case ClaimRow(w, _) => Some(Claim(w, id))
    case DispatchChunk(_) => None
    case CommitChunk(k) =>
      (match s.tasks[k].phase.result
       case Continue(cursor, progress) => Some(Fenced(s.tasks[k].worker, id, Tick(cursor, progress)))
       case Done(count) => Some(Fenced(s.tasks[k].worker, id, Complete(count))))
    case ReleaseTask(k) => Some(Fenced(s.tasks[k].worker, id, ReleaseToPending))
    case ErrorOut(k, op) => Some(Fenced(s.tasks[k].worker, id, op))
    case Crash(_) => None
  }

  lemma MoveIsItsStep(s: World, id: RowId, h: Handler, m: Move, now: Instant)
    requires EnabledMove(s, id, m, now)
    ensures var step := StepOf(s, id, h, m, now);
            && (step.Some? ==> Enabled(s.t, step.value, now) && Moved(s, id, h, m, now).t == Apply(s.t, step.value, now))
            && (step.None? ==> Moved(s, id, h, m, now).t == s.t)
  {
  }

  /** The run behind the world, continued by the steps of the schedule. */
  function RunOf(tr: L.Trace, s0: World, id: RowId, h: Handler, sc: Schedule): L.Trace
    requires Schedulable(s0, id, h, sc)
  {
    if sc == [] then tr
    else
      var pre, last := sc[..|sc| - 1], sc[|sc| - 1];
      match StepOf(After(s0, id, h, pre), id, h, last.m, last.now)
      case None => RunOf(tr, s0, id, h, pre)
      case Some(e) => RunOf(tr, s0, id, h, pre) + [L.Timed(last.now, e)]
  }

  /** The clock of a schedule starts no earlier than `from` and never runs backwards. */
  predicate Timely(sc: Schedule, from: Instant) {
    sc != [] ==> Timely(sc[..|sc| - 1], from) && sc[|sc| - 1].now >= if |sc| == 1 then from else sc[|sc| - 2].now
  }

  function Now(sc: Schedule, from: Instant): Instant { if sc == [] then from else sc[|sc| - 1].now }

  /**
   After any schedule the table is the outcome of a run of the lease protocol: each chunk
   commit, release and routed error is exactly one fenced write of its task's worker.
   */
  lemma {:induction false} ScheduleIsALeaseRun(tr: L.Trace, s0: World, id: RowId, h: Handler, sc: Schedule)
    requires L.Run(tr) && L.Final(tr) == s0.t && Schedulable(s0, id, h, sc) && Timely(sc, L.Clock(tr))
    ensures L.Run(RunOf(tr, s0, id, h, sc)) && L.Final(RunOf(tr, s0, id, h, sc)) == After(s0, id, h, sc).t
    ensures L.Clock(RunOf(tr, s0, id, h, sc)) <= Now(sc, L.Clock(tr))
  {
    if sc != [] {
      var pre, last := sc[..|sc| - 1], sc[|sc| - 1];
      var s := After(s0, id, h, pre);
      ScheduleIsALeaseRun(tr, s0, id, h, pre);
      MoveIsItsStep(s, id, h, last.m, last.now);
      match StepOf(s, id, h, last.m, last.now)
      case None =>
      case Some(e) => L.ExtendRun(RunOf(tr, s0, id, h, pre), e, last.now);
    }
  }

  /** So tasks, stale or not, never break the slots, the holders or the attempt budget of the table. */
  lemma SchedulesKeepTheTable(tr: L.Trace, s0: World, id: RowId, h: Handler, sc: Schedule)
    requires L.Run(tr) && L.Final(tr) == s0.t && Schedulable(s0, id, h, sc) && Timely(sc, L.Clock(tr))
    ensures L.TableOk(After(s0, id, h, sc).t, L.Clock(RunOf(tr, s0, id, h, sc)))
  {
    ScheduleIsALeaseRun(tr, s0, id, h, sc);
    L.ReachableTable(RunOf(tr, s0, id, h, sc));
  }
}
