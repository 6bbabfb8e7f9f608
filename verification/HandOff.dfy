/**
 Driving a claimed run chunk by chunk, and handing it over between workers. A handler
 is a function of (cursor, progress). One row is tracked; any number of tasks, live or
 stale, work on it between the steps of everybody else.
 */
module HandOff {
  import opened Options
  import opened SyncLog

  datatype ChunkResult = Continue(cursor: Cursor, progress: nat) | Done(finalCount: nat)

  /** Where a run stands: what a chunk handler is called with. */
  datatype Point = Point(cursor: Cursor, progress: nat)

  type Handler = Point -> ChunkResult

  // ─── The uninterrupted run ────────────────────────────────────────────

  /** The input of chunk number `j` of one uninterrupted run, if the run has that many chunks. */
  function Chunk(h: Handler, start: Point, j: nat): Option<Point> {
    if j == 0 then Some(start)
    else match Chunk(h, start, j - 1)
      case None => None
      case Some(p) =>
        match h(p)
        case Continue(cursor, progress) => Some(Point(cursor, progress))
        case Done(_) => None
  }

  predicate HasChunks(h: Handler, start: Point, n: nat) { n > 0 ==> Chunk(h, start, n - 1).Some? }

  function FirstChunks(h: Handler, start: Point, n: nat): (chunks: seq<Point>)
    requires HasChunks(h, start, n)
    ensures |chunks| == n
    ensures forall j :: 0 <= j < n ==> Some(chunks[j]) == Chunk(h, start, j)
  {
    if n == 0 then [] else FirstChunks(h, start, n - 1) + [Chunk(h, start, n - 1).value]
  }

  /** The uninterrupted run ends in chunk `n`, reporting `count` records. */
  predicate Finishes(h: Handler, start: Point, n: nat, count: nat) {
    Chunk(h, start, n).Some? && h(Chunk(h, start, n).value) == Done(count)
  }

  lemma {:induction false} NoChunkAfterTheLast(h: Handler, start: Point, n: nat, m: nat, count: nat)
    requires Finishes(h, start, n, count) && n < m
    ensures Chunk(h, start, m).None?
  {
    if n < m - 1 { NoChunkAfterTheLast(h, start, n, m - 1, count); }
  }

  /** There is only one way for the uninterrupted run to end. */
  lemma FinishIsUnique(h: Handler, start: Point, n: nat, count: nat, n': nat, count': nat)
    requires Finishes(h, start, n, count) && Finishes(h, start, n', count')
    ensures n == n' && count == count'
  {
    if n < n' { NoChunkAfterTheLast(h, start, n, n', count); }
    if n' < n { NoChunkAfterTheLast(h, start, n', n, count'); }
  }

  // ─── The chunk loop ───────────────────────────────────────────────────

  datatype LoopEnd = Completed | Released | Lost

  /**
   Drive a claimed copy until done or shutdown; `shutdownAfter` is the number of chunks
   after which the shutdown flag is up, `clock` the time of each write. This is the loop
   as seen between steps of other workers; their interference is the `World` below.
   */
  method RunSyncToCompletion(table: SyncLogTable, id: RowId, claimed: Point, h: Handler, shutdownAfter: nat,
                             w: Worker, clock: nat -> Instant)
    returns (end: LoopEnd, chunks: seq<Point>)
    modifies table
    ensures HasChunks(h, claimed, |chunks|) && chunks == FirstChunks(h, claimed, |chunks|)
    ensures end == Lost <==> !(id in old(table.rows) && Held(old(table.rows)[id], w))
    ensures end == Lost ==> table.rows == old(table.rows) && |chunks| <= 1
    ensures end != Lost ==> id in table.rows && table.rows.Keys == old(table.rows).Keys
                            && forall j :: j in table.rows && j != id ==> table.rows[j] == old(table.rows)[j]
    ensures end == Completed ==>
              && 0 < |chunks| <= shutdownAfter && table.rows[id].status == COMPLETED
              && Finishes(h, claimed, |chunks| - 1, table.rows[id].recordsProcessed)
    ensures end == Released ==>
              && |chunks| == shutdownAfter && table.rows[id].status == PENDING && table.rows[id].claimedBy == None
              && table.rows[id].attemptCount == 0 && Chunk(h, claimed, shutdownAfter).Some?
              && (shutdownAfter > 0 || Here(old(table.rows)[id]) == claimed ==>
                    Here(table.rows[id]) == Chunk(h, claimed, shutdownAfter).value)
  {
    var working := claimed;
    chunks := [];
    while |chunks| < shutdownAfter
      invariant |chunks| <= shutdownAfter
      invariant Chunk(h, claimed, |chunks|) == Some(working)
      invariant chunks == FirstChunks(h, claimed, |chunks|)
      invariant chunks == [] ==> table.rows == old(table.rows)
      invariant chunks != [] ==> id in old(table.rows) && Held(old(table.rows)[id], w) && id in table.rows
                                 && Held(table.rows[id], w) && Here(table.rows[id]) == working
      invariant table.rows.Keys == old(table.rows).Keys
      invariant forall j :: j in table.rows && j != id ==> table.rows[j] == old(table.rows)[j]
    {
      var result := h(working);
      ghost var n := |chunks|;
      chunks := chunks + [working];
      match result {
        case Done(finalCount) =>
          var res := table.FencedUpdate(id, w, Complete(finalCount), clock(|chunks|));
          end := if res == LostLease then Lost else Completed;
          return;
        case Continue(cursor, progress) =>
          var res := table.FencedUpdate(id, w, Tick(cursor, progress), clock(|chunks|));
          if res == LostLease {
            end := Lost;
            return;
          }
          working := Point(cursor, progress);
      }
    }
    var res := table.FencedUpdate(id, w, ReleaseToPending, clock(|chunks|));
    end := if res == LostLease then Lost else Released;
  }

  function Here(r: Row): Point { Point(r.pageCursor, r.progress) }

  // ─── Many tasks, arbitrarily interleaved ──────────────────────────────

  datatype Phase = Ready | Dispatched(result: ChunkResult)

  /** One in-memory task: its own copy of where the run stands, and the claimed attempt count. */
  datatype Task = Task(worker: Worker, at: Point, attempts: nat, phase: Phase)

  /**
   The table, the tasks that work on the tracked row, the chunks dispatched for it so
   far, and three tallies: committed ticks, completions, and claims lost in the middle of a
   chunk, by a lost lease, an error or a crash.
   */
  datatype World = World(t: Table, tasks: map<nat, Task>, log: seq<Point>, ticks: nat, done: nat, lost: nat)

  datatype Move =
    | Elsewhere(e: Event)
    | ClaimRow(worker: Worker, task: nat)
    | DispatchChunk(task: nat)
    | CommitChunk(task: nat)
    | ReleaseTask(task: nat)
    | ErrorOut(task: nat, op: FencedOp)
    | Crash(task: nat)

  predicate EnabledMove(s: World, id: RowId, m: Move, now: Instant) {
    match m
    case Elsewhere(e) =>
      && Enabled(s.t, e, now)
      && (e.Claim? ==> e.id != id)
      && (e.Fenced? ==> e.id != id || e.op.Heartbeat?)
    case ClaimRow(_, task) => task !in s.tasks && Choosable(s.t, id, now)
    case DispatchChunk(k) => k in s.tasks && s.tasks[k].phase.Ready?
    case CommitChunk(k) => k in s.tasks && s.tasks[k].phase.Dispatched?
    case ReleaseTask(k) => k in s.tasks && s.tasks[k].phase.Ready?
    case ErrorOut(k, op) =>
      && k in s.tasks && s.tasks[k].phase.Dispatched?
      && (op.Fail? || (op.MarkRetryable? && op.attempts == s.tasks[k].attempts))
    case Crash(k) => k in s.tasks
  }

  function Without(tasks: map<nat, Task>, k: nat): map<nat, Task> { map j | j in tasks && j != k :: tasks[j] }

  /** Issue a fenced write; if the fence rejects it the task dies, otherwise it goes on as `alive` says. */
  function Write(s: World, id: RowId, k: nat, op: FencedOp, now: Instant): World
    requires k in s.tasks
  {
    s.(t := Apply(s.t, Fenced(s.tasks[k].worker, id, op), now))
  }

  function Moved(s: World, id: RowId, h: Handler, m: Move, now: Instant): World
    requires EnabledMove(s, id, m, now)
  {
    match m
    case Elsewhere(e) => s.(t := Apply(s.t, e, now))
    case ClaimRow(w, k) =>
      var t' := Apply(s.t, Claim(w, id), now);
      s.(t := t', tasks := s.tasks[k := Task(w, Here(t'[id]), t'[id].attemptCount, Ready)])
    case DispatchChunk(k) =>
      var task := s.tasks[k];
      s.(log := s.log + [task.at], tasks := s.tasks[k := task.(phase := Dispatched(h(task.at)))])
    case CommitChunk(k) =>
      var task := s.tasks[k];
      if !(id in s.t && Held(s.t[id], task.worker)) then s.(tasks := Without(s.tasks, k), lost := s.lost + 1)
      else (
        match task.phase.result
        case Continue(cursor, progress) =>
          Write(s, id, k, Tick(cursor, progress), now).(
            tasks := s.tasks[k := task.(at := Point(cursor, progress), phase := Ready)], ticks := s.ticks + 1)
        case Done(count) =>
          Write(s, id, k, Complete(count), now).(tasks := Without(s.tasks, k), done := s.done + 1))
    case ReleaseTask(k) => Write(s, id, k, ReleaseToPending, now).(tasks := Without(s.tasks, k))
    case ErrorOut(k, op) => Write(s, id, k, op, now).(tasks := Without(s.tasks, k), lost := s.lost + 1)
    case Crash(k) => s.(tasks := Without(s.tasks, k), lost := s.lost + if s.tasks[k].phase.Dispatched? then 1 else 0)
  }

  datatype TimedMove = TimedMove(now: Instant, m: Move)

  type Schedule = seq<TimedMove>

  predicate Schedulable(s0: World, id: RowId, h: Handler, sc: Schedule)
    decreases |sc|, 0
  {
    sc != [] ==>
      && Schedulable(s0, id, h, sc[..|sc| - 1])
      && EnabledMove(After(s0, id, h, sc[..|sc| - 1]), id, sc[|sc| - 1].m, sc[|sc| - 1].now)
  }

  function After(s0: World, id: RowId, h: Handler, sc: Schedule): World
    requires Schedulable(s0, id, h, sc)
    decreases |sc|, 1
  {
    if sc == [] then s0
    else Moved(After(s0, id, h, sc[..|sc| - 1]), id, h, sc[|sc| - 1].m, sc[|sc| - 1].now)
  }

  /** A fresh run of the tracked row: waiting at `start`, nobody working on it. */
  predicate FreshWorld(s: World, id: RowId, start: Point) {
    && id in s.t && Waiting(s.t[id]) && Here(s.t[id]) == start && s.t[id].claimedBy == None
    && s.tasks == map[] && s.log == [] && s.ticks == 0 && s.done == 0 && s.lost == 0
  }

  // ─── At most one chunk repeated per lost claim ────────────────────────

  /** No worker claims the row while an older task of its own still runs on it. */
  predicate NoSelfReclaim(s0: World, id: RowId, h: Handler, sc: Schedule)
    requires Schedulable(s0, id, h, sc)
  {
    sc != [] ==>
      && NoSelfReclaim(s0, id, h, sc[..|sc| - 1])
      && (var s := After(s0, id, h, sc[..|sc| - 1]);
          var m := sc[|sc| - 1].m;
          m.ClaimRow? ==> forall k :: k in s.tasks ==> s.tasks[k].worker != m.worker)
  }

  ghost predicate Reached(h: Handler, start: Point, n: nat, p: Point) {
    exists j :: 0 <= j <= n && Chunk(h, start, j) == Some(p)
  }

  function InFlight(s: World): set<nat> { set k | k in s.tasks && s.tasks[k].phase.Dispatched? }

  ghost predicate TasksOk(s: World, id: RowId, h: Handler, start: Point)
    requires id in s.t
  {
    && (forall k :: k in s.tasks ==>
          && Reached(h, start, s.ticks, s.tasks[k].at)
          && (s.tasks[k].phase.Dispatched? ==> s.tasks[k].phase.result == h(s.tasks[k].at) && s.tasks[k].at in s.log)
          && (Held(s.t[id], s.tasks[k].worker) ==> Some(s.tasks[k].at) == Chunk(h, start, s.ticks)))
    && (forall i, k :: i in s.tasks && k in s.tasks && i != k ==> s.tasks[i].worker != s.tasks[k].worker)
  }

  ghost predicate RowOnTrack(s: World, id: RowId, h: Handler, start: Point) {
    && id in s.t
    && Chunk(h, start, s.ticks).Some?
    && (Waiting(s.t[id]) ==> s.t[id].claimedBy == None)
    && (s.t[id].status != COMPLETED ==> Some(Here(s.t[id])) == Chunk(h, start, s.ticks) && s.done == 0)
    && (s.t[id].status == COMPLETED ==> s.done == 1 && Finishes(h, start, s.ticks, s.t[id].recordsProcessed))
  }

  ghost predicate LogOk(s: World, h: Handler, start: Point) {
    && (forall i :: 0 <= i < |s.log| ==> Reached(h, start, s.ticks, s.log[i]))
    && (forall j :: 0 <= j < s.ticks ==> Chunk(h, start, j).Some? && Chunk(h, start, j).value in s.log)
    && |s.log| <= s.ticks + s.done + s.lost + |InFlight(s)|
  }

  /** A completed run dispatched its last chunk too. */
  ghost predicate LastChunkLogged(s: World, id: RowId, h: Handler, start: Point)
    requires RowOnTrack(s, id, h, start)
  {
    s.t[id].status == COMPLETED ==> Chunk(h, start, s.ticks).value in s.log
  }

  ghost predicate OnTrack(s: World, id: RowId, h: Handler, start: Point) {
    RowOnTrack(s, id, h, start) && TasksOk(s, id, h, start) && LogOk(s, h, start) && LastChunkLogged(s, id, h, start)
  }

  lemma ReachedMonotone(h: Handler, start: Point, n: nat)
    ensures forall p :: Reached(h, start, n, p) ==> Reached(h, start, n + 1, p)
  {
  }

  /** What everybody else can do to the tracked row: beat its heart, or sweep it. */
  lemma ElsewhereOnRow(t: Table, e: Event, now: Instant, id: RowId)
    requires id in t && Enabled(t, e, now)
    requires (e.Claim? ==> e.id != id) && (e.Fenced? ==> e.id != id || e.op.Heartbeat?)
    ensures id in Apply(t, e, now)
    ensures var r, r' := t[id], Apply(t, e, now)[id];
            && Here(r') == Here(r)
            && (forall w :: Held(r', w) ==> Held(r, w))
            && (r.status == COMPLETED <==> r'.status == COMPLETED) && (r.status == COMPLETED ==> r' == r)
            && (Waiting(r') ==> Waiting(r) || r'.claimedBy == None)
            && (Waiting(r) && r.claimedBy == None ==> r'.claimedBy == None)
    ensures !(e.Sweep? && (ToTerminate(t[id], now) || ToRequeue(t[id], now))) ==>
              forall w :: Held(t[id], w) ==> Held(Apply(t, e, now)[id], w)
  {
    match e
    case Acquire(_, _, _, _) =>
    case Claim(_, _) =>
    case Fenced(_, _, _) =>
    case Sweep => SweepIsRowwise(t, now);
  }

  /** Any step that leaves tasks and log alone and touches the row only by heartbeat, claim of nobody, or sweep. */
  lemma ElsewhereKeepsOnTrack(s: World, id: RowId, h: Handler, start: Point, e: Event, now: Instant)
    requires OnTrack(s, id, h, start) && EnabledMove(s, id, Elsewhere(e), now)
    ensures OnTrack(Moved(s, id, h, Elsewhere(e), now), id, h, start)
  {
    var s' := Moved(s, id, h, Elsewhere(e), now);
    assert InFlight(s') == InFlight(s);
    ElsewhereOnRow(s.t, e, now, id);
  }

  lemma ClaimKeepsOnTrack(s: World, id: RowId, h: Handler, start: Point, w: Worker, k: nat, now: Instant)
    requires OnTrack(s, id, h, start) && EnabledMove(s, id, ClaimRow(w, k), now)
    requires forall j :: j in s.tasks ==> s.tasks[j].worker != w
    ensures OnTrack(Moved(s, id, h, ClaimRow(w, k), now), id, h, start)
  {
    var s' := Moved(s, id, h, ClaimRow(w, k), now);
    assert InFlight(s') == InFlight(s);
    assert Reached(h, start, s.ticks, s'.tasks[k].at);
  }

  lemma DispatchKeepsTasks(s: World, s': World, id: RowId, h: Handler, start: Point, k: nat)
    requires id in s.t && TasksOk(s, id, h, start) && k in s.tasks
    requires s' == s.(log := s.log + [s.tasks[k].at], tasks := s.tasks[k := s.tasks[k].(phase := Dispatched(h(s.tasks[k].at)))])
    ensures TasksOk(s', id, h, start)
  {
    assert s'.log[|s.log|] == s.tasks[k].at;
    assert forall p :: p in s.log ==> p in s'.log;
  }

  lemma DispatchKeepsLog(s: World, s': World, h: Handler, start: Point, k: nat)
    requires LogOk(s, h, start) && k in s.tasks && s.tasks[k].phase.Ready? && Reached(h, start, s.ticks, s.tasks[k].at)
    requires s' == s.(log := s.log + [s.tasks[k].at], tasks := s.tasks[k := s.tasks[k].(phase := Dispatched(h(s.tasks[k].at)))])
    ensures LogOk(s', h, start)
  {
    assert InFlight(s') == InFlight(s) + {k} && k !in InFlight(s);
    assert forall p :: p in s.log ==> p in s'.log;
  }

  lemma DispatchKeepsOnTrack(s: World, id: RowId, h: Handler, start: Point, k: nat, now: Instant)
    requires OnTrack(s, id, h, start) && EnabledMove(s, id, DispatchChunk(k), now)
    ensures OnTrack(Moved(s, id, h, DispatchChunk(k), now), id, h, start)
  {
    var s' := Moved(s, id, h, DispatchChunk(k), now);
    DispatchKeepsTasks(s, s', id, h, start, k);
    DispatchKeepsLog(s, s', h, start, k);
    assert forall p :: p in s.log ==> p in s'.log;
  }

  /** A task dies: the row either stays as it is, or its holder gives it up without completing it. */
  lemma TaskGoneKeepsOnTrack(s: World, s': World, id: RowId, h: Handler, start: Point, k: nat)
    requires OnTrack(s, id, h, start) && k in s.tasks
    requires s' == s.(t := s'.t, tasks := Without(s.tasks, k), lost := s'.lost)
    requires s'.lost >= s.lost + if s.tasks[k].phase.Dispatched? then 1 else 0
    requires id in s'.t
    requires s'.t[id] == s.t[id]
             || (s.t[id].status == RUNNING && s'.t[id].status !in {RUNNING, COMPLETED} && Here(s'.t[id]) == Here(s.t[id])
                 && (Waiting(s'.t[id]) ==> s'.t[id].claimedBy == None))
    ensures OnTrack(s', id, h, start)
  {
    assert InFlight(s') == InFlight(s) - {k};
  }

  lemma CompleteKeepsOnTrack(s: World, id: RowId, h: Handler, start: Point, k: nat, now: Instant)
    requires OnTrack(s, id, h, start) && EnabledMove(s, id, CommitChunk(k), now)
    requires Held(s.t[id], s.tasks[k].worker) && s.tasks[k].phase.result.Done?
    ensures OnTrack(Moved(s, id, h, CommitChunk(k), now), id, h, start)
  {
    var s' := Moved(s, id, h, CommitChunk(k), now);
    assert InFlight(s') == InFlight(s) - {k} && k in InFlight(s);
  }

  lemma TickKeepsLog(s: World, s': World, h: Handler, start: Point, k: nat)
    requires LogOk(s, h, start) && Chunk(h, start, s.ticks).Some?
    requires k in s.tasks && s.tasks[k].phase.Dispatched? && s.tasks[k].at in s.log
    requires Some(s.tasks[k].at) == Chunk(h, start, s.ticks)
    requires k in s'.tasks && s'.tasks[k].phase.Ready?
    requires s' == s.(t := s'.t, ticks := s.ticks + 1, tasks := s.tasks[k := s'.tasks[k]])
    ensures LogOk(s', h, start)
  {
    assert InFlight(s') == InFlight(s) - {k} && k in InFlight(s);
    ReachedMonotone(h, start, s.ticks);
  }

  lemma TickKeepsTasks(s: World, s': World, id: RowId, h: Handler, start: Point, k: nat)
    requires id in s.t && id in s'.t && TasksOk(s, id, h, start)
    requires k in s.tasks && Held(s.t[id], s.tasks[k].worker) && Held(s'.t[id], s.tasks[k].worker)
    requires k in s'.tasks && s'.tasks == s.tasks[k := s.tasks[k].(at := s'.tasks[k].at, phase := Ready)]
    requires s'.log == s.log && s'.ticks == s.ticks + 1
    requires Chunk(h, start, s.ticks + 1) == Some(s'.tasks[k].at)
    ensures TasksOk(s', id, h, start)
  {
    ReachedMonotone(h, start, s.ticks);
    assert Reached(h, start, s'.ticks, s'.tasks[k].at);
    forall j | j in s'.tasks && j != k
      ensures !Held(s'.t[id], s'.tasks[j].worker) && Reached(h, start, s'.ticks, s'.tasks[j].at)
    {
      assert s.tasks[j].worker != s.tasks[k].worker;
    }
  }

  lemma TickKeepsOnTrack(s: World, id: RowId, h: Handler, start: Point, k: nat, now: Instant)
    requires OnTrack(s, id, h, start) && EnabledMove(s, id, CommitChunk(k), now)
    requires Held(s.t[id], s.tasks[k].worker) && s.tasks[k].phase.result.Continue?
    ensures OnTrack(Moved(s, id, h, CommitChunk(k), now), id, h, start)
  {
    var s' := Moved(s, id, h, CommitChunk(k), now);
    TickKeepsLog(s, s', h, start, k);
    TickKeepsTasks(s, s', id, h, start, k);
  }

  lemma MoveKeepsOnTrack(s: World, id: RowId, h: Handler, start: Point, m: Move, now: Instant)
    requires OnTrack(s, id, h, start) && EnabledMove(s, id, m, now)
    requires m.ClaimRow? ==> forall k :: k in s.tasks ==> s.tasks[k].worker != m.worker
    ensures OnTrack(Moved(s, id, h, m, now), id, h, start)
  {
    match m
    case Elsewhere(e) => ElsewhereKeepsOnTrack(s, id, h, start, e, now);
    case ClaimRow(w, k) => ClaimKeepsOnTrack(s, id, h, start, w, k, now);
    case DispatchChunk(k) => DispatchKeepsOnTrack(s, id, h, start, k, now);
    case CommitChunk(k) =>
      if !Held(s.t[id], s.tasks[k].worker) {
        TaskGoneKeepsOnTrack(s, Moved(s, id, h, m, now), id, h, start, k);
      } else if s.tasks[k].phase.result.Done? {
        CompleteKeepsOnTrack(s, id, h, start, k, now);
      } else {
        TickKeepsOnTrack(s, id, h, start, k, now);
      }
    case ReleaseTask(k) => TaskGoneKeepsOnTrack(s, Moved(s, id, h, m, now), id, h, start, k);
    case ErrorOut(k, op) => TaskGoneKeepsOnTrack(s, Moved(s, id, h, m, now), id, h, start, k);
    case Crash(k) => TaskGoneKeepsOnTrack(s, Moved(s, id, h, m, now), id, h, start, k);
  }

  lemma {:induction false} AlwaysOnTrack(s0: World, id: RowId, h: Handler, start: Point, sc: Schedule)
    requires FreshWorld(s0, id, start) && Schedulable(s0, id, h, sc) && NoSelfReclaim(s0, id, h, sc)
    ensures OnTrack(After(s0, id, h, sc), id, h, start)
  {
    if sc == [] {
      assert InFlight(s0) == {};
    } else {
      var pre, last := sc[..|sc| - 1], sc[|sc| - 1];
      AlwaysOnTrack(s0, id, h, start, pre);
      MoveKeepsOnTrack(After(s0, id, h, pre), id, h, start, last.m, last.now);
    }
  }

  /**
   Any interleaving with lost claims, errors, crashes, sweeps and hand-offs, as long as
   no worker re-claims the row over its own older task: only chunks of the uninterrupted
   run are dispatched, every chunk behind the persisted cursor was dispatched, each claim lost
   in mid-chunk costs at most one repeated chunk, and the run completes at most once: then its
   last chunk was dispatched as well and the uninterrupted count is reported.
   */
  lemma LostClaimsRepeatOneChunkEach(s0: World, id: RowId, h: Handler, start: Point, sc: Schedule)
    requires FreshWorld(s0, id, start) && Schedulable(s0, id, h, sc) && NoSelfReclaim(s0, id, h, sc)
    ensures var s := After(s0, id, h, sc);
            && id in s.t
            && (forall i :: 0 <= i < |s.log| ==> Reached(h, start, s.ticks, s.log[i]))
            && (forall j :: 0 <= j < s.ticks ==> Chunk(h, start, j).Some? && Chunk(h, start, j).value in s.log)
            && |s.log| <= s.ticks + s.done + s.lost + |InFlight(s)|
            && (s.t[id].status != COMPLETED ==> Some(Here(s.t[id])) == Chunk(h, start, s.ticks))
            && s.done == (if s.t[id].status == COMPLETED then 1 else 0)
            && (s.t[id].status == COMPLETED ==>
                  && Finishes(h, start, s.ticks, s.t[id].recordsProcessed)
                  && Chunk(h, start, s.ticks).value in s.log)
  {
    AlwaysOnTrack(s0, id, h, start, sc);
  }

  // ─── Graceful hand-off is invisible ───────────────────────────────────

  /** No error, no crash, and the watchdog leaves the tracked row alone. */
  predicate Graceful(s0: World, id: RowId, h: Handler, sc: Schedule)
    requires Schedulable(s0, id, h, sc)
  {
    sc != [] ==>
      && Graceful(s0, id, h, sc[..|sc| - 1])
      && (var s, last := After(s0, id, h, sc[..|sc| - 1]), sc[|sc| - 1];
          && !last.m.ErrorOut? && !last.m.Crash?
          && (last.m.Elsewhere? && last.m.e.Sweep? && id in s.t ==>
                !ToTerminate(s.t[id], last.now) && !ToRequeue(s.t[id], last.now)))
  }

  /** Every task holds the row, and the log is exactly the chunks so far, in order. */
  ghost predicate Seamless(s: World, id: RowId, h: Handler, start: Point) {
    && RowOnTrack(s, id, h, start)
    && s.lost == 0
    && (forall k :: k in s.tasks ==>
          && Held(s.t[id], s.tasks[k].worker) && Some(s.tasks[k].at) == Chunk(h, start, s.ticks)
          && (s.tasks[k].phase.Dispatched? ==> s.tasks[k].phase.result == h(s.tasks[k].at)))
    && (forall i, k :: i in s.tasks && k in s.tasks ==> i == k)
    && HasChunks(h, start, |s.log|) && s.log == FirstChunks(h, start, |s.log|)
    && |s.log| == s.ticks + s.done + if exists k :: k in s.tasks && s.tasks[k].phase.Dispatched? then 1 else 0
  }

  lemma ElsewhereKeepsSeamless(s: World, id: RowId, h: Handler, start: Point, e: Event, now: Instant)
    requires Seamless(s, id, h, start) && EnabledMove(s, id, Elsewhere(e), now)
    requires e.Sweep? ==> !ToTerminate(s.t[id], now) && !ToRequeue(s.t[id], now)
    ensures Seamless(Moved(s, id, h, Elsewhere(e), now), id, h, start)
  {
    ElsewhereOnRow(s.t, e, now, id);
  }

  lemma ClaimKeepsSeamless(s: World, id: RowId, h: Handler, start: Point, w: Worker, k: nat, now: Instant)
    requires Seamless(s, id, h, start) && EnabledMove(s, id, ClaimRow(w, k), now)
    ensures Seamless(Moved(s, id, h, ClaimRow(w, k), now), id, h, start)
  {
    assert s.tasks == map[];
    var s' := Moved(s, id, h, ClaimRow(w, k), now);
    assert s'.tasks[k].at == Here(s.t[id]);
  }

  lemma DispatchKeepsSeamless(s: World, id: RowId, h: Handler, start: Point, k: nat, now: Instant)
    requires Seamless(s, id, h, start) && EnabledMove(s, id, DispatchChunk(k), now)
    ensures Seamless(Moved(s, id, h, DispatchChunk(k), now), id, h, start)
  {
    var s' := Moved(s, id, h, DispatchChunk(k), now);
    assert s'.tasks == map[k := s'.tasks[k]];
    assert s.done == 0 && |s.log| == s.ticks;
    assert s'.log == FirstChunks(h, start, |s.log| + 1);
  }

  lemma CommitKeepsSeamless(s: World, id: RowId, h: Handler, start: Point, k: nat, now: Instant)
    requires Seamless(s, id, h, start) && EnabledMove(s, id, CommitChunk(k), now)
    ensures Seamless(Moved(s, id, h, CommitChunk(k), now), id, h, start)
  {
    var s' := Moved(s, id, h, CommitChunk(k), now);
    assert s.done == 0 && |s.log| == s.ticks + 1;
    match s.tasks[k].phase.result
    case Done(_) => assert s'.tasks == map[];
    case Continue(_, _) => assert s'.tasks == map[k := s'.tasks[k]];
  }

  lemma ReleaseKeepsSeamless(s: World, id: RowId, h: Handler, start: Point, k: nat, now: Instant)
    requires Seamless(s, id, h, start) && EnabledMove(s, id, ReleaseTask(k), now)
    ensures Seamless(Moved(s, id, h, ReleaseTask(k), now), id, h, start)
  {
    assert Moved(s, id, h, ReleaseTask(k), now).tasks == map[];
  }

  lemma MoveKeepsSeamless(s: World, id: RowId, h: Handler, start: Point, m: Move, now: Instant)
    requires Seamless(s, id, h, start) && EnabledMove(s, id, m, now)
    requires !m.ErrorOut? && !m.Crash?
    requires m.Elsewhere? && m.e.Sweep? ==> !ToTerminate(s.t[id], now) && !ToRequeue(s.t[id], now)
    ensures Seamless(Moved(s, id, h, m, now), id, h, start)
  {
    match m
    case Elsewhere(e) => ElsewhereKeepsSeamless(s, id, h, start, e, now);
    case ClaimRow(w, k) => ClaimKeepsSeamless(s, id, h, start, w, k, now);
    case DispatchChunk(k) => DispatchKeepsSeamless(s, id, h, start, k, now);
    case CommitChunk(k) => CommitKeepsSeamless(s, id, h, start, k, now);
    case ReleaseTask(k) => ReleaseKeepsSeamless(s, id, h, start, k, now);
  }

  lemma {:induction false} AlwaysSeamless(s0: World, id: RowId, h: Handler, start: Point, sc: Schedule)
    requires FreshWorld(s0, id, start) && Schedulable(s0, id, h, sc) && Graceful(s0, id, h, sc)
    ensures Seamless(After(s0, id, h, sc), id, h, start)
  {
    if sc != [] {
      var pre, last := sc[..|sc| - 1], sc[|sc| - 1];
      AlwaysSeamless(s0, id, h, start, pre);
      MoveKeepsSeamless(After(s0, id, h, pre), id, h, start, last.m, last.now);
    }
  }

  /**
   Hand-off transparency: however a run is split over graceful releases and re-claims by
   any workers, it dispatches the chunks of one uninterrupted run, once each and in
   order; if it completes, it dispatched all of them and reports the uninterrupted count.
   */
  lemma GracefulHandOffIsInvisible(s0: World, id: RowId, h: Handler, start: Point, sc: Schedule)
    requires FreshWorld(s0, id, start) && Schedulable(s0, id, h, sc) && Graceful(s0, id, h, sc)
    ensures var s := After(s0, id, h, sc);
            && id in s.t
            && HasChunks(h, start, |s.log|) && s.log == FirstChunks(h, start, |s.log|)
            && (s.t[id].status == COMPLETED ==>
                  |s.log| > 0 && Finishes(h, start, |s.log| - 1, s.t[id].recordsProcessed))
  {
    AlwaysSeamless(s0, id, h, start, sc);
  }

  // ─── Why a self-reclaim has to be excluded ────────────────────────────

  lemma Extend(s0: World, id: RowId, h: Handler, sc: Schedule, m: Move, now: Instant)
    requires Schedulable(s0, id, h, sc) && EnabledMove(After(s0, id, h, sc), id, m, now)
    ensures Schedulable(s0, id, h, sc + [TimedMove(now, m)])
    ensures After(s0, id, h, sc + [TimedMove(now, m)]) == Moved(After(s0, id, h, sc), id, h, m, now)
  {
    assert (sc + [TimedMove(now, m)])[..|sc|] == sc;
  }

  function PageAfterPage(p: Point): ChunkResult {
    match p.cursor
    case Page(n) => Continue(Page(n + 1), p.progress + 100)
    case _ => Continue(Page(1), p.progress + 100)
  }

  lemma SelfReclaimStays(s0: World, id: RowId, h: Handler, sc: Schedule, m: Move, now: Instant)
    requires Schedulable(s0, id, h, sc) && EnabledMove(After(s0, id, h, sc), id, m, now)
    requires !NoSelfReclaim(s0, id, h, sc)
    ensures Schedulable(s0, id, h, sc + [TimedMove(now, m)]) && !NoSelfReclaim(s0, id, h, sc + [TimedMove(now, m)])
    ensures After(s0, id, h, sc + [TimedMove(now, m)]) == Moved(After(s0, id, h, sc), id, h, m, now)
  {
    Extend(s0, id, h, sc, m, now);
    assert (sc + [TimedMove(now, m)])[..|sc|] == sc;
  }

  /** A world whose only row is the tracked one. */
  function Solo(row: Row, tasks: map<nat, Task>, log: seq<Point>, ticks: nat): World {
    World(map[0 := row], tasks, log, ticks, 0, 0)
  }

  /** Worker 7 holds the row and its task `k` runs one chunk to its tick, whatever else is there. */
  lemma ChunkAndTick(s0: World, sc: Schedule, row: Row, tasks: map<nat, Task>, log: seq<Point>, ticks: nat, k: nat)
    returns (sc': Schedule, row': Row)
    requires Schedulable(s0, 0, PageAfterPage, sc) && !NoSelfReclaim(s0, 0, PageAfterPage, sc)
    requires After(s0, 0, PageAfterPage, sc) == Solo(row, tasks, log, ticks)
    requires Held(row, 7) && k in tasks && tasks[k].worker == 7 && tasks[k].phase.Ready?
    ensures Schedulable(s0, 0, PageAfterPage, sc') && !NoSelfReclaim(s0, 0, PageAfterPage, sc')
    ensures Held(row', 7)
    ensures var next := PageAfterPage(tasks[k].at);
            && Here(row') == Point(next.cursor, next.progress)
            && After(s0, 0, PageAfterPage, sc')
               == Solo(row', tasks[k := tasks[k].(at := Here(row'))], log + [tasks[k].at], ticks + 1)
  {
    var h, next := PageAfterPage, PageAfterPage(tasks[k].at);
    SelfReclaimStays(s0, 0, h, sc, DispatchChunk(k), 90_001);
    sc' := sc + [TimedMove(90_001, DispatchChunk(k))];
    var mid := Solo(row, tasks[k := tasks[k].(phase := Dispatched(next))], log + [tasks[k].at], ticks);
    assert After(s0, 0, h, sc') == mid;
    SelfReclaimStays(s0, 0, h, sc', CommitChunk(k), 90_001);
    sc' := sc' + [TimedMove(90_001, CommitChunk(k))];
    row' := Written(row, Tick(next.cursor, next.progress), 90_001);
    assert Apply(mid.t, Fenced(7, 0, Tick(next.cursor, next.progress)), 90_001) == map[0 := row'];
    assert mid.tasks[k := tasks[k].(at := Here(row'), phase := Ready)] == tasks[k := tasks[k].(at := Here(row'))];
  }

  const FIRST_TASK: Task := Task(7, Point(NoCursor, 0), 1, Dispatched(Continue(Page(1), 100)))
  const SECOND_TASK: Task := Task(7, Point(NoCursor, 0), 2, Ready)

  /** Worker 7 claims a fresh row and starts chunk 0. */
  lemma ClaimAndStart() returns (s0: World, sc: Schedule, row: Row)
    ensures FreshWorld(s0, 0, Point(NoCursor, 0)) && Schedulable(s0, 0, PageAfterPage, sc)
    ensures row == Claimed(NewRow(1, PRODUCTS, 0), 7, 0)
    ensures After(s0, 0, PageAfterPage, sc) == Solo(row, map[0 := FIRST_TASK], [Point(NoCursor, 0)], 0)
  {
    row := Claimed(NewRow(1, PRODUCTS, 0), 7, 0);
    s0 := Solo(NewRow(1, PRODUCTS, 0), map[], [], 0);
    Extend(s0, 0, PageAfterPage, [], ClaimRow(7, 0), 0);
    sc := [] + [TimedMove(0, ClaimRow(7, 0))];
    assert After(s0, 0, PageAfterPage, sc) == Solo(row, map[0 := Task(7, Point(NoCursor, 0), 1, Ready)], [], 0);
    Extend(s0, 0, PageAfterPage, sc, DispatchChunk(0), 0);
    sc := sc + [TimedMove(0, DispatchChunk(0))];
  }

  /** Then the watchdog reaps the row and worker 7 claims it again. */
  lemma ReclaimOwnRow() returns (s0: World, sc: Schedule, row: Row)
    ensures FreshWorld(s0, 0, Point(NoCursor, 0)) && Schedulable(s0, 0, PageAfterPage, sc)
    ensures !NoSelfReclaim(s0, 0, PageAfterPage, sc)
    ensures After(s0, 0, PageAfterPage, sc)
            == Solo(row, map[0 := FIRST_TASK, 1 := SECOND_TASK], [Point(NoCursor, 0)], 0)
    ensures Held(row, 7)
  {
    s0, sc, row := ClaimAndStart();
    SweepAlone(row, 90_001);
    Extend(s0, 0, PageAfterPage, sc, Elsewhere(Sweep), 90_001);
    sc := sc + [TimedMove(90_001, Elsewhere(Sweep))];
    row := Requeued(row);
    assert After(s0, 0, PageAfterPage, sc) == Solo(row, map[0 := FIRST_TASK], [Point(NoCursor, 0)], 0);
    ClaimAlone(row, 7, 90_001);
    Extend(s0, 0, PageAfterPage, sc, ClaimRow(7, 1), 90_001);
    assert (sc + [TimedMove(90_001, ClaimRow(7, 1))])[..|sc|] == sc;
    sc := sc + [TimedMove(90_001, ClaimRow(7, 1))];
    row := Claimed(row, 7, 90_001);
    assert map[0 := FIRST_TASK][1 := SECOND_TASK] == map[0 := FIRST_TASK, 1 := SECOND_TASK];
  }

  lemma PageChunks()
    ensures Chunk(PageAfterPage, Point(NoCursor, 0), 1) == Some(Point(Page(1), 100))
    ensures Chunk(PageAfterPage, Point(NoCursor, 0), 3) == Some(Point(Page(3), 300))
  {
    assert Chunk(PageAfterPage, Point(NoCursor, 0), 1) == Some(Point(Page(1), 100));
    assert Chunk(PageAfterPage, Point(NoCursor, 0), 2) == Some(Point(Page(2), 200));
  }

  /** The second task ticks twice while the first is still in chunk 0. */
  lemma TwoTicks() returns (s0: World, sc: Schedule, row: Row, tasks: map<nat, Task>, log: seq<Point>)
    ensures FreshWorld(s0, 0, Point(NoCursor, 0)) && Schedulable(s0, 0, PageAfterPage, sc)
    ensures !NoSelfReclaim(s0, 0, PageAfterPage, sc)
    ensures After(s0, 0, PageAfterPage, sc) == Solo(row, tasks, log, 2)
    ensures Held(row, 7) && 0 in tasks && tasks[0] == FIRST_TASK
  {
    s0, sc, row := ReclaimOwnRow();
    tasks, log := map[0 := FIRST_TASK, 1 := SECOND_TASK], [Point(NoCursor, 0)];
    for n := 0 to 2
      invariant Schedulable(s0, 0, PageAfterPage, sc) && !NoSelfReclaim(s0, 0, PageAfterPage, sc)
      invariant After(s0, 0, PageAfterPage, sc) == Solo(row, tasks, log, n)
      invariant Held(row, 7) && 0 in tasks && tasks[0] == FIRST_TASK
      invariant 1 in tasks && tasks[1].worker == 7 && tasks[1].phase.Ready?
    {
      var at := tasks[1].at;
      sc, row := ChunkAndTick(s0, sc, row, tasks, log, n, 1);
      tasks, log := tasks[1 := tasks[1].(at := Here(row))], log + [at];
    }
  }

  /**
   The fence cannot tell the two claims of one worker apart: a worker that re-claims its
   reaped row while its first task is still in a chunk lets that task rewind the cursor.
   No claim was ever lost, three ticks were committed, and the row stands at chunk 1.
   */
  lemma SelfReclaimRewinds() returns (s0: World, sc: Schedule)
    ensures FreshWorld(s0, 0, Point(NoCursor, 0)) && Schedulable(s0, 0, PageAfterPage, sc)
    ensures !NoSelfReclaim(s0, 0, PageAfterPage, sc)
    ensures var s := After(s0, 0, PageAfterPage, sc);
            && s.lost == 0 && s.ticks == 3 && 0 in s.t
            && Some(Here(s.t[0])) == Chunk(PageAfterPage, Point(NoCursor, 0), 1)
            && Some(Here(s.t[0])) != Chunk(PageAfterPage, Point(NoCursor, 0), 3)
  {
    var row, tasks, log;
    s0, sc, row, tasks, log := TwoTicks();
    SelfReclaimStays(s0, 0, PageAfterPage, sc, CommitChunk(0), 90_001);
    sc := sc + [TimedMove(90_001, CommitChunk(0))];
    PageChunks();
  }
}
