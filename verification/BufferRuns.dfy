/**
 What the live-performance buffer holds of a package, which delivery its promotion writes,
 how each delivery is answered, and which event decides the flags of an order row.
 */
module BufferRuns {
  import opened Options
  import opened Stock
  import opened OrderLines
  import opened OrderIntake
  import opened OrderRuns

  // ─── Which event the buffer holds ─────────────────────────────────────

  /** Deliveries of package `p` that all wait for their cost. */
  predicate AllPark(es: seq<PackageEvent>, p: string) {
    forall k :: 0 <= k < |es| ==> Parks(es[k]) && es[k].m.orderId == p && !es[k].m.dematerialized
  }

  function Delivered(es: seq<PackageEvent>): (ms: seq<Mapped>)
    requires forall k :: 0 <= k < |es| ==> es[k].Delivery?
    ensures |ms| == |es| && forall k :: 0 <= k < |es| ==> ms[k] == es[k].m
  {
    if es == [] then [] else Delivered(es[..|es| - 1]) + [es[|es| - 1].m]
  }

  /** Event `k` is the first that carries the largest date, or the first of all when none is dated. */
  predicate FirstFreshest(ms: seq<Mapped>, k: nat) {
    && k < |ms|
    && (MaxDate(ms).None? ==> k == 0)
    && (MaxDate(ms).Some? ==> ms[k].lastModified == MaxDate(ms))
    && forall i :: 0 <= i < k ==> MaxDate(ms).Some? && ms[i].lastModified != MaxDate(ms)
  }

  predicate HoldsPending(s: Shop, p: string, m: Mapped, day: int) {
    p in s.buffer && p !in s.orders && s.buffer[p] == BufferRow(day, m, BUFFER_PENDING)
  }

  /** How a parking delivery is answered, given what was delivered before it. */
  predicate IsFresher(ms: seq<Mapped>, m: Mapped) {
    m.lastModified.Some? && (MaxDate(ms).None? || m.lastModified.value > MaxDate(ms).value)
  }

  lemma NextParking(s: Shop, p: string, ms: seq<Mapped>, k: nat, e: PackageEvent, day: int) returns (k': nat)
    requires FirstFreshest(ms, k) && HoldsPending(s, p, ms[k], day)
    requires Parks(e) && e.m.orderId == p && !e.m.dematerialized
    ensures FirstFreshest(ms + [e.m], k') && HoldsPending(Happen(s, p, e), p, (ms + [e.m])[k'], day)
    ensures k' == if IsFresher(ms, e.m) then |ms| else k
    ensures Intake(s, e.m, e.today, e.calculable).1 == BufferedDeduped(IsFresher(ms, e.m))
  {
    var all := ms + [e.m];
    assert all[..|all| - 1] == ms && all[|all| - 1] == e.m;
    MaxDateFacts(ms);
    k' := if IsFresher(ms, e.m) then |ms| else k;
  }

  lemma FirstParking(s0: Shop, p: string, e: PackageEvent)
    requires p !in s0.orders && p !in s0.buffer && AllPark([e], p)
    ensures FirstFreshest(Delivered([e]), 0) && HoldsPending(Life(s0, p, [e]), p, e.m, e.m.orderDay)
  {
    assert [e][0] == e && [e][..0] == [];
    assert Delivered([e]) == [e.m] && [e.m][..0] == [];
    assert Life(s0, p, [e]) == Happen(s0, p, e);
  }

  /**
   However often a waiting package is delivered, dated or not, the buffer holds the first
   delivered event of the largest date, or the first delivered when none is dated: an
   undated event never replaces another, any dated one replaces an undated one, and of
   equal dates the first stays. The row keeps the business day of the first delivery.
   */
  lemma {:induction false} BufferHoldsFreshest(s0: Shop, p: string, es: seq<PackageEvent>) returns (k: nat)
    requires p !in s0.orders && p !in s0.buffer && es != [] && AllPark(es, p)
    ensures FirstFreshest(Delivered(es), k) && HoldsPending(Life(s0, p, es), p, es[k].m, es[0].m.orderDay)
  {
    var pre, e := es[..|es| - 1], es[|es| - 1];
    if pre == [] {
      k := 0;
      assert es == [e];
      FirstParking(s0, p, e);
    } else {
      var j := BufferHoldsFreshest(s0, p, pre);
      k := NextParking(Life(s0, p, pre), p, Delivered(pre), j, e, es[0].m.orderDay);
    }
  }

  /** A further waiting delivery is answered `refreshed` exactly when it is later than all before it, and then the snapshot is replaced. */
  lemma RefreshedIffReplaced(s0: Shop, p: string, es: seq<PackageEvent>, e: PackageEvent)
    requires p !in s0.orders && p !in s0.buffer && es != [] && AllPark(es + [e], p)
    ensures var s, ms := Life(s0, p, es), Delivered(es + [e])[..|es|];
            var (s', answer) := Intake(s, e.m, e.today, e.calculable);
            && p in s.buffer && p in s'.buffer
            && answer == BufferedDeduped(s'.buffer[p].mapped != s.buffer[p].mapped)
            && (s'.buffer[p].mapped != s.buffer[p].mapped <==> IsFresher(ms, e.m))
            && s'.buffer[p].mapped == (if IsFresher(ms, e.m) then e.m else s.buffer[p].mapped)
  {
    assert forall k :: 0 <= k < |es| ==> es[k] == (es + [e])[k];
    assert Parks((es + [e])[|es|]);
    assert (es + [e])[..|es|] == es && Delivered(es + [e])[..|es|] == Delivered(es);
    var k := BufferHoldsFreshest(s0, p, es);
    var k' := NextParking(Life(s0, p, es), p, Delivered(es), k, e, es[0].m.orderDay);
    MaxDateFacts(Delivered(es));
  }

  /** Promotion of a waiting package writes that event: its status and its date become the order's. */
  lemma PromotionWritesFreshest(s0: Shop, p: string, es: seq<PackageEvent>, today: int, excluded: bool) returns (k: nat)
    requires p !in s0.orders && p !in s0.buffer && es != [] && AllPark(es, p)
    ensures FirstFreshest(Delivered(es), k)
    ensures var s := Happen(Life(s0, p, es), p, Promotion(today, excluded));
            && p in s.orders && p !in s.buffer
            && s.orders[p].status == es[k].m.status && s.orders[p].watermark == es[k].m.lastModified
            && s.orders[p].orderDay == es[k].m.orderDay
            && s.orders[p].items == UpsertLines([], es[k].m.lines, ResolverOf(Life(s0, p, es).variants))
            && s.orders[p].profitExcluded == excluded && s.orders[p].promotedFromBuffer
            && s.variants == Life(s0, p, es).variants
  {
    k := BufferHoldsFreshest(s0, p, es);
    NoMovesNoChange(Life(s0, p, es));
  }

  /** A row that is already being promoted, or failed to be, is never touched by a waiting delivery. */
  lemma OnlyPendingIsRefreshed(s: Shop, p: string, e: PackageEvent)
    requires p in s.buffer && p !in s.orders && s.buffer[p].status != BUFFER_PENDING
    requires Parks(e) && e.m.orderId == p && !e.m.dematerialized
    ensures Intake(s, e.m, e.today, e.calculable) == (s, BufferedDeduped(false))
  {
  }

  // ─── Which event decides an order row's flags ─────────────────────────

  /** The deliveries are of this package, whatever their lines. */
  predicate OfPackage(e: PackageEvent, p: string) { e.Delivery? ==> e.m.orderId == p && !e.m.dematerialized }

  predicate Placed(s: Shop, p: string, stage: Stage) {
    && (p in s.buffer ==> s.buffer[p].mapped.orderId == p)
    && (p in s.orders <==> stage.Stored?)
    && (stage.Unseen? ==> p !in s.buffer) && (stage.Parked? ==> p in s.buffer)
  }

  lemma EventPlaces(s: Shop, p: string, e: PackageEvent, stage: Stage)
    requires OfPackage(e, p) && Placed(s, p, stage)
    ensures Placed(Happen(s, p, e), p, NextStage(stage, e))
  {
  }

  lemma {:induction false} LifePlaces(s0: Shop, p: string, es: seq<PackageEvent>)
    requires p !in s0.orders && p !in s0.buffer && forall k :: 0 <= k < |es| ==> OfPackage(es[k], p)
    ensures Placed(Life(s0, p, es), p, StageAfter(es))
  {
    if es != [] {
      LifePlaces(s0, p, es[..|es| - 1]);
      EventPlaces(Life(s0, p, es[..|es| - 1]), p, es[|es| - 1], StageAfter(es[..|es| - 1]));
    }
  }

  /** An uncosted delivery of an earlier day: it is written without a profit. */
  predicate ArrivesLate(e: PackageEvent) {
    e.Delivery? && e.m.status != CANCELLED && !e.calculable && e.m.orderDay < e.today
  }

  /** Event `k` wrote the order row. */
  predicate FirstWriteAt(es: seq<PackageEvent>, k: nat) {
    k < |es| && !StageAfter(es[..k]).Stored? && StageAfter(es[..k + 1]).Stored?
  }

  predicate Flagged(s: Shop, p: string, e: PackageEvent) {
    && p in s.orders
    && s.orders[p].profitExcluded == (ArrivesLate(e) || (e.Promotion? && e.excluded))
    && s.orders[p].promotedFromBuffer == e.Promotion?
  }

  lemma FirstWriteFlags(s: Shop, p: string, e: PackageEvent, stage: Stage)
    requires OfPackage(e, p) && Placed(s, p, stage) && !stage.Stored? && NextStage(stage, e).Stored?
    ensures Flagged(Happen(s, p, e), p, e)
  {
  }

  lemma LaterEventKeepsFlags(s: Shop, p: string, e: PackageEvent, first: PackageEvent)
    requires OfPackage(e, p) && Placed(s, p, Stored) && Flagged(s, p, first)
    ensures Flagged(Happen(s, p, e), p, first)
  {
  }

  /**
   The flags of an order row are those of the event that first wrote it, whatever comes
   later: a profit is excluded exactly when that was an uncosted live delivery of an earlier
   day or a promotion told to exclude it; and the row is marked as promoted exactly when it
   was a promotion.
   */
  lemma {:induction false} FirstWriteSetsFlags(s0: Shop, p: string, es: seq<PackageEvent>, k: nat)
    requires p !in s0.orders && p !in s0.buffer && forall j :: 0 <= j < |es| ==> OfPackage(es[j], p)
    requires FirstWriteAt(es, k)
    ensures Flagged(Life(s0, p, es), p, es[k])
  {
    var pre, e := es[..|es| - 1], es[|es| - 1];
    LifePlaces(s0, p, pre);
    if k == |es| - 1 {
      assert es[..k + 1] == es;
      FirstWriteFlags(Life(s0, p, pre), p, e, StageAfter(pre));
    } else {
      assert pre[..k] == es[..k] && pre[..k + 1] == es[..k + 1];
      FirstWriteSetsFlags(s0, p, pre, k);
      LaterEventKeepsFlags(Life(s0, p, pre), p, e, es[k]);
    }
  }

  // ─── Which event decides an order row's status ────────────────────────

  /** What an event writes to the order row: a delivery that does not wait in the buffer itself, a promotion what waits. */
  function WrittenBy(s: Shop, p: string, stage: Stage, e: PackageEvent): seq<Mapped> {
    match e
    case Delivery(m, _, _) => if Parks(e) && !stage.Stored? then [] else [m]
    case Promotion(_, _) => if p in s.buffer then [s.buffer[p].mapped] else []
  }

  function WritesOf(s0: Shop, p: string, es: seq<PackageEvent>): seq<Mapped> {
    if es == [] then []
    else
      var pre := es[..|es| - 1];
      WritesOf(s0, p, pre) + WrittenBy(Life(s0, p, pre), p, StageAfter(pre), es[|es| - 1])
  }

  /** The row stands where these writes leave it: the freshest one's status and date, the first one's business day. */
  predicate RowStands(o: Option<Order>, ws: seq<Mapped>) {
    && (o.Some? <==> ws != [])
    && (ws != [] ==>
          && Winner(ws).Some? && o.value.status == Winner(ws).value.status
          && o.value.watermark == MaxDate(ws) && o.value.orderDay == ws[0].orderDay)
  }

  predicate StandsAfter(s: Shop, p: string, ws: seq<Mapped>) { RowStands(Get(s.orders, p), ws) }

  lemma NextWinner(ws: seq<Mapped>, m: Mapped, more: seq<Mapped>)
    requires more == ws + [m]
    ensures more != [] && more[0] == if ws == [] then m else ws[0]
    ensures var late := m.lastModified.Some? && MaxDate(ws).Some? && m.lastModified.value < MaxDate(ws).value;
            && Winner(more) == (if late then Winner(ws) else Some(m))
            && MaxDate(more) == if late || m.lastModified.None? then MaxDate(ws) else m.lastModified
  {
    assert more[..|more| - 1] == ws && more[|more| - 1] == m;
  }

  lemma OneMoreUpsert(o: Option<Order>, m: Mapped, opts: UpsertOpts, items: seq<Item>, ws: seq<Mapped>, more: seq<Mapped>)
    requires RowStands(o, ws) && more == ws + [m]
    ensures RowStands(if TooOld(o, m) then o else Some(WrittenWith(o, m, opts, items)), more)
  {
    NextWinner(ws, m, more);
    if ws == [] { assert MaxDate(ws) == None; }
  }

  lemma OneMoreWrite(s: Shop, m: Mapped, today: int, opts: UpsertOpts, ws: seq<Mapped>, more: seq<Mapped>)
    requires StandsAfter(s, m.orderId, ws) && more == ws + [m]
    ensures StandsAfter(Upserted(s, m, today, opts), m.orderId, more)
  {
    var o := Get(s.orders, m.orderId);
    OneMoreUpsert(o, m, opts, UpsertLines(ItemsOf(o), m.lines, ResolverOf(s.variants)), ws, more);
  }

  lemma DeliveryStands(s: Shop, p: string, e: PackageEvent, stage: Stage, ws: seq<Mapped>, more: seq<Mapped>)
    requires e.Delivery? && OfPackage(e, p) && Placed(s, p, stage) && StandsAfter(s, p, ws)
    requires more == ws + WrittenBy(s, p, stage, e)
    ensures StandsAfter(Happen(s, p, e), p, more)
  {
    var cleared := s.(buffer := Removed(s.buffer, p));
    if Parks(e) && !stage.Stored? {
      assert more == ws;
    } else if e.m.status == CANCELLED {
      assert StandsAfter(cleared, p, ws);
      OneMoreWrite(cleared, e.m, e.today, PLAIN, ws, more);
    } else {
      OneMoreWrite(s, e.m, e.today, if ArrivesLate(e) then UpsertOpts(true, false) else PLAIN, ws, more);
    }
  }

  lemma PromotionStands(s: Shop, p: string, e: PackageEvent, stage: Stage, ws: seq<Mapped>, more: seq<Mapped>)
    requires e.Promotion? && Placed(s, p, stage) && StandsAfter(s, p, ws) && more == ws + WrittenBy(s, p, stage, e)
    ensures StandsAfter(Happen(s, p, e), p, more)
  {
    if p in s.buffer {
      OneMoreWrite(s, s.buffer[p].mapped, e.today, UpsertOpts(e.excluded, true), ws, more);
    } else {
      assert more == ws;
    }
  }

  /**
   Over any life of a package, costed or not, parked, promoted, late or cancelled, the order
   row exists exactly when something was written; its status and date are those of the
   freshest write, and its business day is the first one's.
   */
  lemma {:induction false} FreshestWriteDecides(s0: Shop, p: string, es: seq<PackageEvent>)
    requires p !in s0.orders && p !in s0.buffer && forall j :: 0 <= j < |es| ==> OfPackage(es[j], p)
    ensures StandsAfter(Life(s0, p, es), p, WritesOf(s0, p, es))
  {
    if es != [] {
      var pre, e := es[..|es| - 1], es[|es| - 1];
      FreshestWriteDecides(s0, p, pre);
      LifePlaces(s0, p, pre);
      if e.Delivery? {
        DeliveryStands(Life(s0, p, pre), p, e, StageAfter(pre), WritesOf(s0, p, pre), WritesOf(s0, p, es));
      } else {
        PromotionStands(Life(s0, p, pre), p, e, StageAfter(pre), WritesOf(s0, p, pre), WritesOf(s0, p, es));
      }
    }
  }

  /** Whether a profit is excluded says nothing about stock: it moves alike. */
  lemma ExclusionNeverMovesStock(s: Shop, m: Mapped, today: int, promoted: bool, a: bool, b: bool)
    ensures var x, y := Upserted(s, m, today, UpsertOpts(a, promoted)), Upserted(s, m, today, UpsertOpts(b, promoted));
            x.variants == y.variants && x.totals == y.totals
  {
  }

  // ─── How a delivery is answered ───────────────────────────────────────

  /**
   Every live delivery is answered by its own status, cost and day and by where the package
   stands: a cancellation for the audit; a costed one as calculable; an uncosted one of an
   earlier day as late; and a waiting one as buffered when the package is new, as deduped
   while it waits, and as already stored afterwards.
   */
  lemma AnswerByStage(s0: Shop, p: string, es: seq<PackageEvent>, e: PackageEvent)
    requires p !in s0.orders && p !in s0.buffer && forall j :: 0 <= j < |es| ==> OfPackage(es[j], p)
    requires e.Delivery? && OfPackage(e, p)
    ensures var answer := Intake(Life(s0, p, es), e.m, e.today, e.calculable).1;
            if e.m.status == CANCELLED then answer == Persisted(CANCELLED_AUDIT)
            else if e.calculable then answer == Persisted(CALCULABLE)
            else if ArrivesLate(e) then answer == Persisted(EXCLUDED_LATE_ARRIVAL)
            else match StageAfter(es)
              case Unseen => answer == Buffered
              case Parked => answer.BufferedDeduped?
              case Stored => answer == Persisted(ALREADY_IN_ORDERS)
  {
    LifePlaces(s0, p, es);
  }

  /** A removal is answered by what it found. */
  lemma RemovalAnswers(s0: Shop, p: string, es: seq<PackageEvent>, unpacked: Mapped, today: int)
    requires p !in s0.orders && p !in s0.buffer && forall j :: 0 <= j < |es| ==> OfPackage(es[j], p)
    requires unpacked.dematerialized && unpacked.orderId == p
    ensures var (s, answer) := Intake(Life(s0, p, es), unpacked, today, false);
            && answer.Dematerialized? && answer.deletedOrder == StageAfter(es).Stored?
            && (StageAfter(es).Parked? ==> answer.deletedBufferEntries == 1)
            && (StageAfter(es).Unseen? ==> answer.deletedBufferEntries == 0)
            && p !in s.orders && p !in s.buffer
  {
    LifePlaces(s0, p, es);
  }
}
