/**
 Splits: a package is removed as a ghost and its units are re-carried by children under
 new ids. What the removal re-adds, exactly when that undoes what the ghost sold, when an
 order row and a buffer row exist side by side, and what a whole feed of interleaved ghost
 and child events leaves on the shelf.
 */
module OrderSplits {
  import opened Options
  import opened Stock
  import opened OrderLines
  import opened OrderIntake
  import opened OrderRuns

  // ─── The items of an order row carry what their inserts sold ──────────

  lemma {:induction false} RefreshKeepsMoves(items: seq<Item>, i: nat, line: Line)
    requires i < |items|
    ensures ItemMoves(items[i := Refreshed(items[i], line)]) == ItemMoves(items)
  {
    var next := items[i := Refreshed(items[i], line)];
    if i < |items| - 1 {
      RefreshKeepsMoves(items[..|items| - 1], i, line);
      assert next[..|items| - 1] == items[..|items| - 1][i := Refreshed(items[i], line)];
    } else {
      assert next[..|items| - 1] == items[..|items| - 1];
    }
  }

  lemma OneLineCarriesItsSale(items: seq<Item>, line: Line, r: Resolver, id: VariantId)
    ensures Units(ItemMoves(UpsertLine(items, line, r)), id) == Units(ItemMoves(items), id) + Units(InsertMove(items, line, r), id)
  {
    match FirstMatch(items, line, r(line.barcode)) {
      case Some(i) => RefreshKeepsMoves(items, i, line);
      case None =>
        var next := items + [NewItem(line, r(line.barcode))];
        assert next[..|next| - 1] == items;
        assert ItemMoves(next) == ItemMoves(items) + InsertMove(items, line, r);
        UnitsConcat(ItemMoves(items), InsertMove(items, line, r), id);
    }
  }

  lemma {:induction false} ItemsCarryTheirInserts(items: seq<Item>, lines: seq<Line>, r: Resolver, id: VariantId)
    ensures Units(ItemMoves(UpsertLines(items, lines, r)), id) == Units(ItemMoves(items), id) + Units(FirstInserts(items, lines, r), id)
  {
    if lines == [] {
      assert FirstInserts(items, lines, r) == [];
    } else {
      var pre, line := lines[..|lines| - 1], lines[|lines| - 1];
      var before := UpsertLines(items, pre, r);
      ItemsCarryTheirInserts(items, pre, r, id);
      OneLineCarriesItsSale(before, line, r, id);
      UnitsConcat(FirstInserts(items, pre, r), InsertMove(before, line, r), id);
    }
  }

  /** The order row, if there is one, carries the units of one deduped insert of the lines. */
  ghost predicate Carries(s: Shop, p: string, lines: seq<Line>, r: Resolver) {
    p in s.orders ==> SameUnits(ItemMoves(s.orders[p].items), FirstInserts([], lines, r))
  }

  lemma ItemsAfterWrite(s: Shop, m: Mapped, today: int, opts: UpsertOpts, r: Resolver)
    requires forall b :: ResolverOf(s.variants)(b) == r(b)
    requires !TooOld(Get(s.orders, m.orderId), m)
    ensures var s' := Upserted(s, m, today, opts);
            m.orderId in s'.orders && s'.orders[m.orderId].items == UpsertLines(ItemsOf(Get(s.orders, m.orderId)), m.lines, r)
  {
    SameResolver(ItemsOf(Get(s.orders, m.orderId)), m.lines, ResolverOf(s.variants), r);
  }

  lemma WriteCarries(s: Shop, m: Mapped, today: int, opts: UpsertOpts, r: Resolver)
    requires forall b :: ResolverOf(s.variants)(b) == r(b)
    requires Carries(s, m.orderId, m.lines, r)
    requires m.orderId in s.orders ==> AllCovered(s.orders[m.orderId].items, m.lines, r)
    ensures Carries(Upserted(s, m, today, opts), m.orderId, m.lines, r)
  {
    if !TooOld(Get(s.orders, m.orderId), m) {
      var items := ItemsOf(Get(s.orders, m.orderId));
      ItemsAfterWrite(s, m, today, opts, r);
      if m.orderId in s.orders { RedeliveryInsertsNothing(items, m.lines, r); }
      forall id ensures Units(ItemMoves(UpsertLines(items, m.lines, r)), id) == Units(FirstInserts([], m.lines, r), id) {
        ItemsCarryTheirInserts(items, m.lines, r, id);
        if m.orderId in s.orders { assert Units(ItemMoves(items), id) == Units(FirstInserts([], m.lines, r), id); }
      }
    }
  }

  lemma EventCarries(s: Shop, p: string, e: PackageEvent, stage: Stage, lines: seq<Line>, r: Resolver)
    requires SameSale(e, p, lines) && StandsAt(s, p, stage, lines, r) && Carries(s, p, lines, r)
    requires forall b :: ResolverOf(s.variants)(b) == r(b)
    ensures Carries(Happen(s, p, e), p, lines, r)
  {
    if e.Promotion? {
      if p in s.buffer { WriteCarries(s, s.buffer[p].mapped, e.today, UpsertOpts(e.excluded, true), r); }
    } else if e.m.status == CANCELLED {
      WriteCarries(s.(buffer := Removed(s.buffer, p)), e.m, e.today, PLAIN, r);
    } else {
      WriteCarries(s, e.m, e.today, PLAIN, r);
      WriteCarries(s, e.m, e.today, UpsertOpts(true, false), r);
    }
  }

  // ─── What the removal of a ghost re-adds ──────────────────────────────

  /** The business date on the row that the removal looks at: the order row's, else the buffer row's. */
  function RowDay(s: Shop, p: string): Option<int> {
    if p in s.orders then Some(s.orders[p].orderDay) else if p in s.buffer then Some(s.buffer[p].orderDay) else None
  }

  /** What comes back at a stage, when the row is of the day. */
  function ReAdded(stage: Stage, onItsDay: bool, lines: seq<Line>, r: Resolver): seq<Movement> {
    if !onItsDay || stage.Unseen? then []
    else if stage.Stored? then FirstInserts([], lines, r)
    else ResolvedMoves(lines, r)
  }

  lemma ReversalReAdds(s: Shop, p: string, stage: Stage, lines: seq<Line>, r: Resolver, today: int)
    requires StandsAt(s, p, stage, lines, r) && Carries(s, p, lines, r) && forall b :: ResolverOf(s.variants)(b) == r(b)
    ensures SameUnits(ReversalMoves(s, p, today), ReAdded(stage, RowDay(s, p) == Some(today), lines, r))
  {
    if stage.Parked? { SameResolver([], lines, ResolverOf(s.variants), r); }
  }

  /** Deduping lines can only lose units. */
  lemma {:induction false} InsertsAreResolved(lines: seq<Line>, r: Resolver, id: VariantId)
    ensures Units(FirstInserts([], lines, r), id) <= Units(ResolvedMoves(lines, r), id)
  {
    if lines != [] {
      var pre, line := lines[..|lines| - 1], lines[|lines| - 1];
      var inserted := InsertMove(UpsertLines([], pre, r), line, r);
      InsertsAreResolved(pre, r, id);
      UnitsConcat(FirstInserts([], pre, r), inserted, id);
      UnitsConcat(ResolvedMoves(pre, r), if r(line.barcode).Some? then [Movement(r(line.barcode).value, line.quantity)] else [], id);
    }
  }

  /** Every line that moves stock is stored as an item of its own. */
  predicate NothingDeduped(lines: seq<Line>, r: Resolver) {
    forall k :: 0 <= k < |lines| && r(lines[k].barcode).Some? && lines[k].quantity > 0 ==>
      FirstMatch(UpsertLines([], lines[..k], r), lines[k], r(lines[k].barcode)).None?
  }

  lemma NothingDedupedStep(lines: seq<Line>, r: Resolver)
    requires lines != []
    ensures var pre, line := lines[..|lines| - 1], lines[|lines| - 1];
            NothingDeduped(lines, r) <==>
              && NothingDeduped(pre, r)
              && (r(line.barcode).Some? && line.quantity > 0 ==>
                    FirstMatch(UpsertLines([], pre, r), line, r(line.barcode)).None?)
  {
    var pre := lines[..|lines| - 1];
    assert forall k :: 0 <= k < |pre| ==> pre[..k] == lines[..k] && pre[k] == lines[k];
  }

  /** What a line resolves to, less what it inserts, per variant. */
  lemma LineLoses(items: seq<Item>, line: Line, r: Resolver, id: VariantId)
    ensures Units(InsertMove(items, line, r), id) <= Units(ResolvedMove(line, r), id)
    ensures Units(InsertMove(items, line, r), id) == Units(ResolvedMove(line, r), id) <==>
              (r(line.barcode) == Some(id) && line.quantity > 0 ==> FirstMatch(items, line, r(line.barcode)).None?)
  {
  }

  function ResolvedMove(line: Line, r: Resolver): seq<Movement> {
    if r(line.barcode).Some? then [Movement(r(line.barcode).value, line.quantity)] else []
  }

  /** One more line, per variant: what resolves and what is inserted. */
  lemma OneMoreLine(lines: seq<Line>, r: Resolver, id: VariantId)
    requires lines != []
    ensures var pre, line := lines[..|lines| - 1], lines[|lines| - 1];
            var inserted := Units(InsertMove(UpsertLines([], pre, r), line, r), id);
            && Units(ResolvedMoves(lines, r), id) == Units(ResolvedMoves(pre, r), id) + Units(ResolvedMove(line, r), id)
            && Units(FirstInserts([], lines, r), id) == Units(FirstInserts([], pre, r), id) + inserted
            && Units(FirstInserts([], pre, r), id) <= Units(ResolvedMoves(pre, r), id)
            && inserted <= Units(ResolvedMove(line, r), id)
  {
    var pre, line := lines[..|lines| - 1], lines[|lines| - 1];
    UnitsConcat(ResolvedMoves(pre, r), ResolvedMove(line, r), id);
    UnitsConcat(FirstInserts([], pre, r), InsertMove(UpsertLines([], pre, r), line, r), id);
    InsertsAreResolved(pre, r, id);
    LineLoses(UpsertLines([], pre, r), line, r, id);
  }

  lemma {:induction false} NothingDedupedSellsAll(lines: seq<Line>, r: Resolver, id: VariantId)
    requires NothingDeduped(lines, r)
    ensures Units(ResolvedMoves(lines, r), id) == Units(FirstInserts([], lines, r), id)
  {
    if lines == [] {
      assert ResolvedMoves(lines, r) == [] && FirstInserts([], lines, r) == [];
    } else {
      var pre, line := lines[..|lines| - 1], lines[|lines| - 1];
      NothingDedupedStep(lines, r);
      NothingDedupedSellsAll(pre, r, id);
      OneMoreLine(lines, r, id);
      LineLoses(UpsertLines([], pre, r), line, r, id);
    }
  }

  lemma {:induction false} SellingAllDedupesNothing(lines: seq<Line>, r: Resolver)
    requires SameUnits(ResolvedMoves(lines, r), FirstInserts([], lines, r))
    ensures NothingDeduped(lines, r)
  {
    if lines != [] {
      var pre, line := lines[..|lines| - 1], lines[|lines| - 1];
      var items := UpsertLines([], pre, r);
      forall id
        ensures Units(ResolvedMoves(pre, r), id) == Units(FirstInserts([], pre, r), id)
        ensures Units(InsertMove(items, line, r), id) == Units(ResolvedMove(line, r), id)
      {
        OneMoreLine(lines, r, id);
        assert Units(ResolvedMoves(lines, r), id) == Units(FirstInserts([], lines, r), id);
      }
      SellingAllDedupesNothing(pre, r);
      if r(line.barcode).Some? { LineLoses(items, line, r, r(line.barcode).value); }
      NothingDedupedStep(lines, r);
    }
  }

  /** A buffered sale and a direct insert of the same lines move the same units exactly when no line is deduped away. */
  lemma SameSaleIffNothingDeduped(lines: seq<Line>, r: Resolver)
    ensures SameUnits(ResolvedMoves(lines, r), FirstInserts([], lines, r)) <==> NothingDeduped(lines, r)
  {
    if NothingDeduped(lines, r) {
      forall id ensures Units(ResolvedMoves(lines, r), id) == Units(FirstInserts([], lines, r), id) {
        NothingDedupedSellsAll(lines, r, id);
      }
    }
    if SameUnits(ResolvedMoves(lines, r), FirstInserts([], lines, r)) { SellingAllDedupesNothing(lines, r); }
  }

  /**
   The removal undoes the sale. A package never seen has nothing to undo; one that waits in
   the buffer must be removed on the day it was parked on, or not have been parked on its
   day; an order row of the day must stem from exactly one sale, and when that was the
   buffer's, no line may have been deduped away since; an order row of another day must
   never have sold.
   */
  predicate Undoes(es: seq<PackageEvent>, onItsDay: bool, lines: seq<Line>, r: Resolver) {
    match StageAfter(es)
    case Unseen => true
    case Parked => ParkedOnItsDay(es) == onItsDay
    case Stored =>
      if onItsDay then
        ParkedOnItsDay(es) != WrittenOnItsDay(es)
        && (ParkedOnItsDay(es) ==> NothingDeduped(lines, r))
      else !ParkedOnItsDay(es) && !WrittenOnItsDay(es)
  }

  lemma SoldUnits(es: seq<PackageEvent>, lines: seq<Line>, r: Resolver, id: VariantId)
    ensures Units(SoldBy(es, lines, r), id)
         == (if ParkedOnItsDay(es) then Units(ResolvedMoves(lines, r), id) else 0)
            + (if WrittenOnItsDay(es) then Units(FirstInserts([], lines, r), id) else 0)
  {
    UnitsConcat(if ParkedOnItsDay(es) then ResolvedMoves(lines, r) else [],
                if WrittenOnItsDay(es) then FirstInserts([], lines, r) else [], id);
  }

  lemma UndoesMeansSameUnits(es: seq<PackageEvent>, onItsDay: bool, lines: seq<Line>, r: Resolver)
    requires Undoes(es, onItsDay, lines, r)
    ensures SameUnits(ReAdded(StageAfter(es), onItsDay, lines, r), SoldBy(es, lines, r))
  {
    SalesFollowStages(es);
    SameSaleIffNothingDeduped(lines, r);
    forall id ensures Units(ReAdded(StageAfter(es), onItsDay, lines, r), id) == Units(SoldBy(es, lines, r), id) {
      SoldUnits(es, lines, r, id);
    }
  }

  lemma SameUnitsMeansUndoes(es: seq<PackageEvent>, onItsDay: bool, lines: seq<Line>, r: Resolver)
    requires CarriesUnits(FirstInserts([], lines, r))
    requires SameUnits(ReAdded(StageAfter(es), onItsDay, lines, r), SoldBy(es, lines, r))
    ensures Undoes(es, onItsDay, lines, r)
  {
    SalesFollowStages(es);
    SameSaleIffNothingDeduped(lines, r);
    forall id
      ensures Units(ReAdded(StageAfter(es), onItsDay, lines, r), id)
           == (if ParkedOnItsDay(es) then Units(ResolvedMoves(lines, r), id) else 0)
              + (if WrittenOnItsDay(es) then Units(FirstInserts([], lines, r), id) else 0)
      ensures Units(FirstInserts([], lines, r), id) <= Units(ResolvedMoves(lines, r), id)
    {
      SoldUnits(es, lines, r, id);
      InsertsAreResolved(lines, r, id);
      assert Units(ReAdded(StageAfter(es), onItsDay, lines, r), id) == Units(SoldBy(es, lines, r), id);
    }
    var id :| Units(FirstInserts([], lines, r), id) > 0;
    assert Units(ResolvedMoves(lines, r), id) > 0;
  }

  lemma {:induction false} LifeCarries(s0: Shop, p: string, lines: seq<Line>, es: seq<PackageEvent>)
    requires p !in s0.orders && p !in s0.buffer
    requires forall k :: 0 <= k < |es| ==> SameSale(es[k], p, lines)
    ensures Carries(Life(s0, p, es), p, lines, ResolverOf(s0.variants))
    ensures forall b :: ResolverOf(Life(s0, p, es).variants)(b) == ResolverOf(s0.variants)(b)
  {
    var r := ResolverOf(s0.variants);
    LifeSells(s0, p, lines, es);
    SameCatalogueAfterMoves(s0.variants, SoldBy(es, lines, r));
    SameResolverInCatalogue(s0.variants, Life(s0, p, es).variants);
    if es != [] {
      var pre := es[..|es| - 1];
      LifeCarries(s0, p, lines, pre);
      LifeSells(s0, p, lines, pre);
      EventCarries(Life(s0, p, pre), p, es[|es| - 1], StageAfter(pre), lines, r);
    }
  }

  /**
   Exactly when the removal of a ghost re-adds what its life sold, for any life on any
   routes and a removal on any day: under `Undoes`, read off the life's events, the date on
   the row and the lines.
   */
  lemma ReversalUndoesSaleIff(s0: Shop, p: string, lines: seq<Line>, es: seq<PackageEvent>, today: int)
    requires p !in s0.orders && p !in s0.buffer
    requires forall k :: 0 <= k < |es| ==> SameSale(es[k], p, lines)
    requires CarriesUnits(FirstInserts([], lines, ResolverOf(s0.variants)))
    ensures var s, r := Life(s0, p, es), ResolverOf(s0.variants);
            SameUnits(ReversalMoves(s, p, today), SoldBy(es, lines, r)) <==> Undoes(es, RowDay(s, p) == Some(today), lines, r)
  {
    var s, r := Life(s0, p, es), ResolverOf(s0.variants);
    LifeSells(s0, p, lines, es);
    LifeCarries(s0, p, lines, es);
    ReversalReAdds(s, p, StageAfter(es), lines, r, today);
    var back := ReAdded(StageAfter(es), RowDay(s, p) == Some(today), lines, r);
    if Undoes(es, RowDay(s, p) == Some(today), lines, r) { UndoesMeansSameUnits(es, RowDay(s, p) == Some(today), lines, r); }
    if SameUnits(ReversalMoves(s, p, today), SoldBy(es, lines, r)) {
      assert forall id :: Units(back, id) == Units(ReversalMoves(s, p, today), id);
      SameUnitsMeansUndoes(es, RowDay(s, p) == Some(today), lines, r);
    }
  }

  /** All deliveries carry one business date, as those of one package do. */
  predicate OneDay(es: seq<PackageEvent>, day: int) { forall k :: 0 <= k < |es| && es[k].Delivery? ==> es[k].m.orderDay == day }

  predicate RowsOfDay(s: Shop, p: string, day: int) {
    && (p in s.orders ==> s.orders[p].orderDay == day)
    && (p in s.buffer ==> s.buffer[p].orderDay == day && s.buffer[p].mapped.orderDay == day && s.buffer[p].mapped.orderId == p)
  }

  lemma WriteKeepsDay(s: Shop, m: Mapped, today: int, opts: UpsertOpts, day: int)
    requires RowsOfDay(s, m.orderId, day) && m.orderDay == day
    ensures RowsOfDay(Upserted(s, m, today, opts), m.orderId, day)
  {
  }

  lemma EventKeepsDay(s: Shop, p: string, e: PackageEvent, day: int)
    requires RowsOfDay(s, p, day) && (e.Delivery? ==> e.m.orderId == p && e.m.orderDay == day && !e.m.dematerialized)
    ensures RowsOfDay(Happen(s, p, e), p, day)
  {
    if e.Promotion? {
      if p in s.buffer { WriteKeepsDay(s, s.buffer[p].mapped, e.today, UpsertOpts(e.excluded, true), day); }
    } else if e.m.status == CANCELLED {
      WriteKeepsDay(s.(buffer := Removed(s.buffer, p)), e.m, e.today, PLAIN, day);
    } else {
      WriteKeepsDay(s, e.m, e.today, PLAIN, day);
      WriteKeepsDay(s, e.m, e.today, UpsertOpts(true, false), day);
    }
  }

  /** Then the row that a removal looks at carries that date. */
  lemma {:induction false} RowKeepsItsDay(s0: Shop, p: string, es: seq<PackageEvent>, day: int)
    requires p !in s0.orders && p !in s0.buffer && OneDay(es, day)
    requires forall k :: 0 <= k < |es| && es[k].Delivery? ==> es[k].m.orderId == p && !es[k].m.dematerialized
    ensures RowsOfDay(Life(s0, p, es), p, day)
  {
    if es != [] {
      RowKeepsItsDay(s0, p, es[..|es| - 1], day);
      EventKeepsDay(Life(s0, p, es[..|es| - 1]), p, es[|es| - 1], day);
    }
  }

  /** For a package with one business date the condition is on its events and the day of the removal alone. */
  lemma OneDayReversalUndoesSaleIff(s0: Shop, p: string, lines: seq<Line>, es: seq<PackageEvent>, day: int, today: int)
    requires p !in s0.orders && p !in s0.buffer && OneDay(es, day)
    requires forall k :: 0 <= k < |es| ==> SameSale(es[k], p, lines)
    requires CarriesUnits(FirstInserts([], lines, ResolverOf(s0.variants)))
    ensures var r := ResolverOf(s0.variants);
            SameUnits(ReversalMoves(Life(s0, p, es), p, today), SoldBy(es, lines, r)) <==> Undoes(es, day == today, lines, r)
  {
    ReversalUndoesSaleIff(s0, p, lines, es, today);
    RowKeepsItsDay(s0, p, es, day);
    LifeSells(s0, p, lines, es);
  }

  /** Equal units per variant move stock equally, in whatever order the lines come. */
  lemma SameUnitsSameStock(vs: Variants, a: seq<Movement>, b: seq<Movement>)
    requires forall i :: 0 <= i < |vs| ==> Units(a, vs[i].id) == Units(b, vs[i].id)
    ensures DecrementAll(vs, a) == DecrementAll(vs, b) && IncrementAll(vs, a) == IncrementAll(vs, b)
  {
    forall i | 0 <= i < |vs|
      ensures DecrementAll(vs, a)[i] == DecrementAll(vs, b)[i] && IncrementAll(vs, a)[i] == IncrementAll(vs, b)[i]
    {
      DecrementsFloorOnce(vs, a, i);
      DecrementsFloorOnce(vs, b, i);
      IncrementsAddUp(vs, a, i);
      IncrementsAddUp(vs, b, i);
    }
  }

  // ─── Order row and buffer row side by side ────────────────────────────

  predicate Coexist(s: Shop, p: string) { p in s.orders && p in s.buffer }

  /** A live delivery that writes an order without purging the buffer: fully costed, or past its business day. */
  predicate Overtakes(e: PackageEvent) { e.Delivery? && e.m.status != CANCELLED && (e.calculable || e.m.orderDay < e.today) }

  /** The rows stand side by side after a parked package is overtaken, until a cancellation or the promotion clears the buffer. */
  predicate SideBySide(es: seq<PackageEvent>) {
    es != [] &&
    var pre, e := es[..|es| - 1], es[|es| - 1];
    if SideBySide(pre) then e.Delivery? && e.m.status != CANCELLED else StageAfter(pre).Parked? && Overtakes(e)
  }

  lemma StoredRowEvent(s: Shop, p: string, e: PackageEvent, lines: seq<Line>)
    requires SameSale(e, p, lines) && p in s.orders && BufferHolds(s, p, lines)
    ensures p in Happen(s, p, e).buffer <==> p in s.buffer && e.Delivery? && e.m.status != CANCELLED
  {
  }

  /** The rows start to coexist exactly when a delivery takes one of those routes over a buffer row. */
  lemma CoexistenceStartsIff(s: Shop, m: Mapped, today: int, calculable: bool)
    requires !Coexist(s, m.orderId)
    ensures Coexist(Intake(s, m, today, calculable).0, m.orderId) <==>
            m.orderId in s.buffer && !m.dematerialized && m.status != CANCELLED && (calculable || m.orderDay < today)
  {
  }

  lemma EventStartsCoexistence(s: Shop, p: string, e: PackageEvent, lines: seq<Line>)
    requires SameSale(e, p, lines) && !Coexist(s, p) && BufferHolds(s, p, lines)
    ensures Coexist(Happen(s, p, e), p) <==> p in s.buffer && Overtakes(e)
  {
    if e.Delivery? { CoexistenceStartsIff(s, e.m, e.today, e.calculable); }
  }

  lemma {:induction false} CoexistIsSideBySide(s0: Shop, p: string, lines: seq<Line>, es: seq<PackageEvent>)
    requires p !in s0.orders && p !in s0.buffer
    requires forall k :: 0 <= k < |es| ==> SameSale(es[k], p, lines)
    ensures Coexist(Life(s0, p, es), p) <==> SideBySide(es)
  {
    if es != [] {
      var pre, e := es[..|es| - 1], es[|es| - 1];
      var s := Life(s0, p, pre);
      CoexistIsSideBySide(s0, p, lines, pre);
      LifeSells(s0, p, lines, pre);
      LifeSells(s0, p, lines, es);
      if StageAfter(pre).Stored? { StoredRowEvent(s, p, e, lines); }
      if !Coexist(s, p) { EventStartsCoexistence(s, p, e, lines); }
    }
  }

  lemma {:induction false} SideBySideHasAStart(es: seq<PackageEvent>)
    requires SideBySide(es)
    ensures exists k :: 0 <= k < |es| && StageAfter(es[..k]).Parked? && Overtakes(es[k])
  {
    var pre := es[..|es| - 1];
    if SideBySide(pre) {
      SideBySideHasAStart(pre);
      var k :| 0 <= k < |pre| && StageAfter(pre[..k]).Parked? && Overtakes(pre[k]);
      assert pre[..k] == es[..k] && pre[k] == es[k];
    } else {
      assert StageAfter(es[..|es| - 1]).Parked? && Overtakes(es[|es| - 1]);
    }
  }

  lemma {:induction false} SideBySideIsStored(es: seq<PackageEvent>)
    ensures SideBySide(es) ==> StageAfter(es).Stored?
  {
    if es != [] { SideBySideIsStored(es[..|es| - 1]); }
  }

  lemma SideBySideStarts(es: seq<PackageEvent>, k: nat)
    requires k < |es| && StageAfter(es[..k]).Parked? && Overtakes(es[k])
    ensures SideBySide(es[..k + 1])
  {
    assert es[..k + 1][..k] == es[..k];
    SideBySideIsStored(es[..k]);
  }

  lemma StartOfPrefix(es: seq<PackageEvent>, k: nat) returns (j: nat)
    requires k <= |es| && SideBySide(es[..k])
    ensures j < |es| && StageAfter(es[..j]).Parked? && Overtakes(es[j])
  {
    var pre := es[..k];
    SideBySideHasAStart(pre);
    j :| 0 <= j < |pre| && StageAfter(pre[..j]).Parked? && Overtakes(pre[j]);
    assert pre[..j] == es[..j] && pre[j] == es[j];
  }

  /**
   The two rows are meant never to coexist for one package. Over its whole life they have
   done so at some point exactly when some live delivery overtook the package while it was
   parked: fully costed by then, or past its business day.
   */
  lemma EverCoexistedIff(s0: Shop, p: string, lines: seq<Line>, es: seq<PackageEvent>)
    requires p !in s0.orders && p !in s0.buffer
    requires forall k :: 0 <= k < |es| ==> SameSale(es[k], p, lines)
    ensures (exists k :: 0 <= k <= |es| && Coexist(Life(s0, p, es[..k]), p))
       <==> exists k :: 0 <= k < |es| && StageAfter(es[..k]).Parked? && Overtakes(es[k])
  {
    if k :| 0 <= k <= |es| && Coexist(Life(s0, p, es[..k]), p) {
      CoexistIsSideBySide(s0, p, lines, es[..k]);
      var j := StartOfPrefix(es, k);
    }
    if k :| 0 <= k < |es| && StageAfter(es[..k]).Parked? && Overtakes(es[k]) {
      SideBySideStarts(es, k);
      CoexistIsSideBySide(s0, p, lines, es[..k + 1]);
    }
  }

  // ─── A feed of several packages ───────────────────────────────────────

  /** One event of one package; a feed interleaves the events of any packages. */
  datatype FeedEvent = FeedEvent(p: string, e: PackageEvent)

  type Feed = seq<FeedEvent>

  function Fed(s: Shop, fs: Feed): Shop {
    if fs == [] then s else Happen(Fed(s, fs[..|fs| - 1]), fs[|fs| - 1].p, fs[|fs| - 1].e)
  }

  /** The events of one package, and the feed without them. */
  function EventsOf(fs: Feed, p: string): seq<PackageEvent> {
    if fs == [] then []
    else EventsOf(fs[..|fs| - 1], p) + if fs[|fs| - 1].p == p then [fs[|fs| - 1].e] else []
  }

  function Others(fs: Feed, p: string): Feed {
    if fs == [] then [] else Others(fs[..|fs| - 1], p) + if fs[|fs| - 1].p == p then [] else [fs[|fs| - 1]]
  }

  /** What the feed sells when it follows `past`: each event what its package's stage lets it sell. */
  function Sales(past: Feed, fs: Feed, linesOf: string -> seq<Line>, r: Resolver): seq<Movement> {
    if fs == [] then []
    else
      var pre, f := fs[..|fs| - 1], fs[|fs| - 1];
      Sales(past, pre, linesOf, r) + SoldAt(StageAfter(EventsOf(past + pre, f.p)), f.e, linesOf(f.p), r)
  }

  /** Every package is always delivered with its own lines. */
  predicate SteadyLines(fs: Feed, linesOf: string -> seq<Line>) {
    forall k :: 0 <= k < |fs| ==> SameSale(fs[k].e, fs[k].p, linesOf(fs[k].p))
  }

  ghost predicate Stands(s: Shop, p: string, stage: Stage, lines: seq<Line>, r: Resolver) {
    StandsAt(s, p, stage, lines, r) && Carries(s, p, lines, r)
  }

  /** The rows of package `q` are the same in both shops. */
  predicate SameRows(a: Shop, b: Shop, q: string) {
    Get(a.orders, q) == Get(b.orders, q) && Get(a.buffer, q) == Get(b.buffer, q)
  }

  lemma UpsertLeavesOthers(s: Shop, m: Mapped, today: int, opts: UpsertOpts, q: string)
    requires q != m.orderId
    ensures SameRows(s, Upserted(s, m, today, opts), q)
  {
  }

  lemma IntakeLeavesOthers(s: Shop, m: Mapped, today: int, calculable: bool, q: string)
    requires q != m.orderId && !m.dematerialized
    ensures SameRows(s, Intake(s, m, today, calculable).0, q)
  {
    if m.status == CANCELLED {
      UpsertLeavesOthers(s.(buffer := Removed(s.buffer, m.orderId)), m, today, PLAIN, q);
    } else if calculable || m.orderDay < today || m.orderId in s.orders {
      UpsertLeavesOthers(s, m, today, PLAIN, q);
      UpsertLeavesOthers(s, m, today, UpsertOpts(true, false), q);
    }
  }

  lemma EventLeavesOthers(s: Shop, p: string, e: PackageEvent, q: string)
    requires q != p && (e.Delivery? ==> e.m.orderId == p && !e.m.dematerialized)
    requires p in s.buffer ==> s.buffer[p].mapped.orderId == p
    ensures SameRows(s, Happen(s, p, e), q)
  {
    if e.Delivery? {
      IntakeLeavesOthers(s, e.m, e.today, e.calculable, q);
    } else if p in s.buffer {
      UpsertLeavesOthers(s, s.buffer[p].mapped, e.today, UpsertOpts(e.excluded, true), q);
    }
  }

  lemma SameRowsStand(a: Shop, b: Shop, q: string, stage: Stage, lines: seq<Line>, r: Resolver)
    requires SameRows(a, b, q) && Stands(a, q, stage, lines, r)
    ensures Stands(b, q, stage, lines, r)
  {
    assert q in a.orders <==> Get(a.orders, q).Some?;
    assert q in b.orders <==> Get(b.orders, q).Some?;
    assert q in a.buffer <==> Get(a.buffer, q).Some?;
    assert q in b.buffer <==> Get(b.buffer, q).Some?;
  }

  lemma EventStands(s: Shop, f: FeedEvent, stage: Stage, linesOf: string -> seq<Line>, r: Resolver)
    requires SameSale(f.e, f.p, linesOf(f.p)) && Stands(s, f.p, stage, linesOf(f.p), r)
    requires forall b :: ResolverOf(s.variants)(b) == r(b)
    ensures var s' := Happen(s, f.p, f.e);
            && Stands(s', f.p, NextStage(stage, f.e), linesOf(f.p), r)
            && s'.variants == DecrementAll(s.variants, SoldAt(stage, f.e, linesOf(f.p), r))
    ensures forall q, st :: q != f.p && Stands(s, q, st, linesOf(q), r) ==> Stands(Happen(s, f.p, f.e), q, st, linesOf(q), r)
  {
    EventSells(s, f.p, f.e, stage, linesOf(f.p), r);
    EventCarries(s, f.p, f.e, stage, linesOf(f.p), r);
    forall q, st | q != f.p && Stands(s, q, st, linesOf(q), r)
      ensures Stands(Happen(s, f.p, f.e), q, st, linesOf(q), r)
    {
      EventLeavesOthers(s, f.p, f.e, q);
      SameRowsStand(s, Happen(s, f.p, f.e), q, st, linesOf(q), r);
    }
  }

  /** Every package stands where its events so far put it. */
  ghost predicate AllStand(s: Shop, past: Feed, linesOf: string -> seq<Line>, r: Resolver, packages: set<string>) {
    forall p :: p in packages ==> Stands(s, p, StageAfter(EventsOf(past, p)), linesOf(p), r)
  }

  lemma OneMoreEvent(past: Feed, fs: Feed)
    requires fs != []
    ensures var pre, f := past + fs[..|fs| - 1], fs[|fs| - 1];
            && EventsOf(past + fs, f.p) == EventsOf(pre, f.p) + [f.e]
            && StageAfter(EventsOf(past + fs, f.p)) == NextStage(StageAfter(EventsOf(pre, f.p)), f.e)
    ensures forall q :: q != fs[|fs| - 1].p ==> EventsOf(past + fs, q) == EventsOf(past + fs[..|fs| - 1], q)
  {
    var pre, f := past + fs[..|fs| - 1], fs[|fs| - 1];
    assert past + fs == pre + [f];
    assert (pre + [f])[..|pre|] == pre;
    var es := EventsOf(pre, f.p);
    assert (es + [f.e])[..|es|] == es;
  }

  lemma {:induction false} FeedSells(s: Shop, past: Feed, fs: Feed, linesOf: string -> seq<Line>, r: Resolver, packages: set<string>)
    requires SteadyLines(fs, linesOf) && AllStand(s, past, linesOf, r, packages)
    requires forall k :: 0 <= k < |fs| ==> fs[k].p in packages
    requires forall b :: ResolverOf(s.variants)(b) == r(b)
    ensures Fed(s, fs).variants == DecrementAll(s.variants, Sales(past, fs, linesOf, r))
    ensures AllStand(Fed(s, fs), past + fs, linesOf, r, packages)
    ensures forall b :: ResolverOf(Fed(s, fs).variants)(b) == r(b)
  {
    if fs == [] {
      assert past + fs == past;
    } else {
      var pre, f := fs[..|fs| - 1], fs[|fs| - 1];
      FeedSells(s, past, pre, linesOf, r, packages);
      var s', stage := Fed(s, pre), StageAfter(EventsOf(past + pre, f.p));
      EventStands(s', f, stage, linesOf, r);
      OneMoreEvent(past, fs);
      DecrementAllConcat(s.variants, Sales(past, pre, linesOf, r), SoldAt(stage, f.e, linesOf(f.p), r));
      SameCatalogueAfterMoves(s.variants, Sales(past, fs, linesOf, r));
      SameResolverInCatalogue(s.variants, Fed(s, fs).variants);
    }
  }

  // ─── Whose sale is whose ──────────────────────────────────────────────

  lemma OneMoreOf(fs: Feed, f: FeedEvent, p: string)
    ensures EventsOf(fs + [f], p) == EventsOf(fs, p) + if f.p == p then [f.e] else []
  {
    assert (fs + [f])[..|fs|] == fs;
  }

  lemma {:induction false} OthersKeepTheirEvents(fs: Feed, g: string, p: string)
    ensures EventsOf(Others(fs, g), p) == if p == g then [] else EventsOf(fs, p)
  {
    if fs != [] {
      var pre, f := fs[..|fs| - 1], fs[|fs| - 1];
      OthersKeepTheirEvents(pre, g, p);
      if f.p == g {
        assert Others(fs, g) == Others(pre, g);
      } else {
        assert Others(fs, g) == Others(pre, g) + [f];
        OneMoreOf(Others(pre, g), f, p);
      }
      assert fs == pre + [f];
      OneMoreOf(pre, f, p);
    }
  }

  lemma LastApart(past: Feed, fs: Feed)
    requires fs != []
    ensures fs == fs[..|fs| - 1] + [fs[|fs| - 1]] && past + fs == past + fs[..|fs| - 1] + [fs[|fs| - 1]]
  {
  }

  lemma NothingSold(g: string, linesOf: string -> seq<Line>, r: Resolver, id: VariantId)
    ensures Units(Sales([], [], linesOf, r), id) == 0 && Units(SoldBy(EventsOf([], g), linesOf(g), r), id) == 0
    ensures Units(Sales([], Others([], g), linesOf, r), id) == 0
  {
    assert EventsOf([], g) == [] && SoldBy([], linesOf(g), r) == [];
  }

  /** The feed's sales are those of one package's life and those of the feed without it. */
  lemma {:induction false} SalesSplit(fs: Feed, g: string, linesOf: string -> seq<Line>, r: Resolver, id: VariantId)
    ensures Units(Sales([], fs, linesOf, r), id)
         == Units(SoldBy(EventsOf(fs, g), linesOf(g), r), id) + Units(Sales([], Others(fs, g), linesOf, r), id)
  {
    if fs == [] {
      NothingSold(g, linesOf, r, id);
    } else {
      SalesSplit(fs[..|fs| - 1], g, linesOf, r, id);
      SalesSplitStep(fs[..|fs| - 1], fs[|fs| - 1], g, linesOf, r, id);
      LastApart([], fs);
    }
  }

  lemma SalesGrow(past: Feed, pre: Feed, f: FeedEvent, linesOf: string -> seq<Line>, r: Resolver, id: VariantId)
    ensures Units(Sales(past, pre + [f], linesOf, r), id)
         == Units(Sales(past, pre, linesOf, r), id)
            + Units(SoldAt(StageAfter(EventsOf(past + pre, f.p)), f.e, linesOf(f.p), r), id)
  {
    assert (pre + [f])[..|pre|] == pre;
    UnitsConcat(Sales(past, pre, linesOf, r), SoldAt(StageAfter(EventsOf(past + pre, f.p)), f.e, linesOf(f.p), r), id);
  }

  lemma LifeGrows(es: seq<PackageEvent>, e: PackageEvent, lines: seq<Line>, r: Resolver, id: VariantId)
    ensures Units(SoldBy(es + [e], lines, r), id) == Units(SoldBy(es, lines, r), id) + Units(SoldAt(StageAfter(es), e, lines, r), id)
  {
    assert (es + [e])[..|es|] == es;
    SoldStep(es + [e], lines, r);
    UnitsConcat(SoldBy(es, lines, r), SoldAt(StageAfter(es), e, lines, r), id);
  }

  lemma SalesSplitStep(pre: Feed, f: FeedEvent, g: string, linesOf: string -> seq<Line>, r: Resolver, id: VariantId)
    requires Units(Sales([], pre, linesOf, r), id)
          == Units(SoldBy(EventsOf(pre, g), linesOf(g), r), id) + Units(Sales([], Others(pre, g), linesOf, r), id)
    ensures Units(Sales([], pre + [f], linesOf, r), id)
         == Units(SoldBy(EventsOf(pre + [f], g), linesOf(g), r), id) + Units(Sales([], Others(pre + [f], g), linesOf, r), id)
  {
    SalesGrow([], pre, f, linesOf, r, id);
    assert (pre + [f])[..|pre|] == pre && [] + pre == pre;
    if f.p == g {
      assert EventsOf(pre + [f], g) == EventsOf(pre, g) + [f.e] && Others(pre + [f], g) == Others(pre, g);
      LifeGrows(EventsOf(pre, g), f.e, linesOf(g), r, id);
    } else {
      assert EventsOf(pre + [f], g) == EventsOf(pre, g) && Others(pre + [f], g) == Others(pre, g) + [f];
      OthersKeepTheirEvents(pre, g, f.p);
      assert [] + Others(pre, g) == Others(pre, g);
      SalesGrow([], Others(pre, g), f, linesOf, r, id);
    }
  }

  lemma SalesAfterStep(past: Feed, pre: Feed, all: Feed, f: FeedEvent, linesOf: string -> seq<Line>, r: Resolver, id: VariantId)
    requires all == past + pre
    requires Units(Sales([], all, linesOf, r), id) == Units(Sales([], past, linesOf, r), id) + Units(Sales(past, pre, linesOf, r), id)
    ensures Units(Sales([], all + [f], linesOf, r), id)
         == Units(Sales([], past, linesOf, r), id) + Units(Sales(past, pre + [f], linesOf, r), id)
  {
    SalesGrow([], all, f, linesOf, r, id);
    assert [] + all == all;
    SalesGrow(past, pre, f, linesOf, r, id);
  }

  /** What is sold later depends on the past only through each package's own events. */
  lemma {:induction false} SalesAfter(past: Feed, fs: Feed, linesOf: string -> seq<Line>, r: Resolver, id: VariantId)
    ensures Units(Sales([], past + fs, linesOf, r), id) == Units(Sales([], past, linesOf, r), id) + Units(Sales(past, fs, linesOf, r), id)
  {
    if fs == [] {
      assert past + fs == past;
    } else {
      var pre, f := fs[..|fs| - 1], fs[|fs| - 1];
      SalesAfter(past, pre, linesOf, r, id);
      SalesAfterStep(past, pre, past + pre, f, linesOf, r, id);
      LastApart(past, fs);
    }
  }

  // ─── One delivery ─────────────────────────────────────────────────────

  /** A delivery today of a package the shop does not know. */
  predicate NewToday(s: Shop, m: Mapped, today: int) {
    m.orderId !in s.orders && m.orderId !in s.buffer && m.orderDay == today && !m.dematerialized
  }

  lemma OneEvent(s0: Shop, p: string, lines: seq<Line>, e: PackageEvent)
    requires p !in s0.orders && p !in s0.buffer && SameSale(e, p, lines)
    ensures Life(s0, p, [e]) == Happen(s0, p, e) && StageAfter([e]) == NextStage(Unseen, e)
    ensures Life(s0, p, [e]).variants == DecrementAll(s0.variants, SoldAt(Unseen, e, lines, ResolverOf(s0.variants)))
    ensures RowDay(Life(s0, p, [e]), p) == if e.Delivery? then Some(e.m.orderDay) else None
  {
    assert [e][..0] == [];
    EventSells(s0, p, e, Unseen, lines, ResolverOf(s0.variants));
  }

  // ─── The stock of a split ─────────────────────────────────────────────

  /** Of `u` units, `early` are re-carried before the ghost's are re-added and `late` after. */
  lemma SplitQuantityIff(q: nat, u: nat, early: nat, late: nat)
    requires early + late == u
    ensures Floored(Floored(q, u + early) + u, late) == Floored(q, u) <==> early == 0 || q >= u + early
  {
  }

  lemma ShelfNetsOutIff(vs: Variants, sold: seq<Movement>, back: seq<Movement>, late: seq<Movement>, sale: seq<Movement>,
                        early: nat, i: nat)
    requires i < |vs| && Units(back, vs[i].id) == Units(sale, vs[i].id)
    requires Units(sold, vs[i].id) == Units(sale, vs[i].id) + early && early + Units(late, vs[i].id) == Units(sale, vs[i].id)
    ensures DecrementAll(IncrementAll(DecrementAll(vs, sold), back), late)[i] == DecrementAll(vs, sale)[i]
       <==> early == 0 || vs[i].quantity >= Units(sale, vs[i].id) + early
  {
    var a := DecrementAll(vs, sold);
    var b := IncrementAll(a, back);
    RowSold(vs, sold, a, i);
    RowReAdded(a, back, b, i);
    RowSold(b, late, DecrementAll(b, late), i);
    RowSold(vs, sale, DecrementAll(vs, sale), i);
    RowNetsOutIff(vs[i], a[i], b[i], DecrementAll(b, late)[i], DecrementAll(vs, sale)[i], Units(sale, vs[i].id), early,
                  Units(late, vs[i].id));
  }

  lemma RowSold(vs: Variants, ms: seq<Movement>, left: Variants, i: nat)
    requires i < |vs| && left == DecrementAll(vs, ms)
    ensures i < |left| && left[i] == vs[i].(quantity := Floored(vs[i].quantity, Units(ms, vs[i].id)))
  {
    DecrementsFloorOnce(vs, ms, i);
  }

  lemma RowReAdded(vs: Variants, ms: seq<Movement>, left: Variants, i: nat)
    requires i < |vs| && left == IncrementAll(vs, ms)
    ensures i < |left| && left[i] == vs[i].(quantity := vs[i].quantity + Units(ms, vs[i].id))
  {
    IncrementsAddUp(vs, ms, i);
  }

  lemma RowNetsOutIff(v: Variant, sold: Variant, back: Variant, split: Variant, unsplit: Variant, u: nat, early: nat, late: nat)
    requires sold == v.(quantity := Floored(v.quantity, u + early)) && back == sold.(quantity := sold.quantity + u)
    requires split == back.(quantity := Floored(back.quantity, late)) && unsplit == v.(quantity := Floored(v.quantity, u))
    requires early + late == u
    ensures split == unsplit <==> early == 0 || v.quantity >= u + early
  {
    SplitQuantityIff(v.quantity, u, early, late);
    assert split == unsplit <==> split.quantity == unsplit.quantity;
  }

  /** No package of the feed is known to the shop yet. */
  predicate NewTo(s: Shop, packages: set<string>) { forall p :: p in packages ==> p !in s.orders && p !in s.buffer }

  lemma NewPackagesStand(s: Shop, packages: set<string>, linesOf: string -> seq<Line>)
    requires NewTo(s, packages)
    ensures AllStand(s, [], linesOf, ResolverOf(s.variants), packages)
  {
  }

  /** The removal of a ghost leaves every other package where it stood and the ghost unseen. */
  lemma RemovalStands(s: Shop, past: Feed, unpacked: Mapped, today: int, linesOf: string -> seq<Line>, r: Resolver, packages: set<string>)
    requires AllStand(s, past, linesOf, r, packages) && unpacked.dematerialized && forall b :: ResolverOf(s.variants)(b) == r(b)
    ensures var s' := Intake(s, unpacked, today, false).0;
            && AllStand(s', Others(past, unpacked.orderId), linesOf, r, packages)
            && s'.variants == IncrementAll(s.variants, ReversalMoves(s, unpacked.orderId, today))
            && forall b :: ResolverOf(s'.variants)(b) == r(b)
  {
    var s' := Intake(s, unpacked, today, false).0;
    SameCatalogueAfterMoves(s.variants, ReversalMoves(s, unpacked.orderId, today));
    SameResolverInCatalogue(s.variants, s'.variants);
    forall p | p in packages
      ensures Stands(s', p, StageAfter(EventsOf(Others(past, unpacked.orderId), p)), linesOf(p), r)
    {
      OthersKeepTheirEvents(past, unpacked.orderId, p);
      assert Stands(s, p, StageAfter(EventsOf(past, p)), linesOf(p), r);
    }
  }

  /** The feed before the removal, the removal, and the feed after it. */
  function ThroughSplit(s: Shop, before: Feed, unpacked: Mapped, today: int, after: Feed): Shop {
    Fed(Intake(Fed(s, before), unpacked, today, false).0, after)
  }

  /**
   The shelf after any feed with a split in it: the ghost and any other packages delivered
   and promoted before the removal, in any order, on any days and routes; the removal; and
   any feed after it, in which the ghost's id, should it come back, counts as new.
   */
  lemma StockThroughSplit(s0: Shop, before: Feed, unpacked: Mapped, today: int, after: Feed, linesOf: string -> seq<Line>,
                          packages: set<string>)
    requires unpacked.dematerialized && unpacked.orderId in packages && NewTo(s0, packages)
    requires forall k :: 0 <= k < |before| ==> before[k].p in packages
    requires forall k :: 0 <= k < |after| ==> after[k].p in packages
    requires SteadyLines(before, linesOf) && SteadyLines(after, linesOf)
    ensures var r, g, s1 := ResolverOf(s0.variants), unpacked.orderId, Fed(s0, before);
            && s1.variants == DecrementAll(s0.variants, Sales([], before, linesOf, r))
            && SameUnits(ReversalMoves(s1, g, today),
                         ReAdded(StageAfter(EventsOf(before, g)), RowDay(s1, g) == Some(today), linesOf(g), r))
            && ThroughSplit(s0, before, unpacked, today, after).variants
               == DecrementAll(IncrementAll(s1.variants, ReversalMoves(s1, g, today)), Sales(Others(before, g), after, linesOf, r))
  {
    var r, g, s1 := ResolverOf(s0.variants), unpacked.orderId, Fed(s0, before);
    NewPackagesStand(s0, packages, linesOf);
    FeedSells(s0, [], before, linesOf, r, packages);
    assert [] + before == before;
    ReversalReAdds(s1, g, StageAfter(EventsOf(before, g)), linesOf(g), r, today);
    RemovalStands(s1, before, unpacked, today, linesOf, r, packages);
    FeedSells(Intake(s1, unpacked, today, false).0, Others(before, g), after, linesOf, r, packages);
  }

  /** The events before the removal whose sale it undoes, and a feed that otherwise sells exactly the ghost's units. */
  ghost predicate ReCarried(s0: Shop, before: Feed, g: string, today: int, after: Feed, linesOf: string -> seq<Line>) {
    var r := ResolverOf(s0.variants);
    && Undoes(EventsOf(before, g), RowDay(Fed(s0, before), g) == Some(today), linesOf(g), r)
    && SameUnits(Sales([], Others(before, g) + after, linesOf, r), SoldBy(EventsOf(before, g), linesOf(g), r))
  }

  /** The units of one variant in such a feed: sold before, and re-carried early and late. */
  lemma ReCarriedUnits(s0: Shop, before: Feed, g: string, today: int, after: Feed, linesOf: string -> seq<Line>, id: VariantId)
    requires ReCarried(s0, before, g, today, after, linesOf)
    ensures var r, es, others := ResolverOf(s0.variants), EventsOf(before, g), Others(before, g);
            var u, early := Units(SoldBy(es, linesOf(g), r), id), Units(Sales([], others, linesOf, r), id);
            && Units(ReAdded(StageAfter(es), RowDay(Fed(s0, before), g) == Some(today), linesOf(g), r), id) == u
            && Units(Sales([], before, linesOf, r), id) == u + early
            && early + Units(Sales(others, after, linesOf, r), id) == u
  {
    var r, es, others := ResolverOf(s0.variants), EventsOf(before, g), Others(before, g);
    UndoesMeansSameUnits(es, RowDay(Fed(s0, before), g) == Some(today), linesOf(g), r);
    SalesSplit(before, g, linesOf, r, id);
    SalesAfter(others, after, linesOf, r, id);
    assert Units(Sales([], others + after, linesOf, r), id) == Units(SoldBy(es, linesOf(g), r), id);
  }

  /**
   When a split nets out. The ghost lived any life whose sale the removal undoes, and the
   rest of the feed, children in any order before and after the removal, on any routes and
   days, sells the same units. Then a variant ends where the unsplit package would have
   left it exactly when no child sold any of it before the removal, or the shelf held the
   ghost's units and those of the early children together.
   */
  lemma SplitNetsOutIff(s0: Shop, before: Feed, unpacked: Mapped, today: int, after: Feed, linesOf: string -> seq<Line>,
                        packages: set<string>, i: nat)
    requires unpacked.dematerialized && unpacked.orderId in packages && NewTo(s0, packages) && i < |s0.variants|
    requires forall k :: 0 <= k < |before| ==> before[k].p in packages
    requires forall k :: 0 <= k < |after| ==> after[k].p in packages
    requires SteadyLines(before, linesOf) && SteadyLines(after, linesOf)
    requires ReCarried(s0, before, unpacked.orderId, today, after, linesOf)
    ensures var r, g, v := ResolverOf(s0.variants), unpacked.orderId, s0.variants[i];
            var sale, early := SoldBy(EventsOf(before, g), linesOf(g), r), Units(Sales([], Others(before, g), linesOf, r), v.id);
            var shelf := ThroughSplit(s0, before, unpacked, today, after).variants;
            && |shelf| == |s0.variants|
            && (shelf[i] == DecrementAll(s0.variants, sale)[i] <==> early == 0 || v.quantity >= Units(sale, v.id) + early)
  {
    var r, g, v := ResolverOf(s0.variants), unpacked.orderId, s0.variants[i];
    var s1, others := Fed(s0, before), Others(before, g);
    var sale, late := SoldBy(EventsOf(before, g), linesOf(g), r), Sales(others, after, linesOf, r);
    StockThroughSplit(s0, before, unpacked, today, after, linesOf, packages);
    ReCarriedUnits(s0, before, g, today, after, linesOf, v.id);
    var back := ReAdded(StageAfter(EventsOf(before, g)), RowDay(s1, g) == Some(today), linesOf(g), r);
    assert Units(ReversalMoves(s1, g, today), v.id) == Units(back, v.id);
    ShelfNetsOutIff(s0.variants, Sales([], before, linesOf, r), ReversalMoves(s1, g, today), late, sale,
                    Units(Sales([], others, linesOf, r), v.id), i);
  }

  lemma {:induction false} OnlyTheGhost(fs: Feed, g: string)
    requires forall k :: 0 <= k < |fs| ==> fs[k].p == g
    ensures Others(fs, g) == []
  {
    if fs != [] { OnlyTheGhost(fs[..|fs| - 1], g); }
  }

  /**
   The order of events that is meant: the ghost alone, its removal, then the children.
   Whatever life the ghost lived, if the removal undoes its sale and the children re-carry
   its units, the shelf ends exactly where the unsplit package had left it, also when the
   floor was hit; in between every variant stands at the larger of its old stock and the
   units it carried, and the ghost is in neither book.
   */
  lemma SplitNetsOut(s0: Shop, before: Feed, unpacked: Mapped, today: int, after: Feed, linesOf: string -> seq<Line>,
                     packages: set<string>)
    requires unpacked.dematerialized && unpacked.orderId in packages && NewTo(s0, packages)
    requires forall k :: 0 <= k < |before| ==> before[k].p == unpacked.orderId
    requires forall k :: 0 <= k < |after| ==> after[k].p in packages
    requires SteadyLines(before, linesOf) && SteadyLines(after, linesOf)
    requires ReCarried(s0, before, unpacked.orderId, today, after, linesOf)
    ensures var sale := SoldBy(EventsOf(before, unpacked.orderId), linesOf(unpacked.orderId), ResolverOf(s0.variants));
            var s2 := Intake(Fed(s0, before), unpacked, today, false).0;
            && unpacked.orderId !in s2.orders && unpacked.orderId !in s2.buffer
            && |s2.variants| == |s0.variants|
            && (forall i :: 0 <= i < |s0.variants| ==> s2.variants[i] == s0.variants[i].(quantity :=
                  Max(s0.variants[i].quantity, Units(sale, s0.variants[i].id))))
            && ThroughSplit(s0, before, unpacked, today, after).variants == DecrementAll(s0.variants, sale)
  {
    var g := unpacked.orderId;
    var sale := SoldBy(EventsOf(before, g), linesOf(g), ResolverOf(s0.variants));
    var shelf := ThroughSplit(s0, before, unpacked, today, after).variants;
    OnlyTheGhost(before, g);
    StockThroughSplit(s0, before, unpacked, today, after, linesOf, packages);
    forall i | 0 <= i < |s0.variants|
      ensures |shelf| == |s0.variants| && shelf[i] == DecrementAll(s0.variants, sale)[i]
    {
      SplitNetsOutIff(s0, before, unpacked, today, after, linesOf, packages, i);
    }
    assert |shelf| == |s0.variants|;
    UndoneGhost(s0, before, unpacked, today, after, linesOf, packages);
  }

  /** Between the removal and the children. */
  lemma UndoneGhost(s0: Shop, before: Feed, unpacked: Mapped, today: int, after: Feed, linesOf: string -> seq<Line>,
                    packages: set<string>)
    requires unpacked.dematerialized && unpacked.orderId in packages && NewTo(s0, packages)
    requires forall k :: 0 <= k < |before| ==> before[k].p == unpacked.orderId
    requires forall k :: 0 <= k < |after| ==> after[k].p in packages
    requires SteadyLines(before, linesOf) && SteadyLines(after, linesOf)
    requires ReCarried(s0, before, unpacked.orderId, today, after, linesOf)
    ensures var sale := SoldBy(EventsOf(before, unpacked.orderId), linesOf(unpacked.orderId), ResolverOf(s0.variants));
            var s2 := Intake(Fed(s0, before), unpacked, today, false).0;
            && |s2.variants| == |s0.variants|
            && forall i :: 0 <= i < |s0.variants| ==> s2.variants[i] == s0.variants[i].(quantity :=
                  Max(s0.variants[i].quantity, Units(sale, s0.variants[i].id)))
  {
    var r, g, s1 := ResolverOf(s0.variants), unpacked.orderId, Fed(s0, before);
    var sale := SoldBy(EventsOf(before, g), linesOf(g), r);
    var back := ReversalMoves(s1, g, today);
    StockThroughSplit(s0, before, unpacked, today, after, linesOf, packages);
    OnlyTheGhost(before, g);
    forall i | 0 <= i < |s0.variants|
      ensures IncrementAll(s1.variants, back)[i] == s0.variants[i].(quantity := Max(s0.variants[i].quantity, Units(sale, s0.variants[i].id)))
    {
      var id := s0.variants[i].id;
      ReCarriedUnits(s0, before, g, today, after, linesOf, id);
      var readded := ReAdded(StageAfter(EventsOf(before, g)), RowDay(s1, g) == Some(today), linesOf(g), r);
      assert Units(back, id) == Units(readded, id);
      RowSold(s0.variants, Sales([], before, linesOf, r), s1.variants, i);
      RowReAdded(s1.variants, back, IncrementAll(s1.variants, back), i);
    }
  }

  lemma OneStep(s: Shop, f: FeedEvent)
    ensures Fed(s, [f]) == Happen(s, f.p, f.e)
  {
    assert [f][..0] == [];
  }

  lemma OneEventSells(f: FeedEvent, linesOf: string -> seq<Line>, r: Resolver)
    ensures EventsOf([f], f.p) == [f.e] && Sales([], [f], linesOf, r) == SoldAt(Unseen, f.e, linesOf(f.p), r)
    ensures SoldBy([f.e], linesOf(f.p), r) == SoldAt(Unseen, f.e, linesOf(f.p), r)
  {
    var none: Feed := [];
    assert [f][..0] == none && none + none == none && [f.e][..0] == [];
    assert EventsOf([], f.p) == [] && Sales([], [], linesOf, r) == [];
    SoldStep([f.e], linesOf(f.p), r);
  }

  lemma FirstSaleIsUndone(m: Mapped, today: int, calculable: bool, r: Resolver)
    requires m.orderDay == today && m.status != CANCELLED
    ensures Undoes([Delivery(m, today, calculable)], true, m.lines, r)
  {
    var e := Delivery(m, today, calculable);
    assert [e][..0] == [];
    assert if calculable then StageAfter([e]).Stored? && WrittenOnItsDay([e]) && !ParkedOnItsDay([e])
           else StageAfter([e]).Parked? && ParkedOnItsDay([e]);
  }

  lemma SameFirstSale(a: Mapped, b: Mapped, today: int, calculable: bool, lines: seq<Line>, r: Resolver)
    requires a.orderDay == today && a.status != CANCELLED && b.orderDay == today && b.status != CANCELLED
    ensures SoldAt(Unseen, Delivery(a, today, calculable), lines, r) == SoldAt(Unseen, Delivery(b, today, calculable), lines, r)
  {
  }

  lemma EverydaySplitIsReCarried(s0: Shop, m: Mapped, child: Mapped, calculable: bool, today: int, linesOf: string -> seq<Line>)
    requires NewToday(s0, m, today) && NewToday(s0, child, today) && child.orderId != m.orderId
    requires m.status != CANCELLED && child.status != CANCELLED && linesOf(m.orderId) == linesOf(child.orderId) == m.lines
    ensures var e, c := FeedEvent(m.orderId, Delivery(m, today, calculable)), FeedEvent(child.orderId, Delivery(child, today, calculable));
            ReCarried(s0, [e], m.orderId, today, [c], linesOf)
  {
    var r := ResolverOf(s0.variants);
    var e, c := FeedEvent(m.orderId, Delivery(m, today, calculable)), FeedEvent(child.orderId, Delivery(child, today, calculable));
    OneEventSells(e, linesOf, r);
    OneEventSells(c, linesOf, r);
    OneEvent(s0, m.orderId, m.lines, e.e);
    OneStep(s0, e);
    assert Life(s0, m.orderId, [e.e]) == Fed(s0, [e]);
    FirstSaleIsUndone(m, today, calculable, r);
    SameFirstSale(m, child, today, calculable, m.lines, r);
    OnlyTheGhost([e], m.orderId);
    assert Others([e], m.orderId) + [c] == [c];
  }

  /** The everyday split: one delivery today, removed today, and one child with the same lines on the same costing route. */
  lemma EverydaySplitNetsOut(s0: Shop, m: Mapped, child: Mapped, calculable: bool, unpacked: Mapped, today: int)
    requires NewToday(s0, m, today) && NewToday(s0, child, today) && child.orderId != m.orderId && child.lines == m.lines
    requires m.status != CANCELLED && child.status != CANCELLED && unpacked.dematerialized && unpacked.orderId == m.orderId
    ensures var s1 := Intake(s0, m, today, calculable).0;
            Intake(Intake(s1, unpacked, today, false).0, child, today, calculable).0.variants == s1.variants
  {
    var linesOf: string -> seq<Line> := _ => m.lines;
    var e, c := FeedEvent(m.orderId, Delivery(m, today, calculable)), FeedEvent(child.orderId, Delivery(child, today, calculable));
    EverydaySplitIsReCarried(s0, m, child, calculable, today, linesOf);
    SplitNetsOut(s0, [e], unpacked, today, [c], linesOf, {m.orderId, child.orderId});
    OneStep(s0, e);
    OneStep(Intake(Fed(s0, [e]), unpacked, today, false).0, c);
    OneEvent(s0, m.orderId, m.lines, e.e);
    OneEventSells(e, linesOf, ResolverOf(s0.variants));
  }

  /**
   The other order: every child arrives before the removal. Then a variant ends where the
   unsplit package would have left it exactly when it carries no units of it, or the shelf
   held them twice; otherwise the units on the shelf were floored away under the double
   sale and the re-add leaves too many.
   */
  lemma ChildrenFirstNetsOutIff(s0: Shop, before: Feed, unpacked: Mapped, today: int, linesOf: string -> seq<Line>,
                                packages: set<string>, i: nat)
    requires unpacked.dematerialized && unpacked.orderId in packages && NewTo(s0, packages) && i < |s0.variants|
    requires forall k :: 0 <= k < |before| ==> before[k].p in packages
    requires SteadyLines(before, linesOf) && ReCarried(s0, before, unpacked.orderId, today, [], linesOf)
    ensures var g, v := unpacked.orderId, s0.variants[i];
            var sale := SoldBy(EventsOf(before, g), linesOf(g), ResolverOf(s0.variants));
            var shelf := Intake(Fed(s0, before), unpacked, today, false).0.variants;
            && |shelf| == |s0.variants|
            && (shelf[i] == DecrementAll(s0.variants, sale)[i] <==> Units(sale, v.id) == 0 || v.quantity >= 2 * Units(sale, v.id))
  {
    SplitNetsOutIff(s0, before, unpacked, today, [], linesOf, packages, i);
    ReCarriedUnits(s0, before, unpacked.orderId, today, [], linesOf, s0.variants[i].id);
  }

  // ─── Removals that do not undo the sale ───────────────────────────────

  /** What a removal credits after a life: units per variant by what is re-added. */
  lemma RemovalCredits(s0: Shop, p: string, lines: seq<Line>, es: seq<PackageEvent>, unpacked: Mapped, today: int)
    requires p !in s0.orders && p !in s0.buffer && forall k :: 0 <= k < |es| ==> SameSale(es[k], p, lines)
    requires unpacked.dematerialized && unpacked.orderId == p
    ensures var s1, r := Life(s0, p, es), ResolverOf(s0.variants);
            && s1.variants == DecrementAll(s0.variants, SoldBy(es, lines, r))
            && Intake(s1, unpacked, today, false).0.variants
               == IncrementAll(s1.variants, ReAdded(StageAfter(es), RowDay(s1, p) == Some(today), lines, r))
  {
    var s1, r := Life(s0, p, es), ResolverOf(s0.variants);
    LifeSells(s0, p, lines, es);
    LifeCarries(s0, p, lines, es);
    ReversalReAdds(s1, p, StageAfter(es), lines, r, today);
    var back := ReAdded(StageAfter(es), RowDay(s1, p) == Some(today), lines, r);
    forall i | 0 <= i < |s1.variants|
      ensures Units(ReversalMoves(s1, p, today), s1.variants[i].id) == Units(back, s1.variants[i].id)
    {
    }
    SameUnitsSameStock(s1.variants, ReversalMoves(s1, p, today), back);
  }

  /** A package first seen as cancelled sells nothing, yet its removal the same day credits its units. */
  lemma CancelledGhostIsCredited(s0: Shop, m: Mapped, calculable: bool, unpacked: Mapped, today: int)
    requires NewToday(s0, m, today) && m.status == CANCELLED && unpacked.dematerialized && unpacked.orderId == m.orderId
    ensures var es, r := [Delivery(m, today, calculable)], ResolverOf(s0.variants);
            var s1 := Life(s0, m.orderId, es);
            && !Undoes(es, RowDay(s1, m.orderId) == Some(today), m.lines, r)
            && s1.variants == s0.variants
            && Intake(s1, unpacked, today, false).0.variants == IncrementAll(s0.variants, FirstInserts([], m.lines, r))
  {
    var e := Delivery(m, today, calculable);
    OneEvent(s0, m.orderId, m.lines, e);
    RemovalCredits(s0, m.orderId, m.lines, [e], unpacked, today);
    assert [e][..0] == [] && StageAfter([e]).Stored? && !ParkedOnItsDay([e]) && !WrittenOnItsDay([e]);
  }

  /** A package sold on its day and removed on another stays sold. */
  lemma MidnightGhostStaysSold(s0: Shop, m: Mapped, calculable: bool, unpacked: Mapped, today: int, later: int)
    requires NewToday(s0, m, today) && m.status != CANCELLED && unpacked.dematerialized && unpacked.orderId == m.orderId
    requires later != today
    ensures var es, r := [Delivery(m, today, calculable)], ResolverOf(s0.variants);
            var s1 := Life(s0, m.orderId, es);
            && !Undoes(es, RowDay(s1, m.orderId) == Some(later), m.lines, r)
            && s1.variants == DecrementAll(s0.variants, if calculable then FirstInserts([], m.lines, r) else ResolvedMoves(m.lines, r))
            && Intake(s1, unpacked, later, false).0.variants == s1.variants
  {
    var e := Delivery(m, today, calculable);
    OneEvent(s0, m.orderId, m.lines, e);
    RemovalCredits(s0, m.orderId, m.lines, [e], unpacked, later);
    SalesFollowStages([e]);
    assert [e][..0] == [];
  }

  /** Parked today and then delivered with its cost, a package sells twice and its removal re-adds only what the order row inserted. */
  lemma CostedWhileParkedSellsTwice(s0: Shop, m: Mapped, unpacked: Mapped, today: int)
    requires NewToday(s0, m, today) && m.status != CANCELLED && unpacked.dematerialized && unpacked.orderId == m.orderId
    ensures var es, r := [Delivery(m, today, false), Delivery(m, today, true)], ResolverOf(s0.variants);
            var s2 := Life(s0, m.orderId, es);
            && Coexist(s2, m.orderId)
            && !Undoes(es, RowDay(s2, m.orderId) == Some(today), m.lines, r)
            && s2.variants == DecrementAll(s0.variants, ResolvedMoves(m.lines, r) + FirstInserts([], m.lines, r))
            && Intake(s2, unpacked, today, false).0.variants == IncrementAll(s2.variants, FirstInserts([], m.lines, r))
  {
    var p, parks, costed := m.orderId, Delivery(m, today, false), Delivery(m, today, true);
    var es := [parks, costed];
    OneEvent(s0, p, m.lines, parks);
    RemovalCredits(s0, p, m.lines, es, unpacked, today);
    assert es[..1] == [parks] && [parks][..0] == [];
    assert StageAfter(es).Stored? && ParkedOnItsDay(es) && WrittenOnItsDay(es);
    assert RowDay(Life(s0, p, es), p) == Some(today);
  }
}
