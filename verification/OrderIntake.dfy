/**
 Order intake: the freshness watermark, the upsert that stores lines and moves stock,
 the live-performance buffer for cost-missing orders of the day, its promotion, and the
 reversal of a package that was split.
 */
module OrderIntake {
  import opened Options
  import opened Stock
  import opened OrderLines

  datatype OrderStatus = PROCESSING | SHIPPED | DELIVERED | RETURNED | CANCELLED

  /** A delivered package. `orderDay` is its business date. */
  datatype Mapped = Mapped(
    orderId: string,
    status: OrderStatus,
    lastModified: Option<int>,
    orderDay: int,
    dematerialized: bool,
    lines: seq<Line>)

  datatype Order = Order(
    status: OrderStatus,
    watermark: Option<int>,
    orderDay: int,
    items: seq<Item>,
    profitExcluded: bool,
    promotedFromBuffer: bool)

  datatype BufferStatus = BUFFER_PENDING | BUFFER_PROMOTING | BUFFER_FAILED

  datatype BufferRow = BufferRow(orderDay: int, mapped: Mapped, status: BufferStatus)

  datatype Shop = Shop(
    orders: map<string, Order>,
    buffer: map<string, BufferRow>,
    variants: Variants,
    totals: map<ProductId, nat>)

  datatype UpsertOpts = UpsertOpts(profitExcluded: bool, promotedFromBuffer: bool)

  datatype PersistReason = CALCULABLE | EXCLUDED_LATE_ARRIVAL | ALREADY_IN_ORDERS | CANCELLED_AUDIT

  datatype Outcome =
    | Persisted(reason: PersistReason)
    | Buffered
    | BufferedDeduped(refreshed: bool)
    | Dematerialized(deletedOrder: bool, deletedBufferEntries: nat)

  const PLAIN: UpsertOpts := UpsertOpts(false, false)

  function ResolverOf(vs: Variants): Resolver { b => Resolve(vs, b) }

  function Get<V>(m: map<string, V>, k: string): Option<V> { if k in m then Some(m[k]) else None }

  function Removed<V>(m: map<string, V>, k: string): map<string, V> { map j | j in m && j != k :: m[j] }

  // ─── Upsert of one order ──────────────────────────────────────────────

  /** The event is strictly older than the freshest one applied: the whole write is skipped. */
  predicate TooOld(o: Option<Order>, m: Mapped) {
    && o.Some? && o.value.watermark.Some? && m.lastModified.Some?
    && m.lastModified.value < o.value.watermark.value
  }

  function ItemsOf(o: Option<Order>): seq<Item> { if o.Some? then o.value.items else [] }

  /** The order row written with these items; on update the watermark never turns null again. */
  function WrittenWith(o: Option<Order>, m: Mapped, opts: UpsertOpts, items: seq<Item>): Order {
    match o
    case None => Order(m.status, m.lastModified, m.orderDay, items, opts.profitExcluded, opts.promotedFromBuffer)
    case Some(x) =>
      x.(status := m.status, watermark := if m.lastModified.Some? then m.lastModified else x.watermark, items := items)
  }

  function WrittenOrder(o: Option<Order>, m: Mapped, opts: UpsertOpts, r: Resolver): Order {
    WrittenWith(o, m, opts, UpsertLines(ItemsOf(o), m.lines, r))
  }

  function UpsertOrder(o: Option<Order>, m: Mapped, opts: UpsertOpts, r: Resolver): Option<Order> {
    if TooOld(o, m) then o else Some(WrittenOrder(o, m, opts, r))
  }

  /** Only a direct first insert of a live, non-cancelled sale of today moves stock. */
  predicate Sells(m: Mapped, today: int, opts: UpsertOpts) {
    m.orderDay == today && m.status != CANCELLED && !opts.promotedFromBuffer
  }

  function WithMoves(s: Shop, vs': Variants, ms: seq<Movement>): Shop {
    s.(variants := vs', totals := Recomputed(vs', s.totals, Touched(s.variants, ms)))
  }

  function Decrement(s: Shop, ms: seq<Movement>): Shop { WithMoves(s, DecrementAll(s.variants, ms), ms) }

  function Increment(s: Shop, ms: seq<Movement>): Shop { WithMoves(s, IncrementAll(s.variants, ms), ms) }

  function UpsertMoves(s: Shop, m: Mapped, today: int, opts: UpsertOpts): seq<Movement> {
    if Sells(m, today, opts) then FirstInserts(ItemsOf(Get(s.orders, m.orderId)), m.lines, ResolverOf(s.variants)) else []
  }

  function Upserted(s: Shop, m: Mapped, today: int, opts: UpsertOpts): Shop {
    if TooOld(Get(s.orders, m.orderId), m) then s
    else
      Decrement(s, UpsertMoves(s, m, today, opts)).(
        orders := s.orders[m.orderId := WrittenOrder(Get(s.orders, m.orderId), m, opts, ResolverOf(s.variants))])
  }

  // ─── Routing ──────────────────────────────────────────────────────────

  /** Every delivered line whose barcode resolves, as a stock movement. */
  function ResolvedMoves(lines: seq<Line>, r: Resolver): seq<Movement> {
    if lines == [] then []
    else
      var line := lines[|lines| - 1];
      ResolvedMoves(lines[..|lines| - 1], r)
      + if r(line.barcode).Some? then [Movement(r(line.barcode).value, line.quantity)] else []
  }

  /** The stored items that carry a variant, as stock movements. */
  function ItemMoves(items: seq<Item>): seq<Movement> {
    if items == [] then []
    else
      var item := items[|items| - 1];
      ItemMoves(items[..|items| - 1]) + if item.variant.Some? then [Movement(item.variant.value, item.quantity)] else []
  }

  /** What the removal of a split ghost re-adds: from the order row if there is one, else from the buffer row. */
  function ReversalMoves(s: Shop, p: string, today: int): seq<Movement> {
    if p in s.orders then
      if s.orders[p].orderDay == today then ItemMoves(s.orders[p].items) else []
    else if p in s.buffer && s.buffer[p].orderDay == today then
      ResolvedMoves(s.buffer[p].mapped.lines, ResolverOf(s.variants))
    else []
  }

  predicate Refreshes(row: BufferRow, m: Mapped) {
    && row.status == BUFFER_PENDING && m.lastModified.Some?
    && (row.mapped.lastModified.None? || m.lastModified.value > row.mapped.lastModified.value)
  }

  function Intake(s: Shop, m: Mapped, today: int, calculable: bool): (Shop, Outcome) {
    var p := m.orderId;
    if m.dematerialized then
      (Increment(s, ReversalMoves(s, p, today)).(orders := Removed(s.orders, p), buffer := Removed(s.buffer, p)),
       Dematerialized(p in s.orders, if p in s.buffer then 1 else 0))
    else if m.status == CANCELLED then
      (Upserted(s.(buffer := Removed(s.buffer, p)), m, today, PLAIN), Persisted(CANCELLED_AUDIT))
    else if calculable then (Upserted(s, m, today, PLAIN), Persisted(CALCULABLE))
    else if m.orderDay < today then
      (Upserted(s, m, today, UpsertOpts(true, false)), Persisted(EXCLUDED_LATE_ARRIVAL))
    else if p in s.orders then (Upserted(s, m, today, PLAIN), Persisted(ALREADY_IN_ORDERS))
    else if p in s.buffer then
      if Refreshes(s.buffer[p], m) then (s.(buffer := s.buffer[p := s.buffer[p].(mapped := m)]), BufferedDeduped(true))
      else (s, BufferedDeduped(false))
    else
      var ms := if m.orderDay == today then ResolvedMoves(m.lines, ResolverOf(s.variants)) else [];
      (Decrement(s, ms).(buffer := s.buffer[p := BufferRow(m.orderDay, m, BUFFER_PENDING)]), Buffered)
  }

  /** Graduation of a buffer row: order write and buffer delete in one transaction. */
  function Promoted(s: Shop, p: string, today: int, excluded: bool): Shop {
    if p !in s.buffer then s
    else
      var s' := Upserted(s, s.buffer[p].mapped, today, UpsertOpts(excluded, true));
      s'.(buffer := Removed(s'.buffer, p))
  }

  // ─── The store that the handlers update ───────────────────────────────

  lemma {:induction false} SameResolver(items: seq<Item>, lines: seq<Line>, a: Resolver, b: Resolver)
    requires forall barcode :: a(barcode) == b(barcode)
    ensures UpsertLines(items, lines, a) == UpsertLines(items, lines, b)
    ensures FirstInserts(items, lines, a) == FirstInserts(items, lines, b)
    ensures ResolvedMoves(lines, a) == ResolvedMoves(lines, b)
  {
    if lines != [] { SameResolver(items, lines[..|lines| - 1], a, b); }
  }

  lemma TouchedBySteps(vs: Variants, ms: seq<Movement>, id: VariantId, n: nat)
    ensures Touched(vs, ms + [Movement(id, n)]) == Touched(vs, ms) + set i | 0 <= i < |vs| && vs[i].id == id :: vs[i].product
  {
    var next := ms + [Movement(id, n)];
    assert next[|ms|] == Movement(id, n);
    forall i, k | 0 <= i < |vs| && 0 <= k < |next| && next[k].variant == vs[i].id
      ensures vs[i].product in Touched(vs, ms) + set i | 0 <= i < |vs| && vs[i].id == id :: vs[i].product
    {
      if k < |ms| { assert ms[k].variant == vs[i].id; }
    }
    forall i, k | 0 <= i < |vs| && 0 <= k < |ms| && ms[k].variant == vs[i].id ensures vs[i].product in Touched(vs, next) {
      assert next[k].variant == vs[i].id;
    }
  }

  lemma TouchedExtends(vs: Variants, ms: seq<Movement>, v: Variant, n: nat)
    requires DistinctIds(vs) && v in vs
    ensures Touched(vs, ms + [Movement(v.id, n)]) == Touched(vs, ms) + {v.product}
  {
    TouchedBySteps(vs, ms, v.id, n);
    assert (set i | 0 <= i < |vs| && vs[i].id == v.id :: vs[i].product) == {v.product};
  }

  /** The products that own the variant rows with this id. */
  function OwnersOf(vs: Variants, id: VariantId): set<ProductId> { set v | v in vs && v.id == id :: v.product }

  lemma OwnersIgnoreStock(a: Variants, b: Variants, id: VariantId)
    requires SameCatalogue(a, b)
    ensures OwnersOf(b, id) == set i | 0 <= i < |a| && a[i].id == id :: a[i].product
  {
    forall i | 0 <= i < |a| ensures b[i] in b && b[i].id == a[i].id && b[i].product == a[i].product {
      assert a[i].(quantity := 0) == b[i].(quantity := 0);
    }
  }

  lemma TouchedByReAdd(vs: Variants, ms: seq<Movement>, id: VariantId, n: nat)
    ensures Touched(vs, ms + [Movement(id, n)]) == Touched(vs, ms) + OwnersOf(IncrementAll(vs, ms), id)
  {
    SameCatalogueAfterMoves(vs, ms);
    OwnersIgnoreStock(vs, IncrementAll(vs, ms), id);
    TouchedBySteps(vs, ms, id, n);
  }

  /** A variant found by barcode in the moved rows is the one found before any movement. */
  lemma FoundDespiteMoves(vs: Variants, ms: seq<Movement>, inc: bool, barcode: string)
    ensures var now := if inc then IncrementAll(vs, ms) else DecrementAll(vs, ms);
            && Resolve(now, barcode) == Resolve(vs, barcode)
            && (Lookup(now, barcode).Some? ==>
                  Lookup(vs, barcode).Some? && Lookup(now, barcode).value.product == Lookup(vs, barcode).value.product)
  {
    SameCatalogueAfterMoves(vs, ms);
    LookupIgnoresStock(vs, if inc then IncrementAll(vs, ms) else DecrementAll(vs, ms), barcode);
  }

  class OrderStore {
    var orders: map<string, Order>
    var buffer: map<string, BufferRow>
    const stock: StockTable

    constructor (stock: StockTable)
      ensures this.stock == stock && orders == map[] && buffer == map[]
    {
      this.stock := stock;
      orders := map[];
      buffer := map[];
    }

    ghost function Snapshot(): Shop
      reads this, stock
    {
      Shop(orders, buffer, stock.variants, stock.totals)
    }

    /** The line loop of an upsert: find or insert each line, and sell the first inserts when asked to. */
    method StoreLines(before: seq<Item>, lines: seq<Line>, sells: bool) returns (items: seq<Item>, affected: set<ProductId>)
      requires DistinctIds(stock.variants)
      modifies stock`variants
      ensures var r := ResolverOf(old(stock.variants));
              var ms := if sells then FirstInserts(before, lines, r) else [];
              && items == UpsertLines(before, lines, r)
              && stock.variants == DecrementAll(old(stock.variants), ms) && affected == Touched(old(stock.variants), ms)
    {
      ghost var vs0 := stock.variants;
      ghost var r := ResolverOf(vs0);
      items, affected := before, {};
      ghost var ms: seq<Movement> := [];
      assert lines[..0] == [];
      for k := 0 to |lines|
        invariant items == UpsertLines(before, lines[..k], r)
        invariant ms == if sells then FirstInserts(before, lines[..k], r) else []
        invariant stock.variants == DecrementAll(vs0, ms) && affected == Touched(vs0, ms)
      {
        var line := lines[k];
        UpsertLinesStep(before, lines, k, r);
        FoundDespiteMoves(vs0, ms, false, line.barcode);
        var variant := Lookup(stock.variants, line.barcode);
        var key := if variant.Some? then Some(variant.value.id) else None;
        var existing := FirstMatch(items, line, key);
        if existing.Some? {
          items := items[existing.value := Refreshed(items[existing.value], line)];
        } else {
          items := items + [NewItem(line, key)];
          if variant.Some? && sells {
            stock.DecrementVariantStock(variant.value.id, line.quantity);
            TouchedExtends(vs0, ms, Lookup(vs0, line.barcode).value, line.quantity);
            affected := affected + {variant.value.product};
            OneMoreMove(vs0, ms, Movement(variant.value.id, line.quantity));
            ms := ms + [Movement(variant.value.id, line.quantity)];
          }
        }
      }
      assert lines[..|lines|] == lines;
    }

    method UpsertOrderWithSnapshot(m: Mapped, today: int, opts: UpsertOpts)
      requires DistinctIds(stock.variants)
      modifies this`orders, stock
      ensures Snapshot() == Upserted(old(Snapshot()), m, today, opts)
    {
      var stored := Get(orders, m.orderId);
      if TooOld(stored, m) { return; }
      var items, affected := StoreLines(ItemsOf(stored), m.lines, Sells(m, today, opts));
      orders := orders[m.orderId := WrittenWith(stored, m, opts, items)];
      stock.RecomputeProductsTotalStock(affected);
    }

    /** Move stock for every resolved line, down at intake or back up for a buffered ghost. */
    method MoveLines(lines: seq<Line>, up: bool) returns (affected: set<ProductId>)
      requires DistinctIds(stock.variants)
      modifies stock`variants
      ensures var ms := ResolvedMoves(lines, ResolverOf(old(stock.variants)));
              && stock.variants == (if up then IncrementAll(old(stock.variants), ms) else DecrementAll(old(stock.variants), ms))
              && affected == Touched(old(stock.variants), ms)
    {
      ghost var vs0 := stock.variants;
      ghost var r := ResolverOf(vs0);
      affected := {};
      ghost var ms: seq<Movement> := [];
      assert lines[..0] == [];
      for k := 0 to |lines|
        invariant ms == ResolvedMoves(lines[..k], r)
        invariant stock.variants == (if up then IncrementAll(vs0, ms) else DecrementAll(vs0, ms))
        invariant affected == Touched(vs0, ms)
      {
        assert lines[..k + 1][..k] == lines[..k];
        FoundDespiteMoves(vs0, ms, up, lines[k].barcode);
        var variant := Lookup(stock.variants, lines[k].barcode);
        if variant.Some? {
          TouchedExtends(vs0, ms, Lookup(vs0, lines[k].barcode).value, lines[k].quantity);
          if up {
            stock.IncrementVariantStock(variant.value.id, lines[k].quantity);
          } else {
            stock.DecrementVariantStock(variant.value.id, lines[k].quantity);
          }
          affected := affected + {variant.value.product};
          OneMoreMove(vs0, ms, Movement(variant.value.id, lines[k].quantity));
          ms := ms + [Movement(variant.value.id, lines[k].quantity)];
        }
      }
      assert lines[..|lines|] == lines;
    }

    /** Re-add the stored items of a split ghost, following each item's variant to its product. */
    method ReAddItems(items: seq<Item>) returns (affected: set<ProductId>)
      requires DistinctIds(stock.variants)
      modifies stock`variants
      ensures stock.variants == IncrementAll(old(stock.variants), ItemMoves(items))
      ensures affected == Touched(old(stock.variants), ItemMoves(items))
    {
      ghost var vs0 := stock.variants;
      affected := {};
      ghost var ms: seq<Movement> := [];
      assert items[..0] == [];
      for k := 0 to |items|
        invariant ms == ItemMoves(items[..k])
        invariant stock.variants == IncrementAll(vs0, ms) && affected == Touched(vs0, ms)
      {
        assert items[..k + 1][..k] == items[..k];
        if items[k].variant.Some? {
          var id := items[k].variant.value;
          TouchedByReAdd(vs0, ms, id, items[k].quantity);
          affected := affected + OwnersOf(stock.variants, id);
          stock.IncrementVariantStock(id, items[k].quantity);
          OneMoreMove(vs0, ms, Movement(id, items[k].quantity));
          ms := ms + [Movement(id, items[k].quantity)];
        }
      }
      assert items[..|items|] == items;
    }

    method IntakeOrder(m: Mapped, today: int, calculable: bool) returns (outcome: Outcome)
      requires DistinctIds(stock.variants)
      modifies this, stock
      ensures (Snapshot(), outcome) == Intake(old(Snapshot()), m, today, calculable)
    {
      var p := m.orderId;
      if m.dematerialized {
        var affected: set<ProductId> := {};
        ghost var vs0 := stock.variants;
        ghost var ms := ReversalMoves(Snapshot(), p, today);
        if p in orders {
          if orders[p].orderDay == today { affected := ReAddItems(orders[p].items); }
        } else if p in buffer && buffer[p].orderDay == today {
          affected := MoveLines(buffer[p].mapped.lines, true);
        }
        assert stock.variants == IncrementAll(vs0, ms) && affected == Touched(vs0, ms);
        stock.RecomputeProductsTotalStock(affected);
        outcome := Dematerialized(p in orders, if p in buffer then 1 else 0);
        orders := Removed(orders, p);
        buffer := Removed(buffer, p);
      } else if m.status == CANCELLED {
        buffer := Removed(buffer, p);
        UpsertOrderWithSnapshot(m, today, PLAIN);
        outcome := Persisted(CANCELLED_AUDIT);
      } else if calculable {
        UpsertOrderWithSnapshot(m, today, PLAIN);
        outcome := Persisted(CALCULABLE);
      } else if m.orderDay < today {
        UpsertOrderWithSnapshot(m, today, UpsertOpts(true, false));
        outcome := Persisted(EXCLUDED_LATE_ARRIVAL);
      } else if p in orders {
        UpsertOrderWithSnapshot(m, today, PLAIN);
        outcome := Persisted(ALREADY_IN_ORDERS);
      } else if p in buffer {
        outcome := BufferedDeduped(Refreshes(buffer[p], m));
        if Refreshes(buffer[p], m) { buffer := buffer[p := buffer[p].(mapped := m)]; }
      } else {
        var affected: set<ProductId> := {};
        buffer := buffer[p := BufferRow(m.orderDay, m, BUFFER_PENDING)];
        if m.orderDay == today { affected := MoveLines(m.lines, false); }
        stock.RecomputeProductsTotalStock(affected);
        outcome := Buffered;
      }
    }

    method PromoteBuffered(p: string, today: int, excluded: bool)
      requires DistinctIds(stock.variants)
      modifies this, stock
      ensures Snapshot() == Promoted(old(Snapshot()), p, today, excluded)
    {
      if p !in buffer { return; }
      UpsertOrderWithSnapshot(buffer[p].mapped, today, UpsertOpts(excluded, true));
      buffer := Removed(buffer, p);
    }
  }
}
