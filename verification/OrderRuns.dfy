/**
 Properties of whole sequences of deliveries: which event an order ends up with, and how
 often its units leave the shelf.
 */
module OrderRuns {
  import opened Options
  import opened Stock
  import opened OrderLines
  import opened OrderIntake

  // ─── Watermark ────────────────────────────────────────────────────────

  /** A finite sequence of upserts of one order, in delivery order. */
  function UpsertAll(o: Option<Order>, ms: seq<Mapped>, opts: UpsertOpts, r: Resolver): Option<Order> {
    if ms == [] then o else UpsertOrder(UpsertAll(o, ms[..|ms| - 1], opts, r), ms[|ms| - 1], opts, r)
  }

  /** The largest last-modified date carried by any of the events. */
  function MaxDate(ms: seq<Mapped>): Option<int> {
    if ms == [] then None
    else
      var rest, d := MaxDate(ms[..|ms| - 1]), ms[|ms| - 1].lastModified;
      if rest.None? then d else if d.None? || d.value < rest.value then rest else d
  }

  /** The last event that was not older than everything delivered before it; undated events never are. */
  function Winner(ms: seq<Mapped>): Option<Mapped> {
    if ms == [] then None
    else
      var pre, last := ms[..|ms| - 1], ms[|ms| - 1];
      if last.lastModified.Some? && MaxDate(pre).Some? && last.lastModified.value < MaxDate(pre).value then Winner(pre)
      else Some(last)
  }

  /** For every sequence: the watermark is the largest date seen, the status that of the winner. */
  lemma {:induction false} WatermarkAndWinner(ms: seq<Mapped>, opts: UpsertOpts, r: Resolver)
    requires ms != []
    ensures var o := UpsertAll(None, ms, opts, r);
            o.Some? && o.value.watermark == MaxDate(ms) && Winner(ms).Some? && o.value.status == Winner(ms).value.status
  {
    var pre := ms[..|ms| - 1];
    if pre != [] {
      WatermarkAndWinner(pre, opts, r);
    } else {
      assert UpsertAll(None, pre, opts, r) == None;
    }
  }

  predicate AllDated(ms: seq<Mapped>) { forall i :: 0 <= i < |ms| ==> ms[i].lastModified.Some? }

  /** Event `k` carries the largest date, and every later event a smaller one. */
  predicate LastFreshest(ms: seq<Mapped>, k: nat) {
    && k < |ms| && AllDated(ms)
    && (forall i :: 0 <= i < |ms| ==> ms[i].lastModified.value <= ms[k].lastModified.value)
    && (forall i :: k < i < |ms| ==> ms[i].lastModified.value < ms[k].lastModified.value)
  }

  lemma {:induction false} LastFreshestWins(ms: seq<Mapped>, k: nat)
    requires LastFreshest(ms, k)
    ensures MaxDate(ms) == ms[k].lastModified && Winner(ms) == Some(ms[k])
  {
    var pre := ms[..|ms| - 1];
    if k < |ms| - 1 {
      LastFreshestWins(pre, k);
    } else {
      MaxDateBounded(pre, ms[k].lastModified.value);
    }
  }

  lemma {:induction false} MaxDateBounded(ms: seq<Mapped>, bound: int)
    requires forall i :: 0 <= i < |ms| && ms[i].lastModified.Some? ==> ms[i].lastModified.value <= bound
    ensures MaxDate(ms).Some? ==> MaxDate(ms).value <= bound
  {
    if ms != [] { MaxDateBounded(ms[..|ms| - 1], bound); }
  }

  /**
   Confluence: with every event dated, the status is that of the last-delivered event
   with the largest date; with distinct dates every delivery order of the same events
   ends with the same status and the same watermark.
   */
  lemma StatusOfFreshestEvent(ms: seq<Mapped>, k: nat, opts: UpsertOpts, r: Resolver)
    requires LastFreshest(ms, k)
    ensures var o := UpsertAll(None, ms, opts, r);
            o.Some? && o.value.watermark == ms[k].lastModified && o.value.status == ms[k].status
  {
    WatermarkAndWinner(ms, opts, r);
    LastFreshestWins(ms, k);
  }

  predicate DistinctDates(ms: seq<Mapped>) {
    AllDated(ms) && forall i, j :: 0 <= i < j < |ms| ==> ms[i].lastModified != ms[j].lastModified
  }

  lemma {:induction false} FreshestExists(ms: seq<Mapped>) returns (k: nat)
    requires ms != [] && AllDated(ms)
    ensures LastFreshest(ms, k)
  {
    k := |ms| - 1;
    if |ms| > 1 {
      var pre := ms[..|ms| - 1];
      var j := FreshestExists(pre);
      if ms[|ms| - 1].lastModified.value < ms[j].lastModified.value { k := j; }
      forall i | 0 <= i < |ms| ensures ms[i].lastModified.value <= ms[k].lastModified.value {
        if i < |pre| { assert pre[i] == ms[i]; }
      }
    }
  }

  lemma EveryDeliveryOrderAgrees(ms: seq<Mapped>, ns: seq<Mapped>, opts: UpsertOpts, r: Resolver)
    requires ms != [] && DistinctDates(ms) && DistinctDates(ns) && multiset(ms) == multiset(ns)
    ensures var a, b := UpsertAll(None, ms, opts, r), UpsertAll(None, ns, opts, r);
            a.Some? && b.Some? && a.value.status == b.value.status && a.value.watermark == b.value.watermark
  {
    assert ns != [] by { assert ms[0] in multiset(ns); }
    var k := FreshestExists(ms);
    var l := FreshestExists(ns);
    StatusOfFreshestEvent(ms, k, opts, r);
    StatusOfFreshestEvent(ns, l, opts, r);
    assert ms[k] in multiset(ns) && ns[l] in multiset(ms);
    var l' :| 0 <= l' < |ns| && ns[l'] == ms[k];
    var k' :| 0 <= k' < |ms| && ms[k'] == ns[l];
    assert ms[k].lastModified == ns[l].lastModified;
    assert l' == l;
  }

  /** Undated events (legacy snapshots) break confluence: they pass the guard without advancing the watermark. */
  lemma UndatedEventBreaksConfluence(opts: UpsertOpts, r: Resolver)
    ensures var dated := Mapped("p", DELIVERED, Some(5), 0, false, []);
            var undated := Mapped("p", PROCESSING, None, 0, false, []);
            && UpsertAll(None, [dated, undated], opts, r).value.status == PROCESSING
            && UpsertAll(None, [undated, dated], opts, r).value.status == DELIVERED
            && UpsertAll(None, [dated, undated], opts, r).value.watermark == Some(5)
  {
    var dated := Mapped("p", DELIVERED, Some(5), 0, false, []);
    var undated := Mapped("p", PROCESSING, None, 0, false, []);
    assert [dated, undated][..1] == [dated] && [undated, dated][..1] == [undated];
    assert [dated][..0] == [] && [undated][..0] == [];
    assert MaxDate([undated]) == None && MaxDate([dated]) == Some(5);
    assert Winner([undated, dated]) == Some(dated) && Winner([dated, undated]) == Some(undated);
    WatermarkAndWinner([dated, undated], opts, r);
    WatermarkAndWinner([undated, dated], opts, r);
  }

  /** The events that can end up on the order: undated ones pass the guard anywhere, dated ones need the largest date. */
  predicate Decisive(m: Mapped, latest: Option<int>) { m.lastModified.None? || m.lastModified == latest }

  predicate DecisiveAgree(ms: seq<Mapped>) {
    forall i, j :: 0 <= i < |ms| && 0 <= j < |ms| && Decisive(ms[i], MaxDate(ms)) && Decisive(ms[j], MaxDate(ms)) ==>
      ms[i].status == ms[j].status
  }

  lemma {:induction false} MaxDateFacts(ms: seq<Mapped>)
    ensures MaxDate(ms).Some? ==> exists i :: 0 <= i < |ms| && ms[i].lastModified == MaxDate(ms)
    ensures forall i :: 0 <= i < |ms| && ms[i].lastModified.Some? ==>
              MaxDate(ms).Some? && ms[i].lastModified.value <= MaxDate(ms).value
  {
    if ms != [] {
      var pre := ms[..|ms| - 1];
      MaxDateFacts(pre);
      if i :| 0 <= i < |pre| && pre[i].lastModified == MaxDate(pre) { assert ms[i].lastModified == MaxDate(pre); }
    }
  }

  /** The largest date does not depend on the delivery order. */
  lemma SameMaxDate(ms: seq<Mapped>, ns: seq<Mapped>)
    requires multiset(ms) == multiset(ns)
    ensures MaxDate(ms) == MaxDate(ns)
  {
    MaxDateFacts(ms);
    MaxDateFacts(ns);
    if i :| 0 <= i < |ms| && MaxDate(ms).Some? && ms[i].lastModified == MaxDate(ms) { assert ms[i] in multiset(ns); }
    if i :| 0 <= i < |ns| && MaxDate(ns).Some? && ns[i].lastModified == MaxDate(ns) { assert ns[i] in multiset(ms); }
  }

  lemma {:induction false} WinnerIsDecisive(ms: seq<Mapped>)
    requires ms != []
    ensures Winner(ms).Some? && Winner(ms).value in ms && Decisive(Winner(ms).value, MaxDate(ms))
  {
    var pre := ms[..|ms| - 1];
    if pre != [] { WinnerIsDecisive(pre); }
  }

  /** A permutation that delivers one chosen event last, which then wins if it is decisive. */
  lemma PutLast(ms: seq<Mapped>, i: nat) returns (ns: seq<Mapped>)
    requires i < |ms| && Decisive(ms[i], MaxDate(ms))
    ensures multiset(ns) == multiset(ms) && ns != [] && Winner(ns) == Some(ms[i])
  {
    ns := ms[..i] + ms[i + 1..] + [ms[i]];
    assert ms == ms[..i] + [ms[i]] + ms[i + 1..];
    SameMaxDate(ms, ns);
    MaxDateFacts(ns[..|ns| - 1]);
  }

  /** The upserts store the order with this status. */
  predicate EndsAs(ms: seq<Mapped>, opts: UpsertOpts, r: Resolver, status: OrderStatus) {
    UpsertAll(None, ms, opts, r).Some? && UpsertAll(None, ms, opts, r).value.status == status
  }

  /** Every delivery order of these events stores the order with this status. */
  ghost predicate AlwaysEndsAs(ms: seq<Mapped>, opts: UpsertOpts, r: Resolver, status: OrderStatus) {
    forall ns :: multiset(ns) == multiset(ms) ==> EndsAs(ns, opts, r, status)
  }

  /**
   When delivery order matters: for every non-empty collection of events, dated or not,
   all delivery orders end with one status exactly when all events that are undated or
   carry the largest date have the same status. The watermark never depends on the order.
   */
  lemma DeliveryOrderIrrelevantIff(ms: seq<Mapped>, opts: UpsertOpts, r: Resolver)
    requires ms != []
    ensures (exists status :: AlwaysEndsAs(ms, opts, r, status)) <==> DecisiveAgree(ms)
    ensures forall ns :: multiset(ns) == multiset(ms) ==>
              UpsertAll(None, ns, opts, r).Some? && UpsertAll(None, ns, opts, r).value.watermark == MaxDate(ms)
  {
    forall ns | multiset(ns) == multiset(ms)
      ensures ns != [] && Winner(ns).Some? && EndsAs(ns, opts, r, Winner(ns).value.status)
      ensures Winner(ns).value in ms && Decisive(Winner(ns).value, MaxDate(ms))
      ensures UpsertAll(None, ns, opts, r).Some? && UpsertAll(None, ns, opts, r).value.watermark == MaxDate(ms)
    {
      assert ms[0] in multiset(ns);
      SameMaxDate(ms, ns);
      WinnerIsDecisive(ns);
      WatermarkAndWinner(ns, opts, r);
      assert Winner(ns).value in multiset(ms);
    }
    if DecisiveAgree(ms) {
      assert AlwaysEndsAs(ms, opts, r, Winner(ms).value.status);
    }
    if status :| AlwaysEndsAs(ms, opts, r, status) {
      forall i | 0 <= i < |ms| && Decisive(ms[i], MaxDate(ms))
        ensures ms[i].status == status
      {
        var ns := PutLast(ms, i);
        assert EndsAs(ns, opts, r, status) && EndsAs(ns, opts, r, Winner(ns).value.status);
      }
    }
  }

  /** A sequence of upserts against the whole shop. */
  function UpsertedAll(s: Shop, ms: seq<Mapped>, today: int, opts: UpsertOpts): Shop {
    if ms == [] then s else Upserted(UpsertedAll(s, ms[..|ms| - 1], today, opts), ms[|ms| - 1], today, opts)
  }

  /** What the sequence does to the order row of one package is the run of upserts above, whatever stock it moves. */
  lemma {:induction false} ShopRunsAreOrderRuns(s: Shop, p: string, ms: seq<Mapped>, today: int, opts: UpsertOpts)
    requires forall i :: 0 <= i < |ms| ==> ms[i].orderId == p
    ensures var s' := UpsertedAll(s, ms, today, opts);
            && Get(s'.orders, p) == UpsertAll(Get(s.orders, p), ms, opts, ResolverOf(s.variants))
            && SameCatalogue(s.variants, s'.variants)
  {
    if ms != [] {
      var pre, m := ms[..|ms| - 1], ms[|ms| - 1];
      ShopRunsAreOrderRuns(s, p, pre, today, opts);
      UpsertIsAnOrderUpsert(UpsertedAll(s, pre, today, opts), s, m, today, opts);
    }
  }

  lemma UpsertIsAnOrderUpsert(s: Shop, s0: Shop, m: Mapped, today: int, opts: UpsertOpts)
    requires SameCatalogue(s0.variants, s.variants)
    ensures var s' := Upserted(s, m, today, opts);
            && Get(s'.orders, m.orderId) == UpsertOrder(Get(s.orders, m.orderId), m, opts, ResolverOf(s0.variants))
            && SameCatalogue(s0.variants, s'.variants)
  {
    SameResolverInCatalogue(s0.variants, s.variants);
    SameResolver(ItemsOf(Get(s.orders, m.orderId)), m.lines, ResolverOf(s.variants), ResolverOf(s0.variants));
    SameCatalogueAfterMoves(s.variants, UpsertMoves(s, m, today, opts));
    SameCatalogueTrans(s0.variants, s.variants, DecrementAll(s.variants, UpsertMoves(s, m, today, opts)));
  }

  lemma SameResolverInCatalogue(a: Variants, b: Variants)
    requires SameCatalogue(a, b)
    ensures forall barcode :: ResolverOf(b)(barcode) == ResolverOf(a)(barcode)
  {
    forall barcode ensures ResolverOf(b)(barcode) == ResolverOf(a)(barcode) {
      LookupIgnoresStock(a, b, barcode);
    }
  }

  lemma SameCatalogueTrans(a: Variants, b: Variants, c: Variants)
    requires SameCatalogue(a, b) && SameCatalogue(b, c)
    ensures SameCatalogue(a, c)
  {
    forall i | 0 <= i < |a| ensures a[i].(quantity := 0) == c[i].(quantity := 0) {
      assert a[i].(quantity := 0) == b[i].(quantity := 0);
    }
  }

  // ─── Product totals ───────────────────────────────────────────────────

  predicate ShopOk(s: Shop) { DistinctIds(s.variants) && TotalsOk(s.variants, s.totals) }

  lemma MovesKeepShop(s: Shop, ms: seq<Movement>)
    requires ShopOk(s)
    ensures ShopOk(Decrement(s, ms)) && ShopOk(Increment(s, ms))
  {
    SameCatalogueAfterMoves(s.variants, ms);
    RecomputeRestoresTotals(s.variants, DecrementAll(s.variants, ms), s.totals, ms);
    RecomputeRestoresTotals(s.variants, IncrementAll(s.variants, ms), s.totals, ms);
  }

  lemma UpsertKeepsShop(s: Shop, m: Mapped, today: int, opts: UpsertOpts)
    requires ShopOk(s)
    ensures ShopOk(Upserted(s, m, today, opts))
  {
    MovesKeepShop(s, UpsertMoves(s, m, today, opts));
  }

  lemma PromotionKeepsTotals(s: Shop, p: string, today: int, excluded: bool)
    requires ShopOk(s)
    ensures ShopOk(Promoted(s, p, today, excluded))
  {
    if p in s.buffer { UpsertKeepsShop(s, s.buffer[p].mapped, today, UpsertOpts(excluded, true)); }
  }

  /** Every intake, on every route, leaves each product's total equal to the sum of its variants. */
  lemma IntakeKeepsTotals(s: Shop, m: Mapped, today: int, calculable: bool)
    requires ShopOk(s)
    ensures ShopOk(Intake(s, m, today, calculable).0)
  {
    if m.dematerialized {
      MovesKeepShop(s, ReversalMoves(s, m.orderId, today));
    } else if m.status == CANCELLED {
      UpsertKeepsShop(s.(buffer := Removed(s.buffer, m.orderId)), m, today, PLAIN);
    } else if calculable || m.orderDay < today || m.orderId in s.orders {
      UpsertKeepsShop(s, m, today, PLAIN);
      UpsertKeepsShop(s, m, today, UpsertOpts(true, false));
    } else if m.orderId !in s.buffer {
      MovesKeepShop(s, if m.orderDay == today then ResolvedMoves(m.lines, ResolverOf(s.variants)) else []);
    }
  }

  // ─── Sold exactly once ────────────────────────────────────────────────

  datatype PackageEvent =
    | Delivery(m: Mapped, today: int, calculable: bool)
    | Promotion(today: int, excluded: bool)

  function Happen(s: Shop, p: string, e: PackageEvent): Shop {
    match e
    case Delivery(m, today, calculable) => Intake(s, m, today, calculable).0
    case Promotion(today, excluded) => Promoted(s, p, today, excluded)
  }

  function Life(s: Shop, p: string, es: seq<PackageEvent>): Shop {
    if es == [] then s else Happen(Life(s, p, es[..|es| - 1]), p, es[|es| - 1])
  }

  /** A delivery of this package with exactly these lines. */
  predicate SameSale(e: PackageEvent, p: string, lines: seq<Line>) {
    e.Delivery? ==> e.m.orderId == p && e.m.lines == lines && !e.m.dematerialized
  }

  // ─── What a package's life sells ──────────────────────────────────────

  /** How far a package has come, read off its events alone. */
  datatype Stage = Unseen | Parked | Stored

  /** A live delivery that is neither costed nor past its day: it waits in the buffer, if no order row exists. */
  predicate Parks(e: PackageEvent) {
    e.Delivery? && e.m.status != CANCELLED && !e.calculable && e.m.orderDay >= e.today
  }

  /** A costed, live delivery on the business day: it sells what it inserts. */
  predicate SellsDirectly(e: PackageEvent) {
    e.Delivery? && e.m.status != CANCELLED && e.calculable && e.m.orderDay == e.today
  }

  function NextStage(stage: Stage, e: PackageEvent): Stage {
    if stage.Stored? then Stored
    else if e.Promotion? then (if stage.Parked? then Stored else Unseen)
    else if Parks(e) then Parked
    else Stored
  }

  function StageAfter(es: seq<PackageEvent>): Stage {
    if es == [] then Unseen else NextStage(StageAfter(es[..|es| - 1]), es[|es| - 1])
  }

  /** The event that parked the package did so on its business day. */
  predicate ParkedOnItsDay(es: seq<PackageEvent>) {
    es != [] &&
    var pre, e := es[..|es| - 1], es[|es| - 1];
    ParkedOnItsDay(pre) || (StageAfter(pre).Unseen? && Parks(e) && e.m.orderDay == e.today)
  }

  /** The event that first wrote the order row was a costed, live delivery on the business day. */
  predicate WrittenOnItsDay(es: seq<PackageEvent>) {
    es != [] &&
    var pre, e := es[..|es| - 1], es[|es| - 1];
    WrittenOnItsDay(pre) || (!StageAfter(pre).Stored? && SellsDirectly(e))
  }

  /** What the life takes off the shelf: the buffer sells every resolved line, a direct write its first inserts. */
  function SoldBy(es: seq<PackageEvent>, lines: seq<Line>, r: Resolver): seq<Movement> {
    (if ParkedOnItsDay(es) then ResolvedMoves(lines, r) else [])
    + (if WrittenOnItsDay(es) then FirstInserts([], lines, r) else [])
  }

  predicate BufferHolds(s: Shop, p: string, lines: seq<Line>) {
    p in s.buffer ==> s.buffer[p].mapped.lines == lines && s.buffer[p].mapped.orderId == p
  }

  /** Where the package stands in the shop at each stage. */
  predicate StandsAt(s: Shop, p: string, stage: Stage, lines: seq<Line>, r: Resolver) {
    && BufferHolds(s, p, lines)
    && (p in s.orders <==> stage.Stored?)
    && (stage.Unseen? ==> p !in s.buffer) && (stage.Parked? ==> p in s.buffer)
    && (p in s.orders ==> AllCovered(s.orders[p].items, lines, r))
  }

  lemma NoMovesNoChange(s: Shop)
    ensures Decrement(s, []) == s.(totals := Recomputed(s.variants, s.totals, {}))
    ensures Recomputed(s.variants, s.totals, {}) == s.totals
  {
    assert Touched(s.variants, []) == {};
  }

  /** The first write of the order row stores every line and sells the first inserts if the gate is open. */
  lemma FirstWrite(s: Shop, m: Mapped, today: int, opts: UpsertOpts, r: Resolver)
    requires m.orderId !in s.orders && forall b :: ResolverOf(s.variants)(b) == r(b)
    ensures var s' := Upserted(s, m, today, opts);
            && m.orderId in s'.orders && AllCovered(s'.orders[m.orderId].items, m.lines, r) && s'.buffer == s.buffer
            && s'.variants == DecrementAll(s.variants, if Sells(m, today, opts) then FirstInserts([], m.lines, r) else [])
  {
    SameResolver([], m.lines, ResolverOf(s.variants), r);
    DeliveryCoversItsLines([], m.lines, r);
  }

  /** Every later write of the same lines inserts nothing and moves nothing, whatever its gate. */
  lemma LaterWrite(s: Shop, m: Mapped, today: int, opts: UpsertOpts, r: Resolver)
    requires m.orderId in s.orders && AllCovered(s.orders[m.orderId].items, m.lines, r)
    requires forall b :: ResolverOf(s.variants)(b) == r(b)
    ensures var s' := Upserted(s, m, today, opts);
            && m.orderId in s'.orders && AllCovered(s'.orders[m.orderId].items, m.lines, r) && s'.buffer == s.buffer
            && s'.variants == s.variants
  {
    SameResolver(s.orders[m.orderId].items, m.lines, ResolverOf(s.variants), r);
    RedeliveryInsertsNothing(s.orders[m.orderId].items, m.lines, r);
    NoMovesNoChange(s);
    assert AllCovered(UpsertLines(s.orders[m.orderId].items, m.lines, r), m.lines, r);
  }

  /** What one more event sells, given the stage before it. */
  function SoldAt(stage: Stage, e: PackageEvent, lines: seq<Line>, r: Resolver): seq<Movement> {
    if stage.Unseen? && Parks(e) && e.m.orderDay == e.today then ResolvedMoves(lines, r)
    else if !stage.Stored? && SellsDirectly(e) then FirstInserts([], lines, r)
    else []
  }

  lemma PromotionStep(s: Shop, p: string, e: PackageEvent, stage: Stage, lines: seq<Line>, r: Resolver)
    requires e.Promotion? && StandsAt(s, p, stage, lines, r) && forall b :: ResolverOf(s.variants)(b) == r(b)
    ensures StandsAt(Happen(s, p, e), p, NextStage(stage, e), lines, r) && Happen(s, p, e).variants == s.variants
  {
    if p in s.buffer {
      var m, opts := s.buffer[p].mapped, UpsertOpts(e.excluded, true);
      if p in s.orders { LaterWrite(s, m, e.today, opts, r); } else { FirstWrite(s, m, e.today, opts, r); }
    }
  }

  lemma StoredStep(s: Shop, p: string, e: PackageEvent, lines: seq<Line>, r: Resolver)
    requires e.Delivery? && SameSale(e, p, lines) && StandsAt(s, p, Stored, lines, r)
    requires forall b :: ResolverOf(s.variants)(b) == r(b)
    ensures StandsAt(Happen(s, p, e), p, Stored, lines, r) && Happen(s, p, e).variants == s.variants
  {
    LaterWrite(s.(buffer := Removed(s.buffer, p)), e.m, e.today, PLAIN, r);
    LaterWrite(s, e.m, e.today, PLAIN, r);
    LaterWrite(s, e.m, e.today, UpsertOpts(true, false), r);
  }

  lemma DeliveryStep(s: Shop, p: string, e: PackageEvent, stage: Stage, lines: seq<Line>, r: Resolver)
    requires e.Delivery? && SameSale(e, p, lines) && !stage.Stored? && StandsAt(s, p, stage, lines, r)
    requires forall b :: ResolverOf(s.variants)(b) == r(b)
    ensures StandsAt(Happen(s, p, e), p, NextStage(stage, e), lines, r)
    ensures Happen(s, p, e).variants == DecrementAll(s.variants, SoldAt(stage, e, lines, r))
  {
    if Parks(e) {
      SameResolver([], lines, ResolverOf(s.variants), r);
    } else if e.m.status == CANCELLED {
      FirstWrite(s.(buffer := Removed(s.buffer, p)), e.m, e.today, PLAIN, r);
    } else if e.calculable {
      FirstWrite(s, e.m, e.today, PLAIN, r);
    } else {
      FirstWrite(s, e.m, e.today, UpsertOpts(true, false), r);
    }
  }

  lemma EventSells(s: Shop, p: string, e: PackageEvent, stage: Stage, lines: seq<Line>, r: Resolver)
    requires SameSale(e, p, lines) && StandsAt(s, p, stage, lines, r) && forall b :: ResolverOf(s.variants)(b) == r(b)
    ensures StandsAt(Happen(s, p, e), p, NextStage(stage, e), lines, r)
    ensures Happen(s, p, e).variants == DecrementAll(s.variants, SoldAt(stage, e, lines, r))
  {
    if e.Promotion? {
      PromotionStep(s, p, e, stage, lines, r);
    } else if stage.Stored? {
      StoredStep(s, p, e, lines, r);
    } else {
      DeliveryStep(s, p, e, stage, lines, r);
    }
  }

  lemma {:induction false} SalesFollowStages(es: seq<PackageEvent>)
    ensures ParkedOnItsDay(es) ==> !StageAfter(es).Unseen?
    ensures WrittenOnItsDay(es) ==> StageAfter(es).Stored?
  {
    if es != [] { SalesFollowStages(es[..|es| - 1]); }
  }

  lemma SoldStep(es: seq<PackageEvent>, lines: seq<Line>, r: Resolver)
    requires es != []
    ensures var pre, e := es[..|es| - 1], es[|es| - 1];
            SoldBy(es, lines, r) == SoldBy(pre, lines, r) + SoldAt(StageAfter(pre), e, lines, r)
  {
    SalesFollowStages(es[..|es| - 1]);
  }

  lemma {:induction false} LifeSells(s0: Shop, p: string, lines: seq<Line>, es: seq<PackageEvent>)
    requires p !in s0.orders && p !in s0.buffer
    requires forall k :: 0 <= k < |es| ==> SameSale(es[k], p, lines)
    ensures var r := ResolverOf(s0.variants);
            && Life(s0, p, es).variants == DecrementAll(s0.variants, SoldBy(es, lines, r))
            && StandsAt(Life(s0, p, es), p, StageAfter(es), lines, r)
  {
    if es != [] {
      var r, pre, e := ResolverOf(s0.variants), es[..|es| - 1], es[|es| - 1];
      LifeSells(s0, p, lines, pre);
      var s := Life(s0, p, pre);
      SameCatalogueAfterMoves(s0.variants, SoldBy(pre, lines, r));
      SameResolverInCatalogue(s0.variants, s.variants);
      EventSells(s, p, e, StageAfter(pre), lines, r);
      SoldStep(es, lines, r);
      DecrementAllConcat(s0.variants, SoldBy(pre, lines, r), SoldAt(StageAfter(pre), e, lines, r));
    }
  }

  ghost predicate CarriesUnits(ms: seq<Movement>) { exists id :: Units(ms, id) > 0 }

  ghost predicate SameUnits(a: seq<Movement>, b: seq<Movement>) { forall id :: Units(a, id) == Units(b, id) }

  /** One sale of the lines, the way the life's first sale counts them. */
  function OneSale(es: seq<PackageEvent>, lines: seq<Line>, r: Resolver): seq<Movement> {
    if ParkedOnItsDay(es) then ResolvedMoves(lines, r) else FirstInserts([], lines, r)
  }

  /**
   What any life of a package sells, and exactly when that is one sale: deliveries of the
   same lines and promotions, in any order and on any routes, take the lines off the shelf
   once for being parked on the business day and once for an order row first written by a
   costed live delivery on the business day. So the package is sold exactly once if and
   only if exactly one of the two happened.
   */
  lemma SoldExactlyOnceIff(s0: Shop, p: string, lines: seq<Line>, es: seq<PackageEvent>)
    requires p !in s0.orders && p !in s0.buffer
    requires forall k :: 0 <= k < |es| ==> SameSale(es[k], p, lines)
    ensures var r := ResolverOf(s0.variants);
            && Life(s0, p, es).variants == DecrementAll(s0.variants, SoldBy(es, lines, r))
            && (CarriesUnits(FirstInserts([], lines, r)) ==>
                  (SameUnits(SoldBy(es, lines, r), OneSale(es, lines, r)) <==> ParkedOnItsDay(es) != WrittenOnItsDay(es)))
  {
    var r := ResolverOf(s0.variants);
    LifeSells(s0, p, lines, es);
    var parked, direct := ResolvedMoves(lines, r), FirstInserts([], lines, r);
    forall id ensures Units(parked + direct, id) == Units(parked, id) + Units(direct, id) {
      UnitsConcat(parked, direct, id);
    }
    assert parked + [] == parked && [] + direct == direct;
  }

  /** A parked package, from the moment it waits: every later life adds nothing but the sale of a costed same-day first write. */
  lemma ParkedPackageSoldOnceIff(s0: Shop, p: string, lines: seq<Line>, first: PackageEvent, rest: seq<PackageEvent>)
    requires p !in s0.orders && p !in s0.buffer && Parks(first) && first.m.orderDay == first.today
    requires SameSale(first, p, lines) && forall k :: 0 <= k < |rest| ==> SameSale(rest[k], p, lines)
    ensures var r := ResolverOf(s0.variants);
            var parked := Life(s0, p, [first]).variants;
            && parked == DecrementAll(s0.variants, ResolvedMoves(lines, r))
            && Life(s0, p, [first] + rest).variants
               == DecrementAll(parked, if WrittenOnItsDay([first] + rest) then FirstInserts([], lines, r) else [])
  {
    var r := ResolverOf(s0.variants);
    LifeSells(s0, p, lines, [first]);
    LifeSells(s0, p, lines, [first] + rest);
    StaysParkedOnItsDay([first], rest);
    assert [first][..0] == [] && ParkedOnItsDay([first]);
    var parked, direct := ResolvedMoves(lines, r), FirstInserts([], lines, r);
    assert parked + [] == parked;
    DecrementAllConcat(s0.variants, parked, direct);
  }

  lemma {:induction false} StaysParkedOnItsDay(es: seq<PackageEvent>, rest: seq<PackageEvent>)
    requires ParkedOnItsDay(es)
    ensures ParkedOnItsDay(es + rest)
  {
    if rest == [] {
      assert es + rest == es;
    } else {
      StaysParkedOnItsDay(es, rest[..|rest| - 1]);
      assert (es + rest)[..|es + rest| - 1] == es + rest[..|rest| - 1];
    }
  }

  // ─── The intended life ────────────────────────────────────────────────

  /** The route of a cost-missing order of the day. */
  predicate CostMissingToday(e: PackageEvent) {
    e.Delivery? && e.m.orderDay == e.today && e.m.status != CANCELLED && !e.calculable
  }

  lemma {:induction false} WaitsUntilPromoted(before: seq<PackageEvent>)
    requires before != [] && forall k :: 0 <= k < |before| ==> CostMissingToday(before[k])
    ensures StageAfter(before).Parked? && ParkedOnItsDay(before) && !WrittenOnItsDay(before)
  {
    var pre := before[..|before| - 1];
    if pre != [] { WaitsUntilPromoted(pre); }
  }

  lemma {:induction false} StoredSellsNoMore(es: seq<PackageEvent>, rest: seq<PackageEvent>)
    requires StageAfter(es).Stored?
    ensures StageAfter(es + rest).Stored?
    ensures ParkedOnItsDay(es + rest) == ParkedOnItsDay(es) && WrittenOnItsDay(es + rest) == WrittenOnItsDay(es)
  {
    if rest == [] {
      assert es + rest == es;
    } else {
      StoredSellsNoMore(es, rest[..|rest| - 1]);
      assert (es + rest)[..|es + rest| - 1] == es + rest[..|rest| - 1];
    }
  }

  /**
   The intended life is such a life: first seen as cost-missing on its day, delivered any
   number of times, promoted, and delivered any number of times again on any route, a
   package has each resolved line's units subtracted exactly once and ends as an order.
   */
  lemma SoldExactlyOnce(s0: Shop, p: string, lines: seq<Line>, before: seq<PackageEvent>, promotion: PackageEvent,
                        after: seq<PackageEvent>)
    requires p !in s0.orders && p !in s0.buffer && before != [] && promotion.Promotion?
    requires forall k :: 0 <= k < |before| ==> SameSale(before[k], p, lines) && CostMissingToday(before[k])
    requires forall k :: 0 <= k < |after| ==> SameSale(after[k], p, lines)
    ensures var sold := DecrementAll(s0.variants, ResolvedMoves(lines, ResolverOf(s0.variants)));
            var s := Life(s0, p, before + [promotion] + after);
            && Life(s0, p, before).variants == sold && Life(s0, p, before + [promotion]).variants == sold
            && s.variants == sold && p in s.orders && p !in s.buffer
  {
    var promoted := before + [promotion];
    WaitsUntilPromoted(before);
    assert promoted[..|before|] == before;
    StoredSellsNoMore(promoted, after);
    LifeSells(s0, p, lines, before);
    LifeSells(s0, p, lines, promoted);
    LifeSells(s0, p, lines, promoted + after);
    LeavesTheBuffer(s0, p, lines, promoted, after);
    assert ResolvedMoves(lines, ResolverOf(s0.variants)) + [] == ResolvedMoves(lines, ResolverOf(s0.variants));
  }

  lemma StoredStaysUnbuffered(s: Shop, p: string, e: PackageEvent, lines: seq<Line>)
    requires p in s.orders && p !in s.buffer && SameSale(e, p, lines)
    ensures p !in Happen(s, p, e).buffer
  {
  }

  lemma {:induction false} LeavesTheBuffer(s0: Shop, p: string, lines: seq<Line>, es: seq<PackageEvent>, rest: seq<PackageEvent>)
    requires p !in s0.orders && p !in s0.buffer && es != [] && es[|es| - 1].Promotion? && StageAfter(es).Stored?
    requires forall k :: 0 <= k < |es| ==> SameSale(es[k], p, lines)
    requires forall k :: 0 <= k < |rest| ==> SameSale(rest[k], p, lines)
    ensures p !in Life(s0, p, es + rest).buffer
  {
    if rest == [] {
      assert es + rest == es;
    } else {
      var pre, e := es + rest[..|rest| - 1], rest[|rest| - 1];
      assert (es + rest)[..|es + rest| - 1] == pre && (es + rest)[|es + rest| - 1] == e;
      LeavesTheBuffer(s0, p, lines, es, rest[..|rest| - 1]);
      StoredSellsNoMore(es, rest[..|rest| - 1]);
      LifeSells(s0, p, lines, pre);
      StoredStaysUnbuffered(Life(s0, p, pre), p, e, lines);
    }
  }
}
