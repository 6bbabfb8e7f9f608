/**
 Optimistic stock between catalogue scans: the variant rows, their products' denormalised
 totals, and the three in-place updates that order intake issues.
 */
module Stock {
  import opened Options

  type VariantId = nat
  type ProductId = nat

  datatype Variant = Variant(id: VariantId, product: ProductId, barcode: string, quantity: nat)

  type Variants = seq<Variant>

  /** Units of one variant to subtract or to re-add. */
  datatype Movement = Movement(variant: VariantId, quantity: nat)

  function Floored(q: nat, n: nat): nat { if q >= n then q - n else 0 }

  function Max(a: nat, b: nat): nat { if a >= b then a else b }

  /** UPDATE ... SET quantity = GREATEST(quantity - n, 0) WHERE id = ... */
  function Decremented(vs: Variants, id: VariantId, n: nat): Variants {
    seq(|vs|, i requires 0 <= i < |vs| =>
      if vs[i].id == id then vs[i].(quantity := Floored(vs[i].quantity, n)) else vs[i])
  }

  function Incremented(vs: Variants, id: VariantId, n: nat): Variants {
    seq(|vs|, i requires 0 <= i < |vs| =>
      if vs[i].id == id then vs[i].(quantity := vs[i].quantity + n) else vs[i])
  }

  function DecrementAll(vs: Variants, ms: seq<Movement>): (r: Variants)
    ensures |r| == |vs|
  {
    if ms == [] then vs
    else Decremented(DecrementAll(vs, ms[..|ms| - 1]), ms[|ms| - 1].variant, ms[|ms| - 1].quantity)
  }

  function IncrementAll(vs: Variants, ms: seq<Movement>): (r: Variants)
    ensures |r| == |vs|
  {
    if ms == [] then vs
    else Incremented(IncrementAll(vs, ms[..|ms| - 1]), ms[|ms| - 1].variant, ms[|ms| - 1].quantity)
  }

  function Units(ms: seq<Movement>, id: VariantId): nat {
    if ms == [] then 0
    else Units(ms[..|ms| - 1], id) + if ms[|ms| - 1].variant == id then ms[|ms| - 1].quantity else 0
  }

  lemma {:induction false} UnitsConcat(a: seq<Movement>, b: seq<Movement>, id: VariantId)
    ensures Units(a + b, id) == Units(a, id) + Units(b, id)
  {
    if b == [] {
      assert a + b == a;
    } else {
      assert (a + b)[..|a + b| - 1] == a + b[..|b| - 1];
      UnitsConcat(a, b[..|b| - 1], id);
    }
  }

  lemma OneMoreMove(vs: Variants, ms: seq<Movement>, m: Movement)
    ensures DecrementAll(vs, ms + [m]) == Decremented(DecrementAll(vs, ms), m.variant, m.quantity)
    ensures IncrementAll(vs, ms + [m]) == Incremented(IncrementAll(vs, ms), m.variant, m.quantity)
  {
    assert (ms + [m])[..|ms|] == ms;
  }

  /** Any list of decrements leaves, for each variant, its quantity less all its units, floored once at zero. */
  lemma {:induction false} DecrementsFloorOnce(vs: Variants, ms: seq<Movement>, i: nat)
    requires i < |vs|
    ensures DecrementAll(vs, ms)[i] == vs[i].(quantity := Floored(vs[i].quantity, Units(ms, vs[i].id)))
  {
    if ms != [] { DecrementsFloorOnce(vs, ms[..|ms| - 1], i); }
  }

  lemma {:induction false} IncrementsAddUp(vs: Variants, ms: seq<Movement>, i: nat)
    requires i < |vs|
    ensures IncrementAll(vs, ms)[i] == vs[i].(quantity := vs[i].quantity + Units(ms, vs[i].id))
  {
    if ms != [] { IncrementsAddUp(vs, ms[..|ms| - 1], i); }
  }

  lemma {:induction false} DecrementAllConcat(vs: Variants, a: seq<Movement>, b: seq<Movement>)
    ensures DecrementAll(vs, a + b) == DecrementAll(DecrementAll(vs, a), b)
  {
    if b == [] {
      assert a + b == a;
    } else {
      assert (a + b)[..|a + b| - 1] == a + b[..|b| - 1];
      DecrementAllConcat(vs, a, b[..|b| - 1]);
    }
  }

  /** Undoing a ghost's own lines leaves max(q, units): the floor may over-credit, never under-credit. */
  lemma UndoLeavesMaximum(vs: Variants, ghostLines: seq<Movement>, i: nat)
    requires i < |vs|
    ensures IncrementAll(DecrementAll(vs, ghostLines), ghostLines)[i]
            == vs[i].(quantity := Max(vs[i].quantity, Units(ghostLines, vs[i].id)))
  {
    DecrementsFloorOnce(vs, ghostLines, i);
    IncrementsAddUp(DecrementAll(vs, ghostLines), ghostLines, i);
  }

  /** Split children carrying the same units then leave exactly what the unsplit order left, floor or not. */
  lemma SplitLeavesUnsplitStock(vs: Variants, whole: seq<Movement>, parts: seq<Movement>)
    requires forall i :: 0 <= i < |vs| ==> Units(parts, vs[i].id) == Units(whole, vs[i].id)
    ensures DecrementAll(IncrementAll(DecrementAll(vs, whole), whole), parts) == DecrementAll(vs, whole)
  {
    var undone := IncrementAll(DecrementAll(vs, whole), whole);
    forall i | 0 <= i < |vs| ensures DecrementAll(undone, parts)[i] == DecrementAll(vs, whole)[i] {
      UndoLeavesMaximum(vs, whole, i);
      DecrementsFloorOnce(undone, parts, i);
      DecrementsFloorOnce(vs, whole, i);
    }
  }

  // ─── Product totals ───────────────────────────────────────────────────

  predicate DistinctIds(vs: Variants) {
    forall i, j :: 0 <= i < j < |vs| ==> vs[i].id != vs[j].id
  }

  /** SUM(quantity) over the variants of one product. */
  function SumFor(vs: Variants, p: ProductId): nat {
    if vs == [] then 0 else SumFor(vs[..|vs| - 1], p) + if vs[|vs| - 1].product == p then vs[|vs| - 1].quantity else 0
  }

  predicate TotalsOk(vs: Variants, totals: map<ProductId, nat>) {
    forall i :: 0 <= i < |vs| ==> vs[i].product in totals && totals[vs[i].product] == SumFor(vs, vs[i].product)
  }

  predicate SameCatalogue(a: Variants, b: Variants) {
    |a| == |b| && forall i :: 0 <= i < |a| ==> a[i].(quantity := 0) == b[i].(quantity := 0)
  }

  /** The products whose variants a list of movements touches. */
  function Touched(vs: Variants, ms: seq<Movement>): set<ProductId> {
    set i, k | 0 <= i < |vs| && 0 <= k < |ms| && ms[k].variant == vs[i].id :: vs[i].product
  }

  /** The grouped read: a sum for each product that has variants. */
  function SumsOf(vs: Variants, ps: set<ProductId>): map<ProductId, nat> { map p | p in ps && HasVariants(vs, p) :: SumFor(vs, p) }

  /** One grouped read and one update per product that has variants. */
  function Recomputed(vs: Variants, totals: map<ProductId, nat>, ps: set<ProductId>): map<ProductId, nat> { totals + SumsOf(vs, ps) }

  lemma SumsOneMore(vs: Variants, ps: set<ProductId>, p: ProductId)
    ensures SumsOf(vs, ps + {p}) == if HasVariants(vs, p) then SumsOf(vs, ps)[p := SumFor(vs, p)] else SumsOf(vs, ps)
  {
  }

  lemma MergeThenUpdate(totals: map<ProductId, nat>, sums: map<ProductId, nat>, p: ProductId, sum: nat)
    ensures totals + sums[p := sum] == (totals + sums)[p := sum]
  {
  }

  lemma RecomputedOneMore(vs: Variants, totals: map<ProductId, nat>, ps: set<ProductId>, p: ProductId)
    ensures var before := Recomputed(vs, totals, ps);
            Recomputed(vs, totals, ps + {p}) == if HasVariants(vs, p) then before[p := SumFor(vs, p)] else before
  {
    SumsOneMore(vs, ps, p);
    MergeThenUpdate(totals, SumsOf(vs, ps), p, SumFor(vs, p));
  }

  predicate HasVariants(vs: Variants, p: ProductId) { exists i :: 0 <= i < |vs| && vs[i].product == p }

  lemma {:induction false} SumUntouched(a: Variants, b: Variants, p: ProductId)
    requires |a| == |b|
    requires forall i :: 0 <= i < |a| ==> a[i].product == b[i].product && (a[i].product == p ==> a[i].quantity == b[i].quantity)
    ensures SumFor(a, p) == SumFor(b, p)
  {
    if a != [] { SumUntouched(a[..|a| - 1], b[..|b| - 1], p); }
  }

  /** Stock that moved only for touched products, then a recompute of those: totals are sums again. */
  lemma RecomputeRestoresTotals(vs: Variants, vs': Variants, totals: map<ProductId, nat>, ms: seq<Movement>)
    requires TotalsOk(vs, totals) && SameCatalogue(vs, vs')
    requires forall i :: 0 <= i < |vs| ==> Units(ms, vs[i].id) == 0 ==> vs'[i] == vs[i]
    ensures TotalsOk(vs', Recomputed(vs', totals, Touched(vs, ms)))
  {
    var ps := Touched(vs, ms);
    forall i | 0 <= i < |vs'|
      ensures vs'[i].product in Recomputed(vs', totals, ps)
              && Recomputed(vs', totals, ps)[vs'[i].product] == SumFor(vs', vs'[i].product)
    {
      var p := vs'[i].product;
      assert vs'[i].(quantity := 0) == vs[i].(quantity := 0);
      if p !in ps {
        forall j | 0 <= j < |vs| && vs[j].product == p ensures vs'[j] == vs[j] {
          UntouchedHasNoUnits(ms, vs[j].id);
        }
        assert forall j :: 0 <= j < |vs| ==> vs'[j].(quantity := 0) == vs[j].(quantity := 0);
        SumUntouched(vs', vs, p);
      } else {
        assert HasVariants(vs', p);
      }
    }
  }

  lemma {:induction false} UntouchedHasNoUnits(ms: seq<Movement>, id: VariantId)
    requires forall k :: 0 <= k < |ms| ==> ms[k].variant != id
    ensures Units(ms, id) == 0
  {
    if ms != [] { UntouchedHasNoUnits(ms[..|ms| - 1], id); }
  }

  lemma SameCatalogueAfterMoves(vs: Variants, ms: seq<Movement>)
    ensures SameCatalogue(vs, DecrementAll(vs, ms)) && SameCatalogue(vs, IncrementAll(vs, ms))
    ensures DistinctIds(vs) ==> DistinctIds(DecrementAll(vs, ms)) && DistinctIds(IncrementAll(vs, ms))
    ensures forall i :: 0 <= i < |vs| ==> Units(ms, vs[i].id) == 0 ==>
              DecrementAll(vs, ms)[i] == vs[i] && IncrementAll(vs, ms)[i] == vs[i]
  {
    forall i | 0 <= i < |vs|
      ensures DecrementAll(vs, ms)[i] == vs[i].(quantity := Floored(vs[i].quantity, Units(ms, vs[i].id)))
      ensures IncrementAll(vs, ms)[i] == vs[i].(quantity := vs[i].quantity + Units(ms, vs[i].id))
    {
      DecrementsFloorOnce(vs, ms, i);
      IncrementsAddUp(vs, ms, i);
    }
  }

  // ─── Barcode lookup ───────────────────────────────────────────────────

  /** The first variant row with this barcode, if any (barcodes are not unique in a store). */
  function Lookup(vs: Variants, barcode: string): (r: Option<Variant>)
    ensures r.Some? ==> r.value in vs && r.value.barcode == barcode
  {
    if vs == [] then None
    else if vs[0].barcode == barcode then Some(vs[0])
    else Lookup(vs[1..], barcode)
  }

  function Resolve(vs: Variants, barcode: string): Option<VariantId> {
    match Lookup(vs, barcode)
    case Some(v) => Some(v.id)
    case None => None
  }

  /** Stock movements never change which variant a barcode resolves to. */
  lemma {:induction false} LookupIgnoresStock(a: Variants, b: Variants, barcode: string)
    requires SameCatalogue(a, b)
    ensures Resolve(a, barcode) == Resolve(b, barcode)
    ensures Lookup(a, barcode).Some? ==> Lookup(b, barcode).Some?
                                         && Lookup(a, barcode).value.product == Lookup(b, barcode).value.product
  {
    if a != [] {
      assert a[0].(quantity := 0) == b[0].(quantity := 0);
      forall i | 0 <= i < |a[1..]| ensures a[1..][i].(quantity := 0) == b[1..][i].(quantity := 0) {
        assert a[i + 1].(quantity := 0) == b[i + 1].(quantity := 0);
      }
      LookupIgnoresStock(a[1..], b[1..], barcode);
    }
  }

  class StockTable {
    var variants: Variants
    var totals: map<ProductId, nat>

    constructor (variants: Variants, totals: map<ProductId, nat>)
      ensures this.variants == variants && this.totals == totals
    {
      this.variants := variants;
      this.totals := totals;
    }

    method DecrementVariantStock(id: VariantId, quantity: nat)
      modifies this`variants
      ensures variants == Decremented(old(variants), id, quantity)
    {
      variants := Decremented(variants, id, quantity);
    }

    method IncrementVariantStock(id: VariantId, quantity: nat)
      modifies this`variants
      ensures variants == Incremented(old(variants), id, quantity)
    {
      variants := Incremented(variants, id, quantity);
    }

    method RecomputeProductsTotalStock(products: set<ProductId>)
      modifies this`totals
      ensures totals == Recomputed(variants, old(totals), products)
    {
      var todo := products;
      ghost var done: set<ProductId> := {};
      ghost var before := totals;
      assert Recomputed(variants, before, {}) == before;
      while todo != {}
        invariant done + todo == products
        invariant totals == Recomputed(variants, before, done)
        invariant variants == old(variants)
        decreases todo
      {
        var p :| p in todo;
        RecomputedOneMore(variants, before, done, p);
        if HasVariants(variants, p) {
          totals := totals[p := SumFor(variants, p)];
        }
        todo, done := todo - {p}, done + {p};
      }
      assert done == products;
    }
  }
}
