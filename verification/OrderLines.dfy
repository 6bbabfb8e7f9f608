/**
 Storing the lines of one order exactly once over repeated, split or partial
 deliveries: lookup by platform line id first, then by variant among the rows that have
 no line id yet, with self-healing and commission refresh.
 */
module OrderLines {
  import opened Options
  import opened Stock

  /** One delivered line; `commission` is its effective commission after the category fallback. */
  datatype Line = Line(lineId: Option<int>, barcode: string, quantity: nat, commission: real, commissionKnown: bool)

  datatype Item = Item(
    lineId: Option<int>,
    variant: Option<VariantId>,
    quantity: nat,
    commissionGross: real,
    estimatedCommissionGross: real,
    settledCommissionGross: Option<real>)

  /** The store's barcode lookup; fixed while the deliveries of one statement are processed. */
  type Resolver = string -> Option<VariantId>

  predicate Matches(item: Item, line: Line, key: Option<VariantId>) {
    if line.lineId.Some? then
      item.lineId == line.lineId || (item.lineId.None? && item.variant == key)
    else item.variant == key
  }

  function FirstMatch(items: seq<Item>, line: Line, key: Option<VariantId>): (r: Option<nat>)
    ensures r.Some? ==> r.value < |items| && Matches(items[r.value], line, key)
    ensures r.None? ==> forall i :: 0 <= i < |items| ==> !Matches(items[i], line, key)
  {
    if items == [] then None
    else
      match FirstMatch(items[..|items| - 1], line, key)
      case Some(i) => Some(i)
      case None => if Matches(items[|items| - 1], line, key) then Some(|items| - 1) else None
  }

  /** Stamp a missing line id; refresh the estimate-side commission until settlement. */
  function Refreshed(item: Item, line: Line): Item {
    var healed := if line.lineId.Some? && item.lineId.None? then item.(lineId := line.lineId) else item;
    if line.commissionKnown && item.settledCommissionGross.None? && line.commission != item.commissionGross
    then healed.(commissionGross := line.commission, estimatedCommissionGross := line.commission)
    else healed
  }

  function NewItem(line: Line, key: Option<VariantId>): Item {
    Item(line.lineId, key, line.quantity, line.commission, line.commission, None)
  }

  function UpsertLine(items: seq<Item>, line: Line, r: Resolver): seq<Item> {
    match FirstMatch(items, line, r(line.barcode))
    case Some(i) => items[i := Refreshed(items[i], line)]
    case None => items + [NewItem(line, r(line.barcode))]
  }

  function UpsertLines(items: seq<Item>, lines: seq<Line>, r: Resolver): seq<Item> {
    if lines == [] then items
    else UpsertLine(UpsertLines(items, lines[..|lines| - 1], r), lines[|lines| - 1], r)
  }

  /** The stock movement of one line: only a first insert that resolves to a variant moves stock. */
  function InsertMove(items: seq<Item>, line: Line, r: Resolver): seq<Movement> {
    if FirstMatch(items, line, r(line.barcode)).None? && r(line.barcode).Some?
    then [Movement(r(line.barcode).value, line.quantity)] else []
  }

  function FirstInserts(items: seq<Item>, lines: seq<Line>, r: Resolver): seq<Movement> {
    if lines == [] then []
    else
      FirstInserts(items, lines[..|lines| - 1], r)
      + InsertMove(UpsertLines(items, lines[..|lines| - 1], r), lines[|lines| - 1], r)
  }

  lemma UpsertLinesStep(items: seq<Item>, lines: seq<Line>, k: nat, r: Resolver)
    requires k < |lines|
    ensures UpsertLines(items, lines[..k + 1], r) == UpsertLine(UpsertLines(items, lines[..k], r), lines[k], r)
    ensures FirstInserts(items, lines[..k + 1], r)
            == FirstInserts(items, lines[..k], r) + InsertMove(UpsertLines(items, lines[..k], r), lines[k], r)
  {
    assert lines[..k + 1][..k] == lines[..k];
  }

  lemma {:induction false} UpsertLinesConcat(items: seq<Item>, a: seq<Line>, b: seq<Line>, r: Resolver)
    ensures UpsertLines(items, a + b, r) == UpsertLines(UpsertLines(items, a, r), b, r)
    ensures FirstInserts(items, a + b, r) == FirstInserts(items, a, r) + FirstInserts(UpsertLines(items, a, r), b, r)
  {
    if b == [] {
      assert a + b == a;
    } else {
      assert (a + b)[..|a + b| - 1] == a + b[..|b| - 1];
      UpsertLinesConcat(items, a, b[..|b| - 1], r);
    }
  }

  // ─── Dedupe ───────────────────────────────────────────────────────────

  /** One barcode per platform line id, seen through the fixed barcode lookup. */
  predicate ConsistentIds(lines: seq<Line>, r: Resolver) {
    forall i, j :: 0 <= i < |lines| && 0 <= j < |lines| && lines[i].lineId.Some? && lines[i].lineId == lines[j].lineId ==>
      r(lines[i].barcode) == r(lines[j].barcode)
  }

  predicate DistinctLineIds(items: seq<Item>) {
    forall i, j :: 0 <= i < j < |items| && items[i].lineId.Some? ==> items[i].lineId != items[j].lineId
  }

  /** An item without a line id is the only item with its variant key. */
  predicate IdlessAlone(items: seq<Item>) {
    forall i, j :: 0 <= i < |items| && 0 <= j < |items| && items[i].lineId.None? && items[i].variant == items[j].variant ==> i == j
  }

  predicate StoresId(items: seq<Item>, id: int) { exists i :: 0 <= i < |items| && items[i].lineId == Some(id) }

  predicate StoredOnce(items: seq<Item>, id: int) {
    && StoresId(items, id)
    && (forall i, j :: 0 <= i < |items| && 0 <= j < |items| && items[i].lineId == Some(id) && items[j].lineId == Some(id) ==> i == j)
  }

  predicate HasId(lines: seq<Line>, id: int) { exists k :: 0 <= k < |lines| && lines[k].lineId == Some(id) }

  /** Each stored line id was delivered, on a line with this item's variant. */
  predicate FromDeliveries(items: seq<Item>, lines: seq<Line>, r: Resolver) {
    forall i :: 0 <= i < |items| && items[i].lineId.Some? ==>
      exists k :: 0 <= k < |lines| && lines[k].lineId == items[i].lineId && r(lines[k].barcode) == items[i].variant
  }

  predicate Covered(items: seq<Item>, line: Line, r: Resolver) {
    exists i :: 0 <= i < |items| && Matches(items[i], line, r(line.barcode))
                && (line.lineId.Some? ==> items[i].lineId == line.lineId)
  }

  predicate AllCovered(items: seq<Item>, lines: seq<Line>, r: Resolver) {
    forall k :: 0 <= k < |lines| ==> Covered(items, lines[k], r)
  }

  predicate EstimateFollowsCommission(items: seq<Item>) {
    forall i :: 0 <= i < |items| ==> items[i].estimatedCommissionGross == items[i].commissionGross
  }

  ghost predicate Deduped(items: seq<Item>, lines: seq<Line>, r: Resolver) {
    && DistinctLineIds(items) && IdlessAlone(items)
    && FromDeliveries(items, lines, r) && AllCovered(items, lines, r)
    && EstimateFollowsCommission(items)
  }

  /** With deduped items, the OR lookup of a further consistent line matches at most one item. */
  lemma LookupIsUnambiguous(items: seq<Item>, lines: seq<Line>, line: Line, r: Resolver, i: nat, j: nat)
    requires Deduped(items, lines, r) && ConsistentIds(lines + [line], r) && line.lineId.Some?
    requires i < |items| && j < |items|
    requires Matches(items[i], line, r(line.barcode)) && Matches(items[j], line, r(line.barcode))
    ensures i == j
  {
    IdFixesVariant(items, lines, line, r, i);
    IdFixesVariant(items, lines, line, r, j);
  }

  lemma IdFixesVariant(items: seq<Item>, lines: seq<Line>, line: Line, r: Resolver, i: nat)
    requires FromDeliveries(items, lines, r) && ConsistentIds(lines + [line], r) && line.lineId.Some? && i < |items|
    ensures items[i].lineId == line.lineId ==> items[i].variant == r(line.barcode)
  {
    if items[i].lineId == line.lineId {
      var k :| 0 <= k < |lines| && lines[k].lineId == items[i].lineId && r(lines[k].barcode) == items[i].variant;
      var all := lines + [line];
      assert all[k] == lines[k] && all[|lines|] == line;
    }
  }

  lemma CoverageSurvives(items: seq<Item>, line: Line, next: Line, r: Resolver)
    requires Covered(items, line, r)
    ensures Covered(UpsertLine(items, next, r), line, r)
  {
    var i :| 0 <= i < |items| && Matches(items[i], line, r(line.barcode)) && (line.lineId.Some? ==> items[i].lineId == line.lineId);
    var items' := UpsertLine(items, next, r);
    assert Matches(items'[i], line, r(line.barcode)) && (line.lineId.Some? ==> items'[i].lineId == line.lineId);
  }

  lemma UpsertCovers(items: seq<Item>, line: Line, r: Resolver)
    ensures Covered(UpsertLine(items, line, r), line, r)
  {
    var items' := UpsertLine(items, line, r);
    match FirstMatch(items, line, r(line.barcode))
    case Some(i) => assert Matches(items'[i], line, r(line.barcode));
    case None => assert Matches(items'[|items|], line, r(line.barcode));
  }

  lemma UpsertKeepsShape(items: seq<Item>, lines: seq<Line>, line: Line, r: Resolver)
    requires Deduped(items, lines, r) && ConsistentIds(lines + [line], r)
    ensures DistinctLineIds(UpsertLine(items, line, r)) && IdlessAlone(UpsertLine(items, line, r))
  {
    match FirstMatch(items, line, r(line.barcode)) {
      case None =>
      case Some(m) =>
        if line.lineId.Some? && items[m].lineId.None? {
          forall i | 0 <= i < |items| ensures items[i].lineId != line.lineId {
            if items[i].lineId == line.lineId { LookupIsUnambiguous(items, lines, line, r, i, m); }
          }
        }
    }
  }

  lemma UpsertKeepsOrigins(items: seq<Item>, lines: seq<Line>, line: Line, r: Resolver)
    requires FromDeliveries(items, lines, r) && EstimateFollowsCommission(items)
    ensures FromDeliveries(UpsertLine(items, line, r), lines + [line], r)
    ensures EstimateFollowsCommission(UpsertLine(items, line, r))
  {
    var items', all := UpsertLine(items, line, r), lines + [line];
    assert all[|lines|] == line;
    forall i | 0 <= i < |items'| && items'[i].lineId.Some?
      ensures exists k :: 0 <= k < |all| && all[k].lineId == items'[i].lineId && r(all[k].barcode) == items'[i].variant
    {
      if i < |items| && items[i].lineId.Some? {
        var k :| 0 <= k < |lines| && lines[k].lineId == items[i].lineId && r(lines[k].barcode) == items[i].variant;
        assert all[k] == lines[k];
      }
    }
  }

  lemma {:induction false} DeliveriesStayDeduped(lines: seq<Line>, r: Resolver)
    requires ConsistentIds(lines, r)
    ensures Deduped(UpsertLines([], lines, r), lines, r)
  {
    if lines != [] {
      var pre, line := lines[..|lines| - 1], lines[|lines| - 1];
      assert lines == pre + [line];
      assert ConsistentIds(pre, r) by {
        forall i, j | 0 <= i < |pre| && 0 <= j < |pre| && pre[i].lineId.Some? && pre[i].lineId == pre[j].lineId
          ensures r(pre[i].barcode) == r(pre[j].barcode)
        {
          assert lines[i] == pre[i] && lines[j] == pre[j];
        }
      }
      DeliveriesStayDeduped(pre, r);
      var items := UpsertLines([], pre, r);
      UpsertKeepsShape(items, pre, line, r);
      UpsertKeepsOrigins(items, pre, line, r);
      UpsertCovers(items, line, r);
      forall k | 0 <= k < |lines| ensures Covered(UpsertLine(items, line, r), lines[k], r) {
        if k < |pre| { CoverageSurvives(items, pre[k], line, r); }
      }
    }
  }

  /**
   Line dedupe: after any sequence of deliveries, with or without line ids, a platform
   line id is stored exactly once if it was ever delivered and never otherwise; an item
   without one is the only item with its variant key; every delivered line is stored; and
   the estimate equals the commission on every item.
   */
  lemma EachIdentifiedLineStoredOnce(lines: seq<Line>, r: Resolver)
    requires ConsistentIds(lines, r)
    ensures var items := UpsertLines([], lines, r);
            && (forall id :: HasId(lines, id) <==> StoresId(items, id))
            && (forall id :: HasId(lines, id) ==> StoredOnce(items, id))
            && IdlessAlone(items) && AllCovered(items, lines, r) && EstimateFollowsCommission(items)
  {
    DeliveriesStayDeduped(lines, r);
    var items := UpsertLines([], lines, r);
    forall id ensures HasId(lines, id) <==> StoresId(items, id) {
      if HasId(lines, id) {
        var k :| 0 <= k < |lines| && lines[k].lineId == Some(id);
        assert Covered(items, lines[k], r);
      }
      if StoresId(items, id) {
        var i :| 0 <= i < |items| && items[i].lineId == Some(id);
        var k :| 0 <= k < |lines| && lines[k].lineId == items[i].lineId && r(lines[k].barcode) == items[i].variant;
      }
    }
  }

  /** Delivering lines that are all stored already inserts nothing and moves no stock. */
  lemma {:induction false} RedeliveryInsertsNothing(items: seq<Item>, lines: seq<Line>, r: Resolver)
    requires AllCovered(items, lines, r)
    ensures |UpsertLines(items, lines, r)| == |items| && FirstInserts(items, lines, r) == []
    ensures forall line :: Covered(items, line, r) ==> Covered(UpsertLines(items, lines, r), line, r)
  {
    if lines != [] {
      var pre, last := lines[..|lines| - 1], lines[|lines| - 1];
      assert AllCovered(items, pre, r) by {
        forall k | 0 <= k < |pre| ensures Covered(items, pre[k], r) { assert Covered(items, lines[k], r); }
      }
      RedeliveryInsertsNothing(items, pre, r);
      var before := UpsertLines(items, pre, r);
      assert Covered(items, lines[|lines| - 1], r) && Covered(before, last, r);
      forall line | Covered(items, line, r) ensures Covered(UpsertLines(items, lines, r), line, r) {
        CoverageSurvives(before, line, last, r);
      }
    }
  }

  /** A delivery stores every one of its lines, whatever was stored before. */
  lemma {:induction false} DeliveryCoversItsLines(items: seq<Item>, lines: seq<Line>, r: Resolver)
    ensures AllCovered(UpsertLines(items, lines, r), lines, r)
  {
    if lines != [] {
      var pre, last := lines[..|lines| - 1], lines[|lines| - 1];
      var before := UpsertLines(items, pre, r);
      DeliveryCoversItsLines(items, pre, r);
      UpsertCovers(before, last, r);
      forall k | 0 <= k < |lines| ensures Covered(UpsertLines(items, lines, r), lines[k], r) {
        if k < |pre| { CoverageSurvives(before, pre[k], last, r); }
      }
    }
  }

  /** A line without an id is inserted exactly when no item has its key. */
  lemma IdlessLineStoredIffKeyIsNew(items: seq<Item>, line: Line, r: Resolver)
    requires line.lineId.None?
    ensures |UpsertLine(items, line, r)| == |items| + 1
            <==> forall i :: 0 <= i < |items| ==> items[i].variant != r(line.barcode)
  {
  }

  /**
   What the line-id-less fallback does not promise: different physical lines whose barcodes
   resolve to no variant, both without a line id, share the null key, so the later one is
   not stored.
   */
  lemma UnresolvedIdlessLinesShareAnItem(items: seq<Item>, a: Line, b: Line, r: Resolver)
    requires a.lineId.None? && b.lineId.None? && r(a.barcode).None? && r(b.barcode).None?
    ensures |UpsertLine(UpsertLine(items, a, r), b, r)| == |UpsertLine(items, a, r)|
  {
    UpsertCovers(items, a, r);
    var once := UpsertLine(items, a, r);
    var i :| 0 <= i < |once| && Matches(once[i], a, r(a.barcode));
    assert Matches(once[i], b, r(b.barcode));
  }

  // ─── Any matching item ────────────────────────────────────────────────

  /**
   The lookup takes some matching item, not always the first: one of the matching items is
   refreshed, or, when none matches, the line is inserted.
   */
  predicate Stores(items: seq<Item>, line: Line, r: Resolver, next: seq<Item>) {
    || (exists i :: 0 <= i < |items| && Matches(items[i], line, r(line.barcode)) && next == items[i := Refreshed(items[i], line)])
    || ((forall i :: 0 <= i < |items| ==> !Matches(items[i], line, r(line.barcode)))
        && next == items + [NewItem(line, r(line.barcode))])
  }

  /** The tables between the deliveries, one lookup choice after another. */
  predicate StoringRun(run: seq<seq<Item>>, lines: seq<Line>, r: Resolver) {
    && |run| == |lines| + 1 && run[0] == []
    && forall k :: 0 <= k < |lines| ==> Stores(run[k], lines[k], r, run[k + 1])
  }

  /** The items agree on everything but their commissions. */
  predicate SameItem(a: Item, b: Item) { a.lineId == b.lineId && a.variant == b.variant && a.quantity == b.quantity }

  predicate SameButCommissions(a: seq<Item>, b: seq<Item>) { |a| == |b| && forall i :: 0 <= i < |a| ==> SameItem(a[i], b[i]) }

  lemma FirstMatchStores(items: seq<Item>, line: Line, r: Resolver)
    ensures Stores(items, line, r, UpsertLine(items, line, r))
  {
  }

  /** The chosen item is the first match, or a line without an id was refreshed and keeps its place either way. */
  lemma AnyChoiceStoresTheSame(items: seq<Item>, some: seq<Item>, lines: seq<Line>, line: Line, r: Resolver, next: seq<Item>)
    requires Deduped(items, lines, r) && ConsistentIds(lines + [line], r)
    requires SameButCommissions(items, some) && Stores(some, line, r, next)
    ensures SameButCommissions(UpsertLine(items, line, r), next)
    ensures |next| == |some| <==> FirstMatch(items, line, r(line.barcode)).Some?
    ensures EstimateFollowsCommission(some) ==> EstimateFollowsCommission(next)
  {
    var key := r(line.barcode);
    assert forall i :: 0 <= i < |items| ==> Matches(items[i], line, key) == Matches(some[i], line, key);
    if i :| 0 <= i < |some| && Matches(some[i], line, key) && next == some[i := Refreshed(some[i], line)] {
      var j := FirstMatch(items, line, key).value;
      if line.lineId.Some? { LookupIsUnambiguous(items, lines, line, r, i, j); }
    }
  }

  lemma ConsistentFront(lines: seq<Line>, r: Resolver)
    requires lines != [] && ConsistentIds(lines, r)
    ensures ConsistentIds(lines[..|lines| - 1], r)
    ensures lines == lines[..|lines| - 1] + [lines[|lines| - 1]]
  {
    var pre := lines[..|lines| - 1];
    forall i, j | 0 <= i < |pre| && 0 <= j < |pre| && pre[i].lineId.Some? && pre[i].lineId == pre[j].lineId
      ensures r(pre[i].barcode) == r(pre[j].barcode)
    {
      assert lines[i] == pre[i] && lines[j] == pre[j];
    }
  }

  lemma RunFront(run: seq<seq<Item>>, lines: seq<Line>, r: Resolver)
    requires lines != [] && StoringRun(run, lines, r)
    ensures StoringRun(run[..|lines|], lines[..|lines| - 1], r)
  {
    var front, pre := run[..|lines|], lines[..|lines| - 1];
    forall k | 0 <= k < |pre| ensures Stores(front[k], pre[k], r, front[k + 1]) {
      assert Stores(run[k], lines[k], r, run[k + 1]);
    }
  }

  /**
   Which matching item the lookup takes never matters for what is stored or sold: every run
   stores the items of the first-match run, up to their commissions, inserts exactly where
   that run does, and keeps every item's estimate at its commission.
   */
  lemma {:induction false} EveryRunStoresTheSame(run: seq<seq<Item>>, lines: seq<Line>, r: Resolver)
    requires StoringRun(run, lines, r) && ConsistentIds(lines, r)
    ensures SameButCommissions(UpsertLines([], lines, r), run[|lines|]) && EstimateFollowsCommission(run[|lines|])
    ensures lines != [] ==>
              (|run[|lines|]| == |run[|lines| - 1]| + 1
               <==> FirstMatch(UpsertLines([], lines[..|lines| - 1], r), lines[|lines| - 1], r(lines[|lines| - 1].barcode)).None?)
  {
    if lines != [] {
      var n := |lines| - 1;
      var pre, line := lines[..n], lines[n];
      ConsistentFront(lines, r);
      RunFront(run, lines, r);
      EveryRunStoresTheSame(run[..n + 1], pre, r);
      DeliveriesStayDeduped(pre, r);
      assert Stores(run[n], lines[n], r, run[n + 1]);
      assert run[..n + 1][n] == run[n];
      AnyChoiceStoresTheSame(UpsertLines([], pre, r), run[n], pre, line, r, run[n + 1]);
    }
  }
}
