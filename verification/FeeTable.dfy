/**
 The fee rows of one order. Every writer finds the ESTIMATE row of a type and updates
 it, or creates one; this module says what such a write sets, what it leaves alone, and
 that it never makes a second ESTIMATE row of a type.
 */
module FeeTable {
  import opened Options
  import opened Money
  import opened ProfitFormula
  import opened ReturnLegs

  /**
   What a write carries. Without a VAT rate an update leaves the stored rate alone and a
   create uses the column's default of zero; only some writers set the direction again.
   */
  datatype Charge = Charge(amountGross: real, vatRate: Option<Rate>, direction: Direction, setsDirection: bool)

  predicate IsEstimate(r: FeeRow, t: FeeType) { r.feeType == t && r.source == ESTIMATE }

  /** The first ESTIMATE row of a type, or the table's length when there is none. */
  function Slot(fees: seq<FeeRow>, t: FeeType): (k: nat)
    ensures k <= |fees|
    ensures k < |fees| ==> IsEstimate(fees[k], t)
    ensures forall i :: 0 <= i < k ==> !IsEstimate(fees[i], t)
  {
    if fees == [] then 0
    else
      var k := Slot(fees[..|fees| - 1], t);
      if k < |fees| - 1 || IsEstimate(fees[|fees| - 1], t) then k else |fees|
  }

  function EstimateRow(fees: seq<FeeRow>, t: FeeType): Option<FeeRow> {
    if Slot(fees, t) < |fees| then Some(fees[Slot(fees, t)]) else None
  }

  function Revised(r: FeeRow, c: Charge): FeeRow {
    r.(amountGross := c.amountGross,
       vatRate := c.vatRate.GetOr(r.vatRate),
       direction := if c.setsDirection then c.direction else r.direction)
  }

  function Created(t: FeeType, c: Charge): FeeRow {
    FeeRow(t, ESTIMATE, c.direction, c.amountGross, c.vatRate.GetOr(0.0), false)
  }

  function Upserted(fees: seq<FeeRow>, t: FeeType, c: Charge): seq<FeeRow> {
    var k := Slot(fees, t);
    if k < |fees| then fees[k := Revised(fees[k], c)] else fees + [Created(t, c)]
  }

  function Deleted(fees: seq<FeeRow>, t: FeeType): seq<FeeRow> {
    var k := Slot(fees, t);
    if k < |fees| then fees[..k] + fees[k + 1..] else fees
  }

  /** At most one ESTIMATE row of each type. */
  ghost predicate OneEstimateEach(fees: seq<FeeRow>) {
    forall i, j :: 0 <= i < j < |fees| && fees[i].source == ESTIMATE && fees[j].source == ESTIMATE ==>
      fees[i].feeType != fees[j].feeType
  }

  lemma SlotIs(fees: seq<FeeRow>, t: FeeType, k: nat)
    requires k <= |fees| && (k < |fees| ==> IsEstimate(fees[k], t))
    requires forall i :: 0 <= i < k ==> !IsEstimate(fees[i], t)
    ensures Slot(fees, t) == k
  {
  }

  lemma UpsertKeepsOneEach(fees: seq<FeeRow>, t: FeeType, c: Charge)
    requires OneEstimateEach(fees)
    ensures OneEstimateEach(Upserted(fees, t, c))
  {
    var k := Slot(fees, t);
    if k == |fees| {
      assert forall i :: 0 <= i < |fees| && fees[i].source == ESTIMATE ==> !IsEstimate(fees[i], t);
    }
  }

  lemma DeleteKeepsOneEach(fees: seq<FeeRow>, t: FeeType)
    requires OneEstimateEach(fees)
    ensures OneEstimateEach(Deleted(fees, t))
    ensures EstimateRow(Deleted(fees, t), t) == None
  {
    var k := Slot(fees, t);
    var left := Deleted(fees, t);
    if k < |fees| {
      assert forall i :: 0 <= i < |left| ==> left[i] == if i < k then fees[i] else fees[i + 1];
      assert forall i :: 0 <= i < |left| ==> !IsEstimate(left[i], t);
      SlotIs(left, t, |left|);
    }
  }

  lemma UpsertSets(fees: seq<FeeRow>, t: FeeType, c: Charge)
    ensures EstimateRow(Upserted(fees, t, c), t)
         == Some(if EstimateRow(fees, t).Some? then Revised(EstimateRow(fees, t).value, c) else Created(t, c))
  {
    SlotIs(Upserted(fees, t, c), t, Slot(fees, t));
  }

  lemma UpsertLeavesOthers(fees: seq<FeeRow>, t: FeeType, c: Charge, other: FeeType)
    requires other != t
    ensures EstimateRow(Upserted(fees, t, c), other) == EstimateRow(fees, other)
  {
    var k := Slot(fees, other);
    SlotIs(Upserted(fees, t, c), other, if k < |fees| then k else |Upserted(fees, t, c)|);
  }

  lemma DeleteLeavesOthers(fees: seq<FeeRow>, t: FeeType, other: FeeType)
    requires other != t
    ensures EstimateRow(Deleted(fees, t), other) == EstimateRow(fees, other)
  {
    var d, k := Slot(fees, t), Slot(fees, other);
    var left := Deleted(fees, t);
    if d < |fees| {
      assert forall i :: 0 <= i < |left| ==> left[i] == if i < d then fees[i] else fees[i + 1];
      SlotIs(left, other, if k == |fees| then |left| else if k < d then k else k - 1);
    }
  }

  /** The row of a type already says what the charge would write. */
  predicate Carries(fees: seq<FeeRow>, t: FeeType, c: Charge) {
    EstimateRow(fees, t).Some? && Revised(EstimateRow(fees, t).value, c) == EstimateRow(fees, t).value
  }

  /** A write is carried at once, and writing what is carried changes nothing. */
  lemma UpsertIsIdempotent(fees: seq<FeeRow>, t: FeeType, c: Charge)
    ensures Carries(Upserted(fees, t, c), t, c)
    ensures Carries(fees, t, c) ==> Upserted(fees, t, c) == fees
  {
    UpsertSets(fees, t, c);
  }

  // ─── Many writes of one type ──────────────────────────────────────────

  function UpsertedInTurn(fees: seq<FeeRow>, t: FeeType, cs: seq<Charge>): seq<FeeRow> {
    if cs == [] then fees else Upserted(UpsertedInTurn(fees, t, cs[..|cs| - 1]), t, cs[|cs| - 1])
  }

  /** The last rate that a charge named, or the one that was stored. */
  function LastRate(cs: seq<Charge>, stored: Rate): Rate {
    if cs == [] then stored
    else if cs[|cs| - 1].vatRate.Some? then cs[|cs| - 1].vatRate.value
    else LastRate(cs[..|cs| - 1], stored)
  }

  function LastDirection(cs: seq<Charge>, stored: Direction): Direction {
    if cs == [] then stored
    else if cs[|cs| - 1].setsDirection then cs[|cs| - 1].direction
    else LastDirection(cs[..|cs| - 1], stored)
  }

  /**
   However often the row of a type is written again, its amount is the last one, its rate and
   direction the last ones named, and its source and confirmation are not touched.
   */
  lemma {:induction false} RewritesKeepTheRest(fees: seq<FeeRow>, t: FeeType, cs: seq<Charge>, r: FeeRow)
    requires EstimateRow(fees, t) == Some(r) && cs != []
    ensures EstimateRow(UpsertedInTurn(fees, t, cs), t)
         == Some(FeeRow(t, ESTIMATE, LastDirection(cs, r.direction), cs[|cs| - 1].amountGross, LastRate(cs, r.vatRate), r.confirmed))
  {
    var pre, last := cs[..|cs| - 1], cs[|cs| - 1];
    if pre != [] { RewritesKeepTheRest(fees, t, pre, r); }
    UpsertSets(UpsertedInTurn(fees, t, pre), t, last);
  }

  /** The first write makes an unconfirmed estimate, with the charge's direction, and no VAT unless it names a rate. */
  lemma FirstWriteMakesAnEstimate(fees: seq<FeeRow>, t: FeeType, c: Charge)
    requires EstimateRow(fees, t) == None
    ensures EstimateRow(Upserted(fees, t, c), t)
         == Some(FeeRow(t, ESTIMATE, c.direction, c.amountGross, if c.vatRate.Some? then c.vatRate.value else 0.0, false))
  {
    UpsertSets(fees, t, c);
  }

  // ─── Which rows a computation reads ───────────────────────────────────

  function Kept(fees: seq<FeeRow>, keep: FeeRow -> bool): (kept: seq<FeeRow>) {
    if fees == [] then []
    else
      var rest, r := Kept(fees[..|fees| - 1], keep), fees[|fees| - 1];
      if keep(r) then rest + [r] else rest
  }

  predicate Estimated(r: FeeRow) { r.source == ESTIMATE }

  /** Settlement reads invoiced rows and confirmed estimates. */
  predicate Settles(r: FeeRow) { Actual(r.source) || (r.source == ESTIMATE && r.confirmed) }

  lemma {:induction false} KeptAlike(fees: seq<FeeRow>, p: FeeRow -> bool, q: FeeRow -> bool)
    requires forall i :: 0 <= i < |fees| ==> p(fees[i]) == q(fees[i])
    ensures Kept(fees, p) == Kept(fees, q)
  {
    if fees != [] { KeptAlike(fees[..|fees| - 1], p, q); }
  }

  lemma {:induction false} KeptAll(fees: seq<FeeRow>, p: FeeRow -> bool)
    requires forall i :: 0 <= i < |fees| ==> p(fees[i])
    ensures Kept(fees, p) == fees
  {
    if fees == [] {
    } else {
      KeptAll(fees[..|fees| - 1], p);
      assert fees == fees[..|fees| - 1] + [fees[|fees| - 1]];
    }
  }

  lemma {:induction false} KeptMember(fees: seq<FeeRow>, p: FeeRow -> bool, r: FeeRow)
    ensures r in Kept(fees, p) <==> r in fees && p(r)
  {
    if fees == [] {
    } else {
      KeptMember(fees[..|fees| - 1], p, r);
      assert fees == fees[..|fees| - 1] + [fees[|fees| - 1]];
    }
  }
}
