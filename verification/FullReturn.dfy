/**
 What an accepted claim writes: every accepted unit returns its own share of its line,
 in whatever order the units are read, and what a full return leaves of an order.
 */
module FullReturn {
  import opened Options
  import opened Money
  import opened ProfitFormula
  import opened ReturnLegs
  import opened Breakdown
  import opened FeeTable
  import opened OrderProfit
  import opened FeeRuns

  /** The legs taken from the order lines. */
  predicate LineLeg(leg: ReturnLeg) { leg == REFUND_DEDUCTION || leg == COMMISSION_REFUND || leg == COST_RETURN }

  /** What one accepted unit of a line returns. */
  function UnitShare(lines: seq<ProfitLine>, leg: ReturnLeg, id: nat): real {
    var part := PartOf(lines, leg, Units(id, 1));
    if part.Some? then part.value.gross else 0.0
  }

  function ShareOf(lines: seq<ProfitLine>, leg: ReturnLeg): nat -> real { (id: nat) => UnitShare(lines, leg, id) }

  function Shares(share: nat -> real, accepted: seq<nat>): real {
    if accepted == [] then 0.0 else Shares(share, accepted[..|accepted| - 1]) + share(accepted[|accepted| - 1])
  }

  lemma OneUnitMore(x: real, count: nat, quantity: nat)
    requires quantity > 0
    ensures x * ((count + 1) as real / quantity as real)
         == x * (count as real / quantity as real) + x * (1 as real / quantity as real)
  {
    var q := quantity as real;
    assert (count + 1) as real / q == count as real / q + 1.0 / q;
  }

  lemma LegPartIsLinear(l: ProfitLine, leg: ReturnLeg, count: nat)
    ensures var less, more, one := LegPart(l, leg, count), LegPart(l, leg, count + 1), LegPart(l, leg, 1);
            && (less.Some? <==> more.Some?) && (one.Some? <==> more.Some?)
            && (more.Some? ==> more.value.gross == less.value.gross + one.value.gross && more.value.vatRate == less.value.vatRate)
  {
    match leg
    case REFUND_DEDUCTION => if l.quantity > 0 { OneUnitMore(l.lineSaleGross.GetOr(0.0), count, l.quantity); }
    case COMMISSION_REFUND => if l.quantity > 0 { OneUnitMore(l.commissionGross, count, l.quantity); }
    case _ =>
  }

  lemma {:induction false} CountUpAddsAShare(lines: seq<ProfitLine>, leg: ReturnLeg, tally: seq<Units>, k: nat)
    requires k < |tally|
    ensures Accumulated(lines, leg, tally[k := tally[k].(count := tally[k].count + 1)]).gross
         == Accumulated(lines, leg, tally).gross + UnitShare(lines, leg, tally[k].line)
  {
    var n, u := |tally| - 1, tally[k].(count := tally[k].count + 1);
    var up := tally[k := u];
    if k == n {
      assert up[..n] == tally[..n];
      var found := FindLine(lines, u.line);
      if found.Some? { LegPartIsLinear(found.value, leg, tally[k].count); }
    } else {
      assert up[..n] == tally[..n][k := u] && up[n] == tally[n];
      CountUpAddsAShare(lines, leg, tally[..n], k);
    }
  }

  lemma AppendAdds(lines: seq<ProfitLine>, leg: ReturnLeg, tally: seq<Units>, u: Units)
    ensures Accumulated(lines, leg, tally + [u]).gross
         == Accumulated(lines, leg, tally).gross + if PartOf(lines, leg, u).Some? then PartOf(lines, leg, u).value.gross else 0.0
  {
    var more := tally + [u];
    assert more[..|more| - 1] == tally && more[|more| - 1] == u;
  }

  lemma AddUnitAddsAShare(lines: seq<ProfitLine>, leg: ReturnLeg, tally: seq<Units>, id: nat)
    ensures Accumulated(lines, leg, AddUnit(tally, id)).gross == Accumulated(lines, leg, tally).gross + UnitShare(lines, leg, id)
  {
    var k := TallySlot(tally, id);
    if k < |tally| {
      CountUpAddsAShare(lines, leg, tally, k);
    } else {
      AppendAdds(lines, leg, tally, Units(id, 1));
    }
  }

  /** A leg is the sum of the accepted units' own shares. */
  lemma {:induction false} EachUnitReturnsItsShare(lines: seq<ProfitLine>, leg: ReturnLeg, accepted: seq<nat>)
    ensures Accumulated(lines, leg, TallyOf(accepted)).gross == Shares(ShareOf(lines, leg), accepted)
  {
    if accepted == [] {
      assert TallyOf(accepted) == [];
    } else {
      EachUnitReturnsItsShare(lines, leg, accepted[..|accepted| - 1]);
      AddUnitAddsAShare(lines, leg, TallyOf(accepted[..|accepted| - 1]), accepted[|accepted| - 1]);
    }
  }

  lemma {:induction false} SharesConcat(share: nat -> real, a: seq<nat>, b: seq<nat>)
    ensures Shares(share, a + b) == Shares(share, a) + Shares(share, b)
  {
    if b == [] {
      assert a + b == a;
    } else {
      assert (a + b)[..|a + b| - 1] == a + b[..|b| - 1];
      SharesConcat(share, a, b[..|b| - 1]);
    }
  }

  lemma DropOne(a: seq<nat>, b: seq<nat>, j: nat)
    requires a != [] && j < |b| && b[j] == a[|a| - 1] && multiset(a) == multiset(b)
    ensures multiset(a[..|a| - 1]) == multiset(b[..j] + b[j + 1..])
  {
    var x, pre, left, right := b[j], a[..|a| - 1], b[..j], b[j + 1..];
    assert a == pre + [x];
    assert b == left + [x] + right;
    assert multiset(pre) + multiset{x} == multiset(left) + multiset(right) + multiset{x};
    var m, n := multiset(pre), multiset(left) + multiset(right);
    assert m == (m + multiset{x}) - multiset{x} && n == (n + multiset{x}) - multiset{x};
    assert multiset(left + right) == n;
  }

  lemma SharesWithoutOne(share: nat -> real, b: seq<nat>, j: nat)
    requires j < |b|
    ensures Shares(share, b) == Shares(share, b[..j] + b[j + 1..]) + share(b[j])
  {
    var upTo := b[..j + 1];
    assert b == upTo + b[j + 1..];
    assert upTo[..|upTo| - 1] == b[..j] && upTo[|upTo| - 1] == b[j];
    SharesConcat(share, upTo, b[j + 1..]);
    SharesConcat(share, b[..j], b[j + 1..]);
  }

  lemma {:induction false} SharesPermute(share: nat -> real, a: seq<nat>, b: seq<nat>)
    requires multiset(a) == multiset(b)
    ensures Shares(share, a) == Shares(share, b)
  {
    if a == [] {
      assert |multiset(b)| == 0;
    } else {
      assert a[|a| - 1] in multiset(b);
      var j :| 0 <= j < |b| && b[j] == a[|a| - 1];
      DropOne(a, b, j);
      SharesPermute(share, a[..|a| - 1], b[..j] + b[j + 1..]);
      SharesWithoutOne(share, b, j);
    }
  }

  /** The claim items carry no order: any reading order writes the same amounts. */
  lemma ClaimOrderIsIrrelevant(lines: seq<ProfitLine>, leg: ReturnLeg, a: seq<nat>, b: seq<nat>)
    requires multiset(a) == multiset(b)
    ensures Accumulated(lines, leg, TallyOf(a)).gross == Accumulated(lines, leg, TallyOf(b)).gross
  {
    EachUnitReturnsItsShare(lines, leg, a);
    EachUnitReturnsItsShare(lines, leg, b);
    SharesPermute(ShareOf(lines, leg), a, b);
  }

  // ─── The rate of a leg ────────────────────────────────────────────────

  /** The VAT rate a line brings to a leg; None when the line adds nothing to it. */
  function RateOf(lines: seq<ProfitLine>, leg: ReturnLeg, id: nat): Option<Rate> {
    match PartOf(lines, leg, Units(id, 1)) case None => None case Some(part) => Some(part.vatRate)
  }

  lemma CountKeepsRate(lines: seq<ProfitLine>, leg: ReturnLeg, u: Units)
    ensures RateOf(lines, leg, u.line) == if PartOf(lines, leg, u).Some? then Some(PartOf(lines, leg, u).value.vatRate) else None
  {
    match FindLine(lines, u.line)
    case None =>
    case Some(l) =>
      match leg
      case REFUND_DEDUCTION =>
      case COMMISSION_REFUND =>
      case COST_RETURN =>
      case _ =>
  }

  predicate HasEntry(tally: seq<Units>, id: nat) { exists i :: 0 <= i < |tally| && tally[i].line == id }

  /** The tally has an entry for exactly the accepted lines. */
  lemma {:induction false} TallyHasLine(accepted: seq<nat>, id: nat)
    ensures HasEntry(TallyOf(accepted), id) <==> id in accepted
  {
    if accepted == [] {
      assert TallyOf(accepted) == [];
    } else {
      var pre, last := accepted[..|accepted| - 1], accepted[|accepted| - 1];
      var before := TallyOf(pre);
      TallyHasLine(pre, id);
      assert accepted == pre + [last];
      TallyGains(before, last, id);
    }
  }

  lemma TallyGains(tally: seq<Units>, last: nat, id: nat)
    ensures HasEntry(AddUnit(tally, last), id) <==> id == last || HasEntry(tally, id)
  {
    var k, more := TallySlot(tally, last), AddUnit(tally, last);
    assert k < |more| && more[k].line == last;
    assert forall i :: 0 <= i < |tally| ==> more[i].line == tally[i].line;
  }

  /** Entries that all bring rate `q`, or nothing, leave the leg at `q`, or at zero when none brings anything. */
  lemma {:induction false} SharedRate(lines: seq<ProfitLine>, leg: ReturnLeg, tally: seq<Units>, q: Rate)
    requires forall i :: 0 <= i < |tally| && RateOf(lines, leg, tally[i].line).Some? ==>
               RateOf(lines, leg, tally[i].line) == Some(q)
    ensures Accumulated(lines, leg, tally).vatRate
         == if exists i :: 0 <= i < |tally| && RateOf(lines, leg, tally[i].line).Some? then q else 0.0
  {
    if tally == [] {
    } else {
      SharedRate(lines, leg, tally[..|tally| - 1], q);
      CountKeepsRate(lines, leg, tally[|tally| - 1]);
    }
  }

  /** The same units with those of line `x` read last. */
  function PutLast(accepted: seq<nat>, x: nat): (put: seq<nat>)
    ensures |put| == |accepted| && multiset(put) == multiset(accepted)
  {
    if accepted == [] then []
    else
      var last, rest := accepted[|accepted| - 1], PutLast(accepted[..|accepted| - 1], x);
      assert accepted == accepted[..|accepted| - 1] + [last];
      if last == x then rest + [last] else [last] + rest
  }

  /** From position `m` on all units are of line `x`, before it none is. */
  predicate EndsWith(accepted: seq<nat>, x: nat, m: nat) {
    && m < |accepted|
    && (forall i :: 0 <= i < m ==> accepted[i] != x)
    && (forall i :: m <= i < |accepted| ==> accepted[i] == x)
  }

  lemma {:induction false} PutLastEndsWith(accepted: seq<nat>, x: nat) returns (m: nat)
    ensures x in accepted ==> EndsWith(PutLast(accepted, x), x, m)
    ensures x !in accepted ==> m == |accepted| && forall i :: 0 <= i < m ==> PutLast(accepted, x)[i] != x
  {
    m := 0;
    if accepted != [] {
      var pre, last := accepted[..|accepted| - 1], accepted[|accepted| - 1];
      assert accepted == pre + [last];
      m := PutLastEndsWith(pre, x);
      if last != x { m := m + 1; }
    }
  }

  /** When the units of line `x` come last, its entry is the last of the tally. */
  lemma {:induction false} LastEntry(accepted: seq<nat>, x: nat, m: nat)
    requires EndsWith(accepted, x, m)
    ensures var tally := TallyOf(accepted); tally != [] && tally[|tally| - 1].line == x
    ensures var tally := TallyOf(accepted); forall i :: 0 <= i < |tally| - 1 ==> tally[i].line != x
  {
    var pre := accepted[..|accepted| - 1];
    if m == |accepted| - 1 {
      TallyHasLine(pre, x);
      assert !HasEntry(TallyOf(pre), x);
    } else {
      LastEntry(pre, x, m);
    }
  }

  lemma LastLineRules(lines: seq<ProfitLine>, leg: ReturnLeg, accepted: seq<nat>, x: nat, m: nat)
    requires EndsWith(accepted, x, m) && RateOf(lines, leg, x).Some?
    ensures Accumulated(lines, leg, TallyOf(accepted)).vatRate == RateOf(lines, leg, x).value
  {
    LastEntry(accepted, x, m);
    CountKeepsRate(lines, leg, TallyOf(accepted)[|TallyOf(accepted)| - 1]);
  }

  /** All accepted lines that add to the leg bring one rate. */
  predicate OneLegRate(lines: seq<ProfitLine>, leg: ReturnLeg, accepted: seq<nat>) {
    forall x, y :: x in accepted && y in accepted && RateOf(lines, leg, x).Some? && RateOf(lines, leg, y).Some? ==>
      RateOf(lines, leg, x) == RateOf(lines, leg, y)
  }

  /** The leg's rate is the same in whatever order the claim's units are read. */
  ghost predicate RateIgnoresOrder(lines: seq<ProfitLine>, leg: ReturnLeg, accepted: seq<nat>) {
    forall other: seq<nat> :: multiset(other) == multiset(accepted) ==>
      Accumulated(lines, leg, TallyOf(other)).vatRate == Accumulated(lines, leg, TallyOf(accepted)).vatRate
  }

  lemma {:induction false} SameUnits(a: seq<nat>, b: seq<nat>, x: nat)
    requires multiset(a) == multiset(b)
    ensures x in a <==> x in b
  {
    assert x in multiset(a) <==> x in multiset(b);
  }

  lemma OneRateOfUnits(lines: seq<ProfitLine>, leg: ReturnLeg, accepted: seq<nat>, q: Rate)
    requires forall x :: x in accepted && RateOf(lines, leg, x).Some? ==> RateOf(lines, leg, x) == Some(q)
    ensures Accumulated(lines, leg, TallyOf(accepted)).vatRate
         == if exists x :: x in accepted && RateOf(lines, leg, x).Some? then q else 0.0
  {
    var tally := TallyOf(accepted);
    forall i | 0 <= i < |tally|
      ensures tally[i].line in accepted
    {
      assert HasEntry(tally, tally[i].line);
      TallyHasLine(accepted, tally[i].line);
    }
    if x :| x in accepted && RateOf(lines, leg, x).Some? { TallyHasLine(accepted, x); }
    SharedRate(lines, leg, tally, q);
  }

  /** What is written as the leg's VAT rate depends on the reading order exactly when two accepted lines bring different rates. */
  lemma RateIgnoresOrderIff(lines: seq<ProfitLine>, leg: ReturnLeg, accepted: seq<nat>)
    ensures RateIgnoresOrder(lines, leg, accepted) <==> OneLegRate(lines, leg, accepted)
  {
    if RateIgnoresOrder(lines, leg, accepted) {
      forall x, y | x in accepted && y in accepted && RateOf(lines, leg, x).Some? && RateOf(lines, leg, y).Some?
        ensures RateOf(lines, leg, x) == RateOf(lines, leg, y)
      {
        var m := PutLastEndsWith(accepted, x);
        LastLineRules(lines, leg, PutLast(accepted, x), x, m);
        m := PutLastEndsWith(accepted, y);
        LastLineRules(lines, leg, PutLast(accepted, y), y, m);
      }
    }
    if OneLegRate(lines, leg, accepted) { OneRateIgnoresOrder(lines, leg, accepted); }
  }

  lemma OneRateIgnoresOrder(lines: seq<ProfitLine>, leg: ReturnLeg, accepted: seq<nat>)
    requires OneLegRate(lines, leg, accepted)
    ensures RateIgnoresOrder(lines, leg, accepted)
  {
    var q: Rate := 0.0;
    if x :| x in accepted && RateOf(lines, leg, x).Some? { q := RateOf(lines, leg, x).value; }
    OneRateOfUnits(lines, leg, accepted, q);
    forall other: seq<nat> | multiset(other) == multiset(accepted)
      ensures Accumulated(lines, leg, TallyOf(other)).vatRate == Accumulated(lines, leg, TallyOf(accepted)).vatRate
    {
      forall x ensures x in other <==> x in accepted { SameUnits(other, accepted, x); }
      OneRateOfUnits(lines, leg, other, q);
    }
  }

  /** With two lines of different rates, the one read last wins. */
  lemma LastLineSetsTheRate(a: ProfitLine, b: ProfitLine)
    requires a.id != b.id && a.lineSaleGross.Some? && b.lineSaleGross.Some?
    ensures Accumulated([a, b], REFUND_DEDUCTION, TallyOf([a.id, b.id])).vatRate == b.saleVatRate
    ensures Accumulated([a, b], REFUND_DEDUCTION, TallyOf([b.id, a.id])).vatRate == a.saleVatRate
  {
    FindTwo(a, b);
    LastLineRules([a, b], REFUND_DEDUCTION, [a.id, b.id], b.id, 1);
    LastLineRules([a, b], REFUND_DEDUCTION, [b.id, a.id], a.id, 1);
  }

  lemma FindTwo(a: ProfitLine, b: ProfitLine)
    requires a.id != b.id
    ensures FindLine([a, b], a.id) == Some(a) && FindLine([a, b], b.id) == Some(b)
  {
    assert [a, b][..1] == [a];
    assert FindLine([a], a.id) == Some(a);
  }

  // ─── The overseas fee ─────────────────────────────────────────────────

  /** One accepted unit's overseas fee; None when its unit price has no tier. */
  function UnitFee(lines: seq<ProfitLine>, tiers: seq<Tier>, id: nat): Option<real> { OverseasPart(lines, Units(id, 1), tiers) }

  function FeeOf(lines: seq<ProfitLine>, tiers: seq<Tier>): nat -> real { (id: nat) => UnitFee(lines, tiers, id).GetOr(0.0) }

  predicate AllTiered(lines: seq<ProfitLine>, tiers: seq<Tier>, accepted: seq<nat>) {
    forall i :: 0 <= i < |accepted| ==> UnitFee(lines, tiers, accepted[i]).Some?
  }

  function Positive(x: real): real { if x > 0.0 then x else 0.0 }

  lemma SharedFee(sale: real, commission: real, count: nat, quantity: nat, rate: real)
    requires quantity > 0
    ensures var share, more, one :=
              count as real / quantity as real, (count + 1) as real / quantity as real, 1 as real / quantity as real;
            KeptFee(sale, commission, more, rate) == KeptFee(sale, commission, share, rate) + KeptFee(sale, commission, one, rate)
  {
    var k := sale - commission;
    OneUnitMore(k, count, quantity);
    var share, more, one :=
      count as real / quantity as real, (count + 1) as real / quantity as real, 1 as real / quantity as real;
    assert sale * more - commission * more == k * more;
    assert sale * share - commission * share == k * share;
    assert sale * one - commission * one == k * one;
    assert share >= 0.0 && more > 0.0 && one > 0.0;
    if k > 0.0 {
      assert k * share >= 0.0 && k * more >= 0.0 && k * one >= 0.0;
      assert Positive(k * more) == Positive(k * share) + Positive(k * one);
    } else {
      assert k * share <= 0.0 && k * more <= 0.0 && k * one <= 0.0;
    }
  }

  lemma OverseasPartGrows(lines: seq<ProfitLine>, tiers: seq<Tier>, id: nat, count: nat)
    ensures var less, more, one := OverseasPart(lines, Units(id, count), tiers), OverseasPart(lines, Units(id, count + 1), tiers),
                                   UnitFee(lines, tiers, id);
            && (less.Some? <==> more.Some?) && (one.Some? <==> more.Some?)
            && (more.Some? ==> more.value == less.value + one.value)
  {
    match FindLine(lines, id)
    case None =>
    case Some(l) =>
      if l.lineSaleGross.Some? && l.quantity > 0 {
        var rate := TierRate(tiers, l.lineSaleGross.value / l.quantity as real);
        if rate.Some? {
          SharedFee(l.lineSaleGross.value, l.commissionGross - l.refundedCommissionGross, count, l.quantity, rate.value);
        }
      }
  }

  lemma {:induction false} CountUpAddsAFee(lines: seq<ProfitLine>, tiers: seq<Tier>, tally: seq<Units>, k: nat)
    requires k < |tally|
    ensures var less, more := OverseasGross(lines, tally, tiers),
                              OverseasGross(lines, tally[k := tally[k].(count := tally[k].count + 1)], tiers);
            && (less.Some? <==> more.Some?)
            && (more.Some? ==> UnitFee(lines, tiers, tally[k].line).Some?
                               && more.value == less.value + UnitFee(lines, tiers, tally[k].line).value)
  {
    var n, u := |tally| - 1, tally[k].(count := tally[k].count + 1);
    var up := tally[k := u];
    if k == n {
      assert up[..n] == tally[..n];
      OverseasPartGrows(lines, tiers, u.line, tally[k].count);
    } else {
      assert up[..n] == tally[..n][k := u] && up[n] == tally[n];
      CountUpAddsAFee(lines, tiers, tally[..n], k);
    }
  }

  lemma AddUnitAddsAFee(lines: seq<ProfitLine>, tiers: seq<Tier>, tally: seq<Units>, id: nat)
    ensures var less, more, one := OverseasGross(lines, tally, tiers), OverseasGross(lines, AddUnit(tally, id), tiers),
                                   UnitFee(lines, tiers, id);
            && (more.Some? <==> less.Some? && one.Some?)
            && (more.Some? ==> more.value == less.value + one.value)
  {
    var k := TallySlot(tally, id);
    if k < |tally| {
      CountUpAddsAFee(lines, tiers, tally, k);
    } else {
      var more := tally + [Units(id, 1)];
      assert more[..|tally|] == tally;
    }
  }

  /**
   The overseas fee is the sum of the accepted units' own fees, in whatever order they are
   read; it cannot be computed exactly when one unit's price has no tier.
   */
  lemma {:induction false} EachUnitPaysItsFee(lines: seq<ProfitLine>, tiers: seq<Tier>, accepted: seq<nat>)
    ensures OverseasGross(lines, TallyOf(accepted), tiers)
         == if AllTiered(lines, tiers, accepted) then Some(Shares(FeeOf(lines, tiers), accepted)) else None
  {
    if accepted == [] {
      assert TallyOf(accepted) == [] && Shares(FeeOf(lines, tiers), accepted) == 0.0;
    } else {
      var pre, id := accepted[..|accepted| - 1], accepted[|accepted| - 1];
      EachUnitPaysItsFee(lines, tiers, pre);
      AddUnitAddsAFee(lines, tiers, TallyOf(pre), id);
      FeesGrow(lines, tiers, accepted);
    }
  }

  lemma FeesGrow(lines: seq<ProfitLine>, tiers: seq<Tier>, accepted: seq<nat>)
    requires accepted != []
    ensures var pre, one := accepted[..|accepted| - 1], UnitFee(lines, tiers, accepted[|accepted| - 1]);
            && (AllTiered(lines, tiers, accepted) <==> AllTiered(lines, tiers, pre) && one.Some?)
            && Shares(FeeOf(lines, tiers), accepted) == Shares(FeeOf(lines, tiers), pre) + one.GetOr(0.0)
  {
    assert FeeOf(lines, tiers)(accepted[|accepted| - 1]) == UnitFee(lines, tiers, accepted[|accepted| - 1]).GetOr(0.0);
  }

  // ─── A full return ────────────────────────────────────────────────────

  function Repeated(id: nat, n: nat): seq<nat> { if n == 0 then [] else Repeated(id, n - 1) + [id] }

  /** Every unit of every line, one claim item each. */
  function AllUnits(lines: seq<ProfitLine>): seq<nat> {
    if lines == [] then []
    else AllUnits(lines[..|lines| - 1]) + Repeated(lines[|lines| - 1].id, lines[|lines| - 1].quantity)
  }

  function LineTotal(l: ProfitLine, leg: ReturnLeg): real {
    match leg
    case REFUND_DEDUCTION => l.lineSaleGross.GetOr(0.0)
    case COMMISSION_REFUND => l.commissionGross
    case COST_RETURN => l.unitCostGross.GetOr(0.0) * l.quantity as real
    case _ => 0.0
  }

  function OrderTotal(lines: seq<ProfitLine>, leg: ReturnLeg): real {
    if lines == [] then 0.0 else OrderTotal(lines[..|lines| - 1], leg) + LineTotal(lines[|lines| - 1], leg)
  }

  /** ProfitLine ids are distinct and every line has at least one unit. */
  ghost predicate ProperLines(lines: seq<ProfitLine>) {
    && (forall i, j :: 0 <= i < j < |lines| ==> lines[i].id != lines[j].id)
    && (forall i :: 0 <= i < |lines| ==> lines[i].quantity > 0)
  }

  lemma OnceMore(n: nat, u: real)
    ensures (n + 1) as real * u == n as real * u + u
  {
  }

  lemma {:induction false} RepeatedShares(share: nat -> real, id: nat, n: nat)
    ensures Shares(share, Repeated(id, n)) == n as real * share(id)
  {
    if n > 0 {
      RepeatedShares(share, id, n - 1);
      assert Repeated(id, n)[..|Repeated(id, n)| - 1] == Repeated(id, n - 1);
      OnceMore(n - 1, share(id));
    }
  }

  lemma {:induction false} FindsItsLine(lines: seq<ProfitLine>, k: nat)
    requires ProperLines(lines) && k < |lines|
    ensures FindLine(lines, lines[k].id) == Some(lines[k])
  {
    if k < |lines| - 1 { FindsItsLine(lines[..|lines| - 1], k); }
  }

  lemma WholeOf(x: real, n: nat)
    requires n > 0
    ensures n as real * (x * (1 as real / n as real)) == x
  {
    var q := n as real;
    assert q * (x * (1.0 / q)) == x * (q * (1.0 / q));
  }

  lemma UnitsMakeTheLine(lines: seq<ProfitLine>, leg: ReturnLeg, k: nat)
    requires ProperLines(lines) && k < |lines| && LineLeg(leg)
    ensures lines[k].quantity as real * UnitShare(lines, leg, lines[k].id) == LineTotal(lines[k], leg)
  {
    FindsItsLine(lines, k);
    var l := lines[k];
    match leg
    case REFUND_DEDUCTION => WholeOf(l.lineSaleGross.GetOr(0.0), l.quantity);
    case COMMISSION_REFUND => WholeOf(l.commissionGross, l.quantity);
    case COST_RETURN => UnitCostTimes(l);
  }

  lemma UnitCostTimes(l: ProfitLine)
    ensures l.unitCostGross.Some? ==>
              l.quantity as real * (l.unitCostGross.value * 1 as real) == l.unitCostGross.value * l.quantity as real
  {
  }

  lemma LineShares(lines: seq<ProfitLine>, leg: ReturnLeg, k: nat)
    requires ProperLines(lines) && k < |lines| && LineLeg(leg)
    ensures Shares(ShareOf(lines, leg), Repeated(lines[k].id, lines[k].quantity)) == LineTotal(lines[k], leg)
  {
    RepeatedShares(ShareOf(lines, leg), lines[k].id, lines[k].quantity);
    UnitsMakeTheLine(lines, leg, k);
  }

  lemma NothingAccepted(lines: seq<ProfitLine>, leg: ReturnLeg)
    ensures Shares(ShareOf(lines, leg), AllUnits([])) == OrderTotal([], leg)
  {
    assert AllUnits([]) == [];
  }

  lemma OrderGrows(lines: seq<ProfitLine>, leg: ReturnLeg, n: nat)
    requires n < |lines|
    ensures AllUnits(lines[..n + 1]) == AllUnits(lines[..n]) + Repeated(lines[n].id, lines[n].quantity)
    ensures OrderTotal(lines[..n + 1], leg) == OrderTotal(lines[..n], leg) + LineTotal(lines[n], leg)
  {
    assert lines[..n + 1][..n] == lines[..n];
  }

  lemma {:induction false} AllUnitsMakeTheOrder(lines: seq<ProfitLine>, leg: ReturnLeg, n: nat)
    requires ProperLines(lines) && n <= |lines| && LineLeg(leg)
    ensures Shares(ShareOf(lines, leg), AllUnits(lines[..n])) == OrderTotal(lines[..n], leg)
  {
    if n == 0 {
      NothingAccepted(lines, leg);
      assert lines[..n] == [];
    } else {
      AllUnitsMakeTheOrder(lines, leg, n - 1);
      OrderGrows(lines, leg, n - 1);
      SharesConcat(ShareOf(lines, leg), AllUnits(lines[..n - 1]), Repeated(lines[n - 1].id, lines[n - 1].quantity));
      LineShares(lines, leg, n - 1);
    }
  }

  /** A claim over every unit returns the order's whole sale, commission and cost. */
  lemma FullClaimReturnsEverything(lines: seq<ProfitLine>, leg: ReturnLeg, accepted: seq<nat>)
    requires ProperLines(lines) && LineLeg(leg) && multiset(accepted) == multiset(AllUnits(lines))
    ensures Accumulated(lines, leg, TallyOf(accepted)).gross == OrderTotal(lines, leg)
  {
    EachUnitReturnsItsShare(lines, leg, accepted);
    SharesPermute(ShareOf(lines, leg), accepted, AllUnits(lines));
    AllUnitsMakeTheOrder(lines, leg, |lines|);
    assert lines[..|lines|] == lines;
  }

  lemma {:induction false} NoEstimateNoSum(fees: seq<FeeRow>, leg: ReturnLeg)
    requires forall i :: 0 <= i < |fees| ==> !IsEstimate(fees[i], Return(leg))
    ensures SumCounting(fees, leg, false) == MoneyPair(0.0, 0.0)
  {
    if fees != [] { NoEstimateNoSum(fees[..|fees| - 1], leg); }
  }

  /** With one estimate per type and nothing invoiced, a leg is its one row. */
  lemma {:induction false} LegIsItsRow(fees: seq<FeeRow>, leg: ReturnLeg)
    requires OneEstimateEach(fees) && EstimateRow(fees, Return(leg)).Some?
    ensures SumCounting(fees, leg, false).gross == EstimateRow(fees, Return(leg)).value.amountGross
  {
    var n, k := |fees| - 1, Slot(fees, Return(leg));
    if k == n {
      NoEstimateNoSum(fees[..n], leg);
    } else {
      SlotIs(fees[..n], Return(leg), k);
      LegIsItsRow(fees[..n], leg);
    }
  }

  lemma CarriedAmount(fees: seq<FeeRow>, t: FeeType, c: Charge)
    requires Carries(fees, t, c)
    ensures EstimateRow(fees, t).value.amountGross == c.amountGross
  {
  }

  lemma DomesticReturnWritesTheLeg(fees: seq<FeeRow>, inputs: Inputs, claim: Claim, leg: ReturnLeg)
    requires OneEstimateEach(fees) && DomesticReturn(fees, inputs, claim).Some?
    requires LineLeg(leg) && Accumulated(inputs.order.lines, leg, TallyOf(claim.accepted)).gross > 0.0
    ensures var acc := Accumulated(inputs.order.lines, leg, TallyOf(claim.accepted));
            Carries(DomesticReturn(fees, inputs, claim).value, Return(leg), LegCharge(leg, acc.gross, Some(acc.vatRate)))
  {
    var lines, tally := inputs.order.lines, TallyOf(claim.accepted);
    var refund := Accumulated(lines, REFUND_DEDUCTION, tally);
    var f1 := WithLineLegs(fees, lines, tally);
    LineLegsFrame(fees, lines, tally);
    var f2 := WithStoppageRefund(f1, refund, inputs.book).value;
    StoppageRefundFrame(f1, refund, inputs.book, f1);
    ReturnShippingFrame(f2, claim.returnShippingNet, inputs.book, f2);
    var f3 := WithReturnShipping(f2, claim.returnShippingNet, inputs.book).value;
    assert EstimateRow(f3, Return(leg)) == EstimateRow(f2, Return(leg)) == EstimateRow(f1, Return(leg));
  }

  /** The row of a positive line leg right after a domestic return estimate. */
  lemma ReturnWritesTheLeg(s: Sheet, inputs: Inputs, live: RawSettings, claim: Claim, t: Sheet, leg: ReturnLeg)
    requires OneEstimateEach(s.fees) && EstimateReturn(s, inputs, live, claim) == Some(t)
    requires !inputs.order.excluded && !inputs.order.micro && claim.accepted != []
    requires LineLeg(leg) && Accumulated(inputs.order.lines, leg, TallyOf(claim.accepted)).gross > 0.0
    ensures var row := EstimateRow(t.fees, Return(leg));
            && row.Some?
            && row.value.amountGross == Round2(Accumulated(inputs.order.lines, leg, TallyOf(claim.accepted)).gross)
  {
    var acc := Accumulated(inputs.order.lines, leg, TallyOf(claim.accepted));
    var fees := DomesticReturn(s.fees, inputs, claim).value;
    DomesticReturnWritesTheLeg(s.fees, inputs, claim, leg);
    CarriedAmount(fees, Return(leg), LegCharge(leg, acc.gross, Some(acc.vatRate)));
    DomesticReturnFrame(s.fees, inputs, claim);
    EstimatedFeesFrame(fees, inputs, EffectiveSettings(s.(fees := fees), inputs, live));
  }

  /** A claim over every unit of a domestic order that takes part in profit. */
  ghost predicate FullDomesticClaim(o: OrderRow, claim: Claim) {
    && !o.excluded && !o.micro && claim.accepted != []
    && ProperLines(o.lines) && multiset(claim.accepted) == multiset(AllUnits(o.lines))
  }

  /** After a full domestic return of a positive, whole-cent total, the resolved leg is that total. */
  lemma FullReturnLeg(s: Sheet, inputs: Inputs, live: RawSettings, claim: Claim, t: Sheet, leg: ReturnLeg, cents: int)
    requires OneEstimateEach(s.fees) && EstimateReturn(s, inputs, live, claim) == Some(t)
    requires FullDomesticClaim(inputs.order, claim)
    requires LineLeg(leg) && OrderTotal(inputs.order.lines, leg) == cents as real / 100.0 && cents > 0
    requires !HasActual(t.fees, leg)
    ensures LegOf(t.fees, leg).gross == OrderTotal(inputs.order.lines, leg)
  {
    FullClaimReturnsEverything(inputs.order.lines, leg, claim.accepted);
    ReturnWritesTheLeg(s, inputs, live, claim, t, leg);
    CentsAreExact(cents);
    ReturnKeeps(s, inputs, live, claim);
    LegIsItsRow(t.fees, leg);
  }

  /** The commission given back on the seller's own discounts. */
  function RefundedCommission(lines: seq<ProfitLine>): real {
    if lines == [] then 0.0 else RefundedCommission(lines[..|lines| - 1]) + lines[|lines| - 1].refundedCommissionGross
  }

  lemma {:induction false} LineMoneyTotals(lines: seq<ProfitLine>)
    ensures CommissionOf(MoneysOf(lines, false)).gross == OrderTotal(lines, COMMISSION_REFUND) - RefundedCommission(lines)
    ensures CostOf(MoneysOf(lines, false)).gross == OrderTotal(lines, COST_RETURN)
  {
    if lines == [] {
      assert MoneysOf(lines, false) == [];
    } else {
      var pre := MoneysOf(lines[..|lines| - 1], false);
      LineMoneyTotals(lines[..|lines| - 1]);
      assert MoneysOf(lines, false)[..|pre|] == pre;
      assert ItemCost(MoneyOf(lines[|lines| - 1], false)) == LineTotal(lines[|lines| - 1], COST_RETURN);
    }
  }

  /** The term of the engine's input that a line leg comes off. */
  function TermOf(i: ProfitInput, leg: ReturnLeg): real
    requires LineLeg(leg)
  {
    if leg == REFUND_DEDUCTION then i.sale.gross else if leg == COMMISSION_REFUND then i.commission.gross else i.cost.gross
  }

  /** What a full return leaves of a term: the sale the lines do not explain, minus the refunded commission, no cost. */
  function Residue(o: OrderRow, leg: ReturnLeg): real
    requires LineLeg(leg) && o.saleGross.Some?
  {
    if leg == REFUND_DEDUCTION then o.saleGross.value - OrderTotal(o.lines, REFUND_DEDUCTION)
    else if leg == COMMISSION_REFUND then -RefundedCommission(o.lines)
    else 0.0
  }

  /**
   What a full domestic return leaves in the engine's input, leg by leg. Commission nets
   out exactly when no discount gave any of it back, because the return refunds the gross
   commission while the sale was charged the effective one.
   */
  lemma FullReturnResidue(s: Sheet, inputs: Inputs, live: RawSettings, claim: Claim, t: Sheet, leg: ReturnLeg, cents: int)
    requires OneEstimateEach(s.fees) && EstimateReturn(s, inputs, live, claim) == Some(t)
    requires FullDomesticClaim(inputs.order, claim) && Computable(inputs.order)
    requires LineLeg(leg) && OrderTotal(inputs.order.lines, leg) == cents as real / 100.0 && cents > 0
    requires !HasActual(t.fees, leg)
    ensures TermOf(EstimateInput(inputs.order, t.fees, t.negativeNetVat.GetOr(false)), leg) == Residue(inputs.order, leg)
    ensures leg == COMMISSION_REFUND ==>
              (TermOf(EstimateInput(inputs.order, t.fees, t.negativeNetVat.GetOr(false)), leg) == 0.0 <==>
               RefundedCommission(inputs.order.lines) == 0.0)
  {
    FullReturnLeg(s, inputs, live, claim, t, leg, cents);
    LineMoneyTotals(inputs.order.lines);
  }

  // ─── The withholding of a full return ─────────────────────────────────

  /** A fee grossed up from its definition splits back into the definition's net. */
  lemma GrossedRoundTrip(net: real, vatRate: Rate)
    ensures NetOfVat(Grossed(net, vatRate), vatRate) == net
    ensures Grossed(net, vatRate) - GrossToVat(Grossed(net, vatRate), vatRate) == net
  {
    var s, g := 100.0 + vatRate, Grossed(net, vatRate);
    assert g * 100.0 == net * s;
    NetIsTheRest(g, vatRate);
  }

  lemma NetIsTheRest(gross: real, vatRate: Rate)
    ensures NetOfVat(gross, vatRate) == gross - GrossToVat(gross, vatRate)
  {
    var s := 100.0 + vatRate;
    assert gross * 100.0 / s + gross * vatRate / s == gross * s / s;
  }

  /** Lines of one VAT rate write that rate, unless they return nothing. */
  lemma {:induction false} OneRateIsWritten(lines: seq<ProfitLine>, tally: seq<Units>, rate: Rate)
    requires forall i :: 0 <= i < |lines| ==> lines[i].saleVatRate == rate
    ensures var acc := Accumulated(lines, REFUND_DEDUCTION, tally); acc.vatRate == rate || acc == Leg(0.0, 0.0)
  {
    if tally != [] {
      OneRateIsWritten(lines, tally[..|tally| - 1], rate);
      FoundIsALine(lines, tally[|tally| - 1].line);
    }
  }

  lemma {:induction false} FoundIsALine(lines: seq<ProfitLine>, id: nat)
    ensures FindLine(lines, id).Some? ==> FindLine(lines, id).value in lines
  {
    if lines != [] { FoundIsALine(lines[..|lines| - 1], id); }
  }

  lemma {:induction false} KeptKeepsSlots(fees: seq<FeeRow>, t: FeeType)
    ensures EstimateRow(Kept(fees, Estimated), t) == EstimateRow(fees, t)
  {
    if fees != [] {
      var pre, r := fees[..|fees| - 1], fees[|fees| - 1];
      var kept := Kept(pre, Estimated);
      KeptKeepsSlots(pre, t);
      if Estimated(r) { assert (kept + [r])[..|kept|] == kept; }
    }
  }

  /** The sheet carries the withholding that a first estimate of this order writes. */
  predicate CarriesWithholding(s: Sheet, inputs: Inputs)
    requires inputs.order.saleGross.Some? && inputs.order.saleVat.Some?
  {
    && EstimateRow(s.fees, Stoppage).Some? && StoppageCharge(inputs).Some?
    && EstimateRow(s.fees, Stoppage).value.amountGross == StoppageCharge(inputs).value.amountGross
  }

  /** The withholding a first estimate writes, still there after it. */
  lemma FirstWithholding(s: Sheet, inputs: Inputs, live: RawSettings)
    requires OneEstimateEach(s.fees) && !inputs.order.excluded && Estimate(s, inputs, live).Some?
    requires OwesStoppage(s.fees, inputs, EffectiveSettings(s, inputs, live))
    ensures CarriesWithholding(Estimate(s, inputs, live).value, inputs)
  {
    var settings := EffectiveSettings(s, inputs, live);
    var f1 := WithPsf(s.fees, inputs).value;
    PsfFrame(s.fees, inputs, s.fees);
    var f2 := WithStoppage(f1, inputs, settings).value;
    UpsertFrame(f1, Stoppage, StoppageCharge(inputs).value);
    var f3 := WithShipping(f2, inputs).value;
    ShippingFrame(f2, inputs, f2);
    InternationalFrame(f3, inputs);
  }

  /** The withholding refund is written, and return shipping leaves it alone. */
  lemma WrittenStoppageRefund(fees: seq<FeeRow>, refund: Leg, inputs: Inputs, claim: Claim)
    requires OneEstimateEach(fees) && refund.gross > 0.0 && inputs.book.stoppage.Some?
    requires StoppageRefundGross(refund, inputs.book.stoppage.value) > 0.0
    requires claim.returnShippingNet.Some? ==> inputs.book.returnShipping.Some?
    ensures var gross := StoppageRefundGross(refund, inputs.book.stoppage.value);
            var after := WithReturnShipping(WithStoppageRefund(fees, refund, inputs.book).value, claim.returnShippingNet, inputs.book).value;
            && OneEstimateEach(after)
            && EstimateRow(after, Return(STOPPAGE_REFUND)).Some?
            && EstimateRow(after, Return(STOPPAGE_REFUND)).value.amountGross == Round2(gross)
  {
    var gross := StoppageRefundGross(refund, inputs.book.stoppage.value);
    var f2 := WithLeg(fees, STOPPAGE_REFUND, gross, None);
    LegFrame(fees, STOPPAGE_REFUND, gross, None);
    CarriedAmount(f2, Return(STOPPAGE_REFUND), LegCharge(STOPPAGE_REFUND, gross, None));
    ReturnShippingFrame(f2, claim.returnShippingNet, inputs.book, f2);
  }

  /** The refund row of a withholding right after a domestic return estimate. */
  lemma RefundedWithholding(s: Sheet, inputs: Inputs, live: RawSettings, claim: Claim, t: Sheet)
    requires OneEstimateEach(s.fees) && EstimateReturn(s, inputs, live, claim) == Some(t)
    requires !inputs.order.excluded && !inputs.order.micro && claim.accepted != []
    requires var refund := Accumulated(inputs.order.lines, REFUND_DEDUCTION, TallyOf(claim.accepted));
             refund.gross > 0.0 && inputs.book.stoppage.Some? && StoppageRefundGross(refund, inputs.book.stoppage.value) > 0.0
    ensures var refund := Accumulated(inputs.order.lines, REFUND_DEDUCTION, TallyOf(claim.accepted));
            var row := EstimateRow(t.fees, Return(STOPPAGE_REFUND));
            row.Some? && row.value.amountGross == Round2(StoppageRefundGross(refund, inputs.book.stoppage.value))
  {
    var lines, tally := inputs.order.lines, TallyOf(claim.accepted);
    var f3 := DomesticReturn(s.fees, inputs, claim).value;
    LineLegsFrame(s.fees, lines, tally);
    WrittenStoppageRefund(WithLineLegs(s.fees, lines, tally), Accumulated(lines, REFUND_DEDUCTION, tally), inputs, claim);
    EstimatedFeesFrame(f3, inputs, EffectiveSettings(s.(fees := f3), inputs, live));
  }

  /** A sale of one VAT rate whose lines add up to the order's totals. */
  ghost predicate OneRateSale(o: OrderRow, rate: Rate) {
    && (forall i :: 0 <= i < |o.lines| ==> o.lines[i].saleVatRate == rate)
    && o.saleGross == Some(OrderTotal(o.lines, REFUND_DEDUCTION)) && o.saleGross.value > 0.0
    && o.saleVat == Some(GrossToVat(o.saleGross.value, rate))
  }

  lemma RefundIsWithheld(refund: Leg, def: Definition, k: real)
    requires def.rateOfSale == Some(k)
    ensures StoppageRefundGross(refund, def) == NetOfVat(refund.gross, refund.vatRate) * k
    ensures Round2(StoppageRefundGross(refund, def)) == Withheld(NetOfVat(refund.gross, refund.vatRate), k)
  {
    assert def.rateOfSale.GetOr(0.0) == k;
  }

  lemma PositiveTimes(a: real, k: real)
    requires a > 0.0 && k > 0.0
    ensures a * k > 0.0
  {
  }

  lemma PositiveNet(gross: real, rate: Rate)
    requires gross > 0.0
    ensures NetOfVat(gross, rate) > 0.0
  {
  }

  /** Withholding and refund are computed from the same net sale. */
  lemma SameWithholding(inputs: Inputs, refund: Leg, rate: Rate)
    requires inputs.order.saleGross.Some? && inputs.order.saleVat.Some? && StoppageCharge(inputs).Some?
    requires refund == Leg(inputs.order.saleGross.value, rate) && refund.gross > 0.0
    requires inputs.order.saleVat.value == GrossToVat(refund.gross, rate)
    requires inputs.book.stoppage.value.rateOfSale.GetOr(0.0) > 0.0
    ensures var gross := StoppageRefundGross(refund, inputs.book.stoppage.value);
            gross > 0.0 && StoppageCharge(inputs).value.amountGross == Round2(gross)
  {
    NetIsTheRest(refund.gross, rate);
    var k, net := inputs.book.stoppage.value.rateOfSale.value, NetOfVat(refund.gross, rate);
    assert inputs.order.saleGross.value - inputs.order.saleVat.value == net;
    assert StoppageCharge(inputs).value.amountGross == Withheld(net, k);
    RefundIsWithheld(refund, inputs.book.stoppage.value, k);
    PositiveNet(refund.gross, rate);
    PositiveTimes(net, k);
  }

  /**
   A full return gives the whole withholding back: an order of one VAT rate that carries
   its withholding and is returned in full is left with none. (With mixed rates the last
   line's rate stands for all of them, see LastLineSetsTheRate.)
   */
  lemma FullReturnRefundsWithholding(s: Sheet, inputs: Inputs, live: RawSettings, claim: Claim, t: Sheet, rate: Rate)
    requires OneEstimateEach(s.fees) && EstimateReturn(s, inputs, live, claim) == Some(t)
    requires FullDomesticClaim(inputs.order, claim) && OneRateSale(inputs.order, rate) && CarriesWithholding(s, inputs)
    requires inputs.book.stoppage.value.rateOfSale.GetOr(0.0) > 0.0
    requires !HasActual(t.fees, STOPPAGE_REFUND)
    ensures StoppageLeft(StoppageDue(Kept(t.fees, Estimated)), LegOf(t.fees, STOPPAGE_REFUND).gross) == 0.0
  {
    var refund := Accumulated(inputs.order.lines, REFUND_DEDUCTION, TallyOf(claim.accepted));
    ReturnKeeps(s, inputs, live, claim);
    FullClaimReturnsEverything(inputs.order.lines, REFUND_DEDUCTION, claim.accepted);
    OneRateIsWritten(inputs.order.lines, TallyOf(claim.accepted), rate);
    SameWithholding(inputs, refund, rate);
    RefundedWithholding(s, inputs, live, claim, t);
    LegIsItsRow(t.fees, STOPPAGE_REFUND);
    KeptKeepsSlots(t.fees, Stoppage);
  }
}
