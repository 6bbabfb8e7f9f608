/**
 What each fee row does to the figures an order settles at: which rows count, by how much
 one more row moves the profit, and what the stored margins mean.
 */
module SettledRows {
  import opened Options
  import opened Money
  import opened ProfitFormula
  import opened ReturnLegs
  import opened Breakdown
  import opened FeeTable
  import opened OrderProfit

  // ─── Which rows count ─────────────────────────────────────────────────

  /** Settlement counts what was invoiced and what the payment cycle confirmed. */
  predicate CountsInSettlement(r: FeeRow) {
    r.source == SETTLEMENT || r.source == CARGO_INVOICE || (r.source == ESTIMATE && r.confirmed)
  }

  lemma {:induction false} KeptConcat(a: seq<FeeRow>, b: seq<FeeRow>, keep: FeeRow -> bool)
    ensures Kept(a + b, keep) == Kept(a, keep) + Kept(b, keep)
  {
    if b == [] {
      assert a + b == a;
    } else {
      assert (a + b)[..|a + b| - 1] == a + b[..|b| - 1];
      KeptConcat(a, b[..|b| - 1], keep);
    }
  }

  lemma KeptOne(r: FeeRow, keep: FeeRow -> bool)
    ensures Kept([r], keep) == if keep(r) then [r] else []
  {
    assert [r][..0] == [];
  }

  lemma KeptWithRow(a: seq<FeeRow>, r: FeeRow, b: seq<FeeRow>, keep: FeeRow -> bool)
    ensures Kept(a + [r] + b, keep) == Kept(a, keep) + (if keep(r) then [r] else []) + Kept(b, keep)
  {
    KeptConcat(a + [r], b, keep);
    KeptConcat(a, [r], keep);
    KeptOne(r, keep);
  }

  lemma SameKeptSameSettlement(s: Sheet, o: OrderRow, x: seq<FeeRow>, y: seq<FeeRow>)
    requires Kept(x, Settles) == Kept(y, Settles)
    ensures Settle(s.(fees := x), o).settled == Settle(s.(fees := y), o).settled
  {
  }

  lemma KeptSkips(a: seq<FeeRow>, r: FeeRow, b: seq<FeeRow>, keep: FeeRow -> bool)
    requires !keep(r)
    ensures Kept(a + [r] + b, keep) == Kept(a + b, keep)
  {
    KeptWithRow(a, r, b, keep);
    KeptConcat(a, b, keep);
    assert Kept(a, keep) + [] == Kept(a, keep);
  }

  /** An unconfirmed estimate or a hand-entered row, wherever it stands, changes no settled figure. */
  lemma OtherRowsNeverSettle(s: Sheet, o: OrderRow, a: seq<FeeRow>, r: FeeRow, b: seq<FeeRow>)
    requires (r.source == ESTIMATE && !r.confirmed) || r.source == MANUAL
    ensures Settle(s.(fees := a + [r] + b), o).settled == Settle(s.(fees := a + b), o).settled
  {
    KeptSkips(a, r, b, Settles);
    SameKeptSameSettlement(s, o, a + [r] + b, a + b);
  }

  // ─── One more forward row ─────────────────────────────────────────────

  lemma OneMoreCharge(rows: seq<FeeRow>, r: FeeRow)
    requires r.feeType.Forward?
    ensures EngineFees(rows + [r]) == EngineFees(rows) + [InputFee(r.feeType.kind, r.amountGross, VatOf(r), r.direction)]
    ensures StoppageDue(rows + [r]) == StoppageDue(rows)
  {
    assert (rows + [r])[..|rows|] == rows;
    SlotIs(rows + [r], Stoppage, if Slot(rows, Stoppage) < |rows| then Slot(rows, Stoppage) else |rows| + 1);
  }

  lemma LegIgnoresCharge(rows: seq<FeeRow>, r: FeeRow, leg: ReturnLeg)
    requires r.feeType.Forward?
    ensures LegOf(rows + [r], leg) == LegOf(rows, leg)
  {
    var more := rows + [r];
    assert more[..|more| - 1] == rows;
    if i :| 0 <= i < |rows| && rows[i].feeType == Return(leg) && Actual(rows[i].source) { assert more[i] == rows[i]; }
    assert HasActual(more, leg) == HasActual(rows, leg);
  }

  /** Two inputs that differ by one charge. */
  predicate DiffersByCharge(i: ProfitInput, i': ProfitInput, gross: real, vat: real) {
    && i'.sale == i.sale && i'.cost == i.cost && i'.commission == i.commission && i'.stoppage == i.stoppage
    && i'.includeNegativeNetVat == i.includeNegativeNetVat
    && FeesGross(i'.fees) == FeesGross(i.fees) + gross && FeesVat(i'.fees) == FeesVat(i.fees) + vat
  }

  lemma FoldedTotals(base: ProfitInput, rows: seq<FeeRow>)
    ensures var extra := LegOf(rows, RETURN_SHIPPING);
            && FeesGross(Fold(base, rows).fees) == FeesGross(base.fees) + extra.gross
            && FeesVat(Fold(base, rows).fees) == FeesVat(base.fees) + if extra.gross == 0.0 then 0.0 else extra.vat
  {
    var back := LegOf(rows, RETURN_SHIPPING);
    var extra := [InputFee(SHIPPING, back.gross, back.vat, DEBIT)];
    FeesConcat(base.fees, extra);
    assert extra[..0] == [];
  }

  lemma SameLegs(rows: seq<FeeRow>, r: FeeRow)
    requires r.feeType.Forward?
    ensures forall leg :: LegOf(rows + [r], leg) == LegOf(rows, leg)
  {
    forall leg ensures LegOf(rows + [r], leg) == LegOf(rows, leg) { LegIgnoresCharge(rows, r, leg); }
  }

  lemma OneMoreFee(fees: seq<InputFee>, fee: InputFee)
    ensures FeesGross(fees + [fee]) == FeesGross(fees) + Directed(fee.direction, fee.gross)
    ensures FeesVat(fees + [fee]) == FeesVat(fees) + Directed(fee.direction, fee.vat)
  {
    assert (fees + [fee])[..|fees|] == fees;
  }

  lemma ChargeInSettlement(o: OrderRow, fees: seq<FeeRow>, r: FeeRow, flag: bool)
    requires Computable(o) && r.feeType.Forward? && CountsInSettlement(r)
    ensures DiffersByCharge(SettledInput(o, fees, flag), SettledInput(o, fees + [r], flag),
                            Directed(r.direction, r.amountGross), Directed(r.direction, VatOf(r)))
  {
    var kept := Kept(fees, Settles);
    KeptConcat(fees, [r], Settles);
    KeptOne(r, Settles);
    SameLegs(kept, r);
    OneMoreCharge(kept, r);
    OneMoreFee(EngineFees(kept), InputFee(r.feeType.kind, r.amountGross, VatOf(r), r.direction));
    FoldedTotals(EngineBase(o, kept, true, flag), kept);
    FoldedTotals(EngineBase(o, kept + [r], true, flag), kept + [r]);
  }

  /** Net VAT as it enters the profit: a credit counts only when the order was created to count it. */
  function Clamped(flag: bool, netVat: real): real { if flag || netVat >= 0.0 then netVat else 0.0 }

  /** One more charge moves the unrounded profit by its gross and by what it does to the net VAT. */
  lemma ChargeMovesProfit(i: ProfitInput, i': ProfitInput, gross: real, vat: real)
    requires DiffersByCharge(i, i', gross, vat)
    ensures RawNetVat(i') == RawNetVat(i) - vat
    ensures NetProfit(i') == NetProfit(i) - gross
                             - (Clamped(i.includeNegativeNetVat, RawNetVat(i) - vat) - Clamped(i.includeNegativeNetVat, RawNetVat(i)))
    ensures i.includeNegativeNetVat || (RawNetVat(i) >= 0.0 && RawNetVat(i') >= 0.0) ==> NetProfit(i') == NetProfit(i) - (gross - vat)
  {
  }

  /**
   An invoiced charge, or a confirmed one, of any kind: a debit lowers the unrounded settled
   profit by its net amount while the clamp is inactive, a credit raises it, and with the
   clamp it moves by its gross and by the change of the clamped net VAT.
   */
  lemma InvoicedChargeMoves(o: OrderRow, fees: seq<FeeRow>, r: FeeRow, flag: bool)
    requires Computable(o) && r.feeType.Forward? && CountsInSettlement(r)
    ensures var i, i' := SettledInput(o, fees, flag), SettledInput(o, fees + [r], flag);
            var g, v := r.amountGross, GrossToVat(r.amountGross, r.vatRate);
            var raw := RawNetVat(i);
            && (r.direction == DEBIT ==>
                  && NetProfit(i') == NetProfit(i) - g - (Clamped(flag, raw - v) - Clamped(flag, raw))
                  && (flag || (raw >= 0.0 && raw - v >= 0.0) ==> NetProfit(i') == NetProfit(i) - (g - v)))
            && (r.direction == CREDIT ==>
                  && NetProfit(i') == NetProfit(i) + g - (Clamped(flag, raw + v) - Clamped(flag, raw))
                  && (flag || (raw >= 0.0 && raw + v >= 0.0) ==> NetProfit(i') == NetProfit(i) + (g - v)))
  {
    ChargeInSettlement(o, fees, r, flag);
    ChargeMovesProfit(SettledInput(o, fees, flag), SettledInput(o, fees + [r], flag),
                      Directed(r.direction, r.amountGross), Directed(r.direction, VatOf(r)));
  }

  /** The estimate counts the estimated charges and no others. */
  lemma EstimatedChargeMoves(o: OrderRow, fees: seq<FeeRow>, r: FeeRow, flag: bool)
    requires Computable(o) && r.feeType.Forward?
    ensures r.source != ESTIMATE ==> EstimateInput(o, fees + [r], flag) == EstimateInput(o, fees, flag)
    ensures r.source == ESTIMATE ==>
              DiffersByCharge(EstimateInput(o, fees, flag), EstimateInput(o, fees + [r], flag),
                              Directed(r.direction, r.amountGross), Directed(r.direction, GrossToVat(r.amountGross, r.vatRate)))
  {
    var kept := Kept(fees, Estimated);
    KeptConcat(fees, [r], Estimated);
    KeptOne(r, Estimated);
    SameLegs(fees, r);
    assert kept + [] == kept;
    if r.source == ESTIMATE {
      OneMoreCharge(kept, r);
      OneMoreFee(EngineFees(kept), InputFee(r.feeType.kind, r.amountGross, VatOf(r), r.direction));
      FoldedTotals(EngineBase(o, kept, false, flag), fees);
      FoldedTotals(EngineBase(o, kept + [r], false, flag), fees + [r]);
    }
  }

  // ─── Return rows ──────────────────────────────────────────────────────

  lemma {:induction false} WithoutThenKept(fees: seq<FeeRow>, leg: ReturnLeg)
    ensures WithoutEstimates(Kept(fees, Settles), leg) == Kept(WithoutEstimates(fees, leg), Settles)
  {
    if fees == [] {
    } else {
      var pre, r := fees[..|fees| - 1], fees[|fees| - 1];
      var kept, left := Kept(pre, Settles), WithoutEstimates(pre, leg);
      WithoutThenKept(pre, leg);
      assert (kept + [r])[..|kept|] == kept && (left + [r])[..|left|] == left;
    }
  }

  lemma {:induction false} ChargesIgnoreEstimatesOf(rows: seq<FeeRow>, leg: ReturnLeg)
    ensures EngineFees(WithoutEstimates(rows, leg)) == EngineFees(rows)
  {
    if rows == [] {
    } else {
      var pre, r := rows[..|rows| - 1], rows[|rows| - 1];
      var left := WithoutEstimates(pre, leg);
      ChargesIgnoreEstimatesOf(pre, leg);
      assert (left + [r])[..|left|] == left;
    }
  }

  lemma {:induction false} StoppageIgnoresEstimatesOf(rows: seq<FeeRow>, leg: ReturnLeg)
    ensures EstimateRow(WithoutEstimates(rows, leg), Stoppage) == EstimateRow(rows, Stoppage)
  {
    if rows == [] {
    } else {
      var pre, r := rows[..|rows| - 1], rows[|rows| - 1];
      var left := WithoutEstimates(pre, leg);
      StoppageIgnoresEstimatesOf(pre, leg);
      assert (left + [r])[..|left|] == left;
    }
  }

  lemma {:induction false} OtherSumIgnores(rows: seq<FeeRow>, leg: ReturnLeg, other: ReturnLeg, actual: bool)
    requires other != leg
    ensures SumCounting(WithoutEstimates(rows, leg), other, actual) == SumCounting(rows, other, actual)
  {
    if rows == [] {
    } else {
      var pre, r := rows[..|rows| - 1], rows[|rows| - 1];
      var left := WithoutEstimates(pre, leg);
      OtherSumIgnores(pre, leg, other, actual);
      assert (left + [r])[..|left|] == left;
    }
  }

  lemma OtherLegIgnores(rows: seq<FeeRow>, leg: ReturnLeg, other: ReturnLeg)
    requires other != leg
    ensures LegOf(WithoutEstimates(rows, leg), other) == LegOf(rows, other)
  {
    var left := WithoutEstimates(rows, leg);
    OtherSumIgnores(rows, leg, other, HasActual(rows, other));
    forall r: FeeRow | r.source != ESTIMATE
      ensures r in left <==> r in rows
    {
      ActualRowsSurvive(rows, leg, r);
    }
    if i :| 0 <= i < |rows| && rows[i].feeType == Return(other) && Actual(rows[i].source) { assert rows[i] in left; }
    if i :| 0 <= i < |left| && left[i].feeType == Return(other) && Actual(left[i].source) { assert left[i] in rows; }
    assert HasActual(left, other) == HasActual(rows, other);
  }

  lemma ActualIsKept(fees: seq<FeeRow>, leg: ReturnLeg)
    ensures HasActual(Kept(fees, Settles), leg) <==> HasActual(fees, leg)
  {
    var kept := Kept(fees, Settles);
    if i :| 0 <= i < |fees| && fees[i].feeType == Return(leg) && Actual(fees[i].source) {
      KeptMember(fees, Settles, fees[i]);
      assert fees[i] in kept;
    }
    if i :| 0 <= i < |kept| && kept[i].feeType == Return(leg) && Actual(kept[i].source) {
      KeptMember(fees, Settles, kept[i]);
      assert kept[i] in fees;
    }
  }

  lemma SameLegsWithout(rows: seq<FeeRow>, rows': seq<FeeRow>, leg: ReturnLeg)
    requires HasActual(rows, leg) && WithoutEstimates(rows, leg) == WithoutEstimates(rows', leg)
    ensures forall other :: LegOf(rows', other) == LegOf(rows, other)
  {
    ActualMakesEstimatesIrrelevant(rows, rows', leg);
    forall other | other != leg ensures LegOf(rows', other) == LegOf(rows, other) {
      OtherLegIgnores(rows, leg, other);
      OtherLegIgnores(rows', leg, other);
    }
  }

  /** Once a leg is invoiced, its estimates, confirmed or not, are irrelevant to every settled figure. */
  lemma InvoicedLegHidesEstimates(s: Sheet, o: OrderRow, fees': seq<FeeRow>, leg: ReturnLeg)
    requires HasActual(s.fees, leg) && WithoutEstimates(fees', leg) == WithoutEstimates(s.fees, leg)
    ensures Settle(s.(fees := fees'), o).settled == Settle(s, o).settled
  {
    var kept, kept' := Kept(s.fees, Settles), Kept(fees', Settles);
    WithoutThenKept(s.fees, leg);
    WithoutThenKept(fees', leg);
    ActualIsKept(s.fees, leg);
    SameLegsWithout(kept, kept', leg);
    ChargesIgnoreEstimatesOf(kept, leg);
    ChargesIgnoreEstimatesOf(kept', leg);
    StoppageIgnoresEstimatesOf(kept, leg);
    StoppageIgnoresEstimatesOf(kept', leg);
  }

  lemma OneMoreActual(rows: seq<FeeRow>, r: FeeRow, leg: ReturnLeg)
    requires r.feeType == Return(leg) && Actual(r.source) && HasActual(rows, leg)
    ensures LegOf(rows + [r], leg) == Plus(LegOf(rows, leg), MoneyPair(r.amountGross, VatOf(r)))
    ensures forall other :: other != leg ==> LegOf(rows + [r], other) == LegOf(rows, other)
    ensures EngineFees(rows + [r]) == EngineFees(rows) && StoppageDue(rows + [r]) == StoppageDue(rows)
  {
    var more := rows + [r];
    assert more[..|more| - 1] == rows && more[|rows|] == r;
    assert HasActual(more, leg);
    forall other | other != leg ensures LegOf(more, other) == LegOf(rows, other) {
      if i :| 0 <= i < |rows| && rows[i].feeType == Return(other) && Actual(rows[i].source) { assert more[i] == rows[i]; }
      assert HasActual(more, other) == HasActual(rows, other);
    }
    SlotIs(more, Stoppage, if Slot(rows, Stoppage) < |rows| then Slot(rows, Stoppage) else |rows| + 1);
  }

  /** What one more invoiced row of a leg does to the folded terms. */
  predicate MovesLeg(i: ProfitInput, i': ProfitInput, leg: ReturnLeg, row: MoneyPair) {
    && i'.sale == (if leg == REFUND_DEDUCTION then Less(i.sale, row) else i.sale)
    && i'.commission == (if leg == COMMISSION_REFUND then Less(i.commission, row) else i.commission)
    && i'.cost == (if leg == COST_RETURN then Less(i.cost, row) else i.cost)
    && FeesGross(i'.fees) == FeesGross(i.fees) + (if leg == RETURN_SHIPPING then row.gross else 0.0)
    && FeesVat(i'.fees) == FeesVat(i.fees) + (if leg == RETURN_SHIPPING then row.vat else 0.0)
    && i'.stoppage == (if leg != STOPPAGE_REFUND then i.stoppage
                       else if i.stoppage >= row.gross then i.stoppage - row.gross else 0.0)
  }

  lemma FoldedTermsMove(base: ProfitInput, rows: seq<FeeRow>, r: FeeRow, leg: ReturnLeg)
    requires r.feeType == Return(leg) && Actual(r.source) && HasActual(rows, leg)
    ensures var i, i', row := Fold(base, rows), Fold(base, rows + [r]), MoneyPair(r.amountGross, VatOf(r));
            && i'.sale == (if leg == REFUND_DEDUCTION then Less(i.sale, row) else i.sale)
            && i'.commission == (if leg == COMMISSION_REFUND then Less(i.commission, row) else i.commission)
            && i'.cost == (if leg == COST_RETURN then Less(i.cost, row) else i.cost)
  {
    OneMoreActual(rows, r, leg);
  }

  lemma WithholdingMoves(base: real, refunded: real, more: real)
    requires more >= 0.0
    ensures var left := StoppageLeft(base, refunded);
            StoppageLeft(base, refunded + more) == if left >= more then left - more else 0.0
  {
  }

  lemma FoldedStoppageMoves(base: ProfitInput, rows: seq<FeeRow>, r: FeeRow, leg: ReturnLeg)
    requires r.feeType == Return(leg) && Actual(r.source) && HasActual(rows, leg) && r.amountGross >= 0.0
    ensures var i, i' := Fold(base, rows), Fold(base, rows + [r]);
            i'.stoppage == (if leg != STOPPAGE_REFUND then i.stoppage
                            else if i.stoppage >= r.amountGross then i.stoppage - r.amountGross else 0.0)
  {
    OneMoreActual(rows, r, leg);
    WithholdingMoves(base.stoppage, LegOf(rows, STOPPAGE_REFUND).gross, r.amountGross);
  }

  lemma FoldedShipping(base: ProfitInput, rows: seq<FeeRow>)
    requires forall i :: 0 <= i < |rows| ==> rows[i].amountGross >= 0.0
    ensures FeesGross(Fold(base, rows).fees) == FeesGross(base.fees) + LegOf(rows, RETURN_SHIPPING).gross
    ensures FeesVat(Fold(base, rows).fees) == FeesVat(base.fees) + LegOf(rows, RETURN_SHIPPING).vat
  {
    FoldedTotals(base, rows);
    NonNegativeLegs(rows, RETURN_SHIPPING, HasActual(rows, RETURN_SHIPPING));
  }

  lemma FoldedFeesMove(base: ProfitInput, rows: seq<FeeRow>, more: seq<FeeRow>, gross: real, vat: real)
    requires forall i :: 0 <= i < |rows| ==> rows[i].amountGross >= 0.0
    requires forall i :: 0 <= i < |more| ==> more[i].amountGross >= 0.0
    requires LegOf(more, RETURN_SHIPPING) == Plus(LegOf(rows, RETURN_SHIPPING), MoneyPair(gross, vat))
    ensures FeesGross(Fold(base, more).fees) == FeesGross(Fold(base, rows).fees) + gross
    ensures FeesVat(Fold(base, more).fees) == FeesVat(Fold(base, rows).fees) + vat
  {
    FoldedShipping(base, rows);
    FoldedShipping(base, more);
  }

  lemma ShippingLegMoves(rows: seq<FeeRow>, r: FeeRow, leg: ReturnLeg)
    requires r.feeType == Return(leg) && Actual(r.source) && HasActual(rows, leg)
    ensures var now, before := LegOf(rows + [r], RETURN_SHIPPING), LegOf(rows, RETURN_SHIPPING);
            && now.gross == before.gross + (if leg == RETURN_SHIPPING then r.amountGross else 0.0)
            && now.vat == before.vat + (if leg == RETURN_SHIPPING then VatOf(r) else 0.0)
  {
    OneMoreActual(rows, r, leg);
  }

  lemma FoldMoves(base: ProfitInput, rows: seq<FeeRow>, r: FeeRow, leg: ReturnLeg)
    requires r.feeType == Return(leg) && Actual(r.source) && HasActual(rows, leg)
    requires r.amountGross >= 0.0 && forall i :: 0 <= i < |rows| ==> rows[i].amountGross >= 0.0
    ensures MovesLeg(Fold(base, rows), Fold(base, rows + [r]), leg, MoneyPair(r.amountGross, GrossToVat(r.amountGross, r.vatRate)))
  {
    FoldedTermsMove(base, rows, r, leg);
    FoldedStoppageMoves(base, rows, r, leg);
    ShippingLegMoves(rows, r, leg);
    FoldedFeesMove(base, rows, rows + [r], if leg == RETURN_SHIPPING then r.amountGross else 0.0,
                   if leg == RETURN_SHIPPING then VatOf(r) else 0.0);
  }

  /**
   One more invoiced row of a leg that is invoiced already: a refund comes off the sale, a
   refunded commission off the commission, a returned cost off the cost, return shipping
   joins the charges, and refunded withholding comes off the withholding down to zero; each
   leaves the other terms alone.
   */
  lemma InvoicedReturnMoves(o: OrderRow, fees: seq<FeeRow>, r: FeeRow, leg: ReturnLeg, flag: bool)
    requires Computable(o) && r.feeType == Return(leg) && Actual(r.source) && HasActual(fees, leg)
    requires r.amountGross >= 0.0 && forall i :: 0 <= i < |fees| ==> fees[i].amountGross >= 0.0
    ensures MovesLeg(SettledInput(o, fees, flag), SettledInput(o, fees + [r], flag), leg,
                     MoneyPair(r.amountGross, GrossToVat(r.amountGross, r.vatRate)))
  {
    var kept := Kept(fees, Settles);
    KeptConcat(fees, [r], Settles);
    KeptOne(r, Settles);
    ActualIsKept(fees, leg);
    OneMoreActual(kept, r, leg);
    KeptAmounts(fees);
    FoldMoves(EngineBase(o, kept, true, flag), kept, r, leg);
  }

  lemma KeptAmounts(fees: seq<FeeRow>)
    requires forall i :: 0 <= i < |fees| ==> fees[i].amountGross >= 0.0
    ensures var kept := Kept(fees, Settles); forall i :: 0 <= i < |kept| ==> kept[i].amountGross >= 0.0
  {
    var kept := Kept(fees, Settles);
    forall i | 0 <= i < |kept| ensures kept[i].amountGross >= 0.0 {
      KeptMember(fees, Settles, kept[i]);
    }
  }

  // ─── What is stored ───────────────────────────────────────────────────

  lemma Round4IsClose(x: real)
    ensures -0.00005 <= Round4(x) - x <= 0.00005
  {
    RoundIsClose(x * 100.0);
  }

  /** A percentage at four decimals, taken of its base again, gives the amount back within a two-millionth of the base. */
  predicate Recovers(pct: Option<real>, base: real, amount: real) {
    if base == 0.0 then pct.None?
    else pct.Some? && Breakdown.Abs(pct.value / 100.0 * base - amount) <= 0.0000005 * Breakdown.Abs(base)
  }

  lemma ScaledError(d: real, base: real, bound: real)
    requires -bound <= d <= bound && bound >= 0.0
    ensures Breakdown.Abs(d * base) <= bound * Breakdown.Abs(base)
  {
    if base >= 0.0 {
      assert -bound * base <= d * base <= bound * base;
    } else {
      assert -bound * -base <= d * -base <= bound * -base;
    }
  }

  lemma RoundedPercent(stored: real, q: real, base: real, amount: real)
    requires q * base == amount && -0.00005 <= stored - q * 100.0 <= 0.00005
    ensures Breakdown.Abs(stored / 100.0 * base - amount) <= 0.0000005 * Breakdown.Abs(base)
  {
    var d := stored / 100.0 - q;
    assert d * base == stored / 100.0 * base - q * base;
    ScaledError(d, base, 0.0000005);
  }

  lemma QuotientTimes(x: real, y: real)
    requires y != 0.0
    ensures x / y * y == x
  {
  }

  lemma PercentRecovers(pct: real, q: real, base: real, amount: real)
    requires base != 0.0 && q * base == amount && pct == q * 100.0
    ensures Recovers(Some(Round4(pct)), base, amount)
  {
    Round4IsClose(pct);
    RoundedPercent(Round4(pct), q, base, amount);
  }

  lemma PercentIsRecovered(amount: real, base: real)
    ensures var pct := Percent(amount, base);
            Recovers(if pct.Some? then Some(Round4(pct.value)) else None, base, amount)
  {
    if base != 0.0 {
      QuotientTimes(amount, base);
      PercentRecovers(amount / base * 100.0, amount / base, base, amount);
    }
  }

  /** The four stored figures: profit and net VAT to cents, the margin on the net sale and the markup on the net cost. */
  lemma StoredFiguresMean(i: ProfitInput)
    ensures var f := StoredFigures(Profit(i));
            && f.netProfit == Round2(NetProfit(i)) && f.netVat == Round2(NetVat(i))
            && Recovers(f.saleMarginPct, i.sale.gross, NetProfit(i))
            && Recovers(f.costMarkupPct, i.cost.gross, NetProfit(i))
  {
    PercentIsRecovered(NetProfit(i), i.sale.gross);
    PercentIsRecovered(NetProfit(i), i.cost.gross);
  }

  /** Settlement stores exactly when the order is computable and not excluded, at the policy of the order's own snapshot. */
  lemma SettleStores(s: Sheet, o: OrderRow)
    ensures !o.excluded && Computable(o) ==>
              var i := SettledInput(o, s.fees, s.negativeNetVat == Some(true));
              && Settle(s, o).settled.Some?
              && Settle(s, o).settled.value.netProfit == Round2(NetProfit(i))
              && Settle(s, o).settled.value.netVat == Round2(Clamped(s.negativeNetVat == Some(true), RawNetVat(i)))
              && Recovers(Settle(s, o).settled.value.saleMarginPct, i.sale.gross, NetProfit(i))
              && Recovers(Settle(s, o).settled.value.costMarkupPct, i.cost.gross, NetProfit(i))
    ensures o.excluded || !Computable(o) ==> Settle(s, o) == s
    ensures Settle(s, o).estimated == s.estimated && Settle(s, o).fees == s.fees
  {
    if !o.excluded && Computable(o) { StoredFiguresMean(SettledInput(o, s.fees, s.negativeNetVat == Some(true))); }
  }
}
