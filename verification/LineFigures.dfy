/**
 What one order line does to the estimated and the settled figures, when no figures are
 stored at all, and what a line pays when it comes back from abroad.
 */
module LineFigures {
  import opened Options
  import opened Money
  import opened ProfitFormula
  import opened ReturnLegs
  import opened Breakdown
  import opened FeeTable
  import opened OrderProfit

  // ─── One more line ────────────────────────────────────────────────────

  function WithLine(o: OrderRow, l: ProfitLine): OrderRow { o.(lines := o.lines + [l]) }

  /** The cost and its VAT of a line whose snapshot is captured. */
  function LineCost(l: ProfitLine): MoneyPair {
    var gross := l.unitCostGross.GetOr(0.0) * l.quantity as real;
    MoneyPair(gross, GrossToVat(gross, l.unitCostVatRate.GetOr(0.0)))
  }

  /** The commission that a line really pays, by the given column, and its VAT. */
  function LineCommission(l: ProfitLine, charged: real): MoneyPair {
    MoneyPair(charged - l.refundedCommissionGross, GrossToVat(charged - l.refundedCommissionGross, l.commissionVatRate))
  }

  /** Two inputs that differ by a line's cost and commission. */
  predicate DiffersByLine(i: ProfitInput, i': ProfitInput, cost: MoneyPair, commission: MoneyPair) {
    && i'.sale == i.sale && i'.fees == i.fees && i'.stoppage == i.stoppage
    && i'.includeNegativeNetVat == i.includeNegativeNetVat
    && i'.cost == Plus(i.cost, cost) && i'.commission == Plus(i.commission, commission)
  }

  lemma OneMoreMoney(lines: seq<ProfitLine>, l: ProfitLine, settling: bool)
    ensures var items, more := MoneysOf(lines, settling), MoneysOf(lines + [l], settling);
            && CostOf(more) == Add(CostOf(items), ItemCost(MoneyOf(l, settling)), MoneyOf(l, settling).unitCostVatRate)
            && CommissionOf(more)
               == Add(CommissionOf(items), EffectiveCommission(MoneyOf(l, settling)), MoneyOf(l, settling).commissionVatRate)
  {
    var items := MoneysOf(lines, settling);
    assert (lines + [l])[..|lines|] == lines;
    assert (items + [MoneyOf(l, settling)])[..|items|] == items;
  }

  lemma BaseGrows(o: OrderRow, o': OrderRow, l: ProfitLine, rows: seq<FeeRow>, settling: bool, flag: bool, charged: real)
    requires Computable(o) && Computable(o') && o' == WithLine(o, l)
    requires charged == MoneyOf(l, settling).commissionGross
    ensures DiffersByLine(EngineBase(o, rows, settling, flag), EngineBase(o', rows, settling, flag),
                          LineCost(l), LineCommission(l, charged))
  {
    OneMoreMoney(o.lines, l, settling);
  }

  lemma FoldGrows(base: ProfitInput, base': ProfitInput, rows: seq<FeeRow>, cost: MoneyPair, commission: MoneyPair)
    requires DiffersByLine(base, base', cost, commission)
    ensures DiffersByLine(Fold(base, rows), Fold(base', rows), cost, commission)
  {
  }

  /** A line of the order counts in the estimate with the commission last estimated or known. */
  lemma LineInEstimate(o: OrderRow, o': OrderRow, l: ProfitLine, fees: seq<FeeRow>, flag: bool)
    requires Computable(o) && Computable(o') && o' == WithLine(o, l)
    ensures DiffersByLine(EstimateInput(o, fees, flag), EstimateInput(o', fees, flag),
                          LineCost(l), LineCommission(l, l.commissionGross))
  {
    var kept := Kept(fees, Estimated);
    BaseGrows(o, o', l, kept, false, flag, l.commissionGross);
    FoldGrows(EngineBase(o, kept, false, flag), EngineBase(o', kept, false, flag), fees, LineCost(l),
              LineCommission(l, l.commissionGross));
  }

  /** Settlement takes the settled commission, without one the estimated, and without either none. */
  function SettledCommission(l: ProfitLine): real {
    match l.settledCommissionGross
    case Some(settled) => settled
    case None => if l.estimatedCommissionGross.Some? then l.estimatedCommissionGross.value else 0.0
  }

  lemma LineInSettlement(o: OrderRow, o': OrderRow, l: ProfitLine, fees: seq<FeeRow>, flag: bool)
    requires Computable(o) && Computable(o') && o' == WithLine(o, l)
    ensures DiffersByLine(SettledInput(o, fees, flag), SettledInput(o', fees, flag),
                          LineCost(l), LineCommission(l, SettledCommission(l)))
  {
    var kept := Kept(fees, Settles);
    BaseGrows(o, o', l, kept, true, flag, SettledCommission(l));
    FoldGrows(EngineBase(o, kept, true, flag), EngineBase(o', kept, true, flag), kept, LineCost(l),
              LineCommission(l, SettledCommission(l)));
  }

  lemma LineLowers(i: ProfitInput, i': ProfitInput, cost: MoneyPair, commission: MoneyPair)
    requires DiffersByLine(i, i', cost, commission)
    requires i.includeNegativeNetVat || (RawNetVat(i) >= 0.0 && RawNetVat(i') >= 0.0)
    ensures NetProfit(i') == NetProfit(i) - (cost.gross - cost.vat) - (commission.gross - commission.vat)
  {
  }

  /**
   With the sale unchanged, a line lowers the unrounded profit by its net cost and its net
   commission while the clamp is inactive: the estimate by the commission on the line,
   settlement by the settled one, else the estimated one, else none.
   */
  lemma LineLowersProfit(o: OrderRow, o': OrderRow, l: ProfitLine, fees: seq<FeeRow>)
    requires Computable(o) && Computable(o') && o' == WithLine(o, l)
    ensures var cost, paid := LineCost(l), LineCommission(l, l.commissionGross);
            NetProfit(EstimateInput(o', fees, true))
            == NetProfit(EstimateInput(o, fees, true)) - (cost.gross - cost.vat) - (paid.gross - paid.vat)
    ensures var cost, paid := LineCost(l), LineCommission(l, SettledCommission(l));
            NetProfit(SettledInput(o', fees, true))
            == NetProfit(SettledInput(o, fees, true)) - (cost.gross - cost.vat) - (paid.gross - paid.vat)
  {
    LineInEstimate(o, o', l, fees, true);
    LineLowers(EstimateInput(o, fees, true), EstimateInput(o', fees, true), LineCost(l), LineCommission(l, l.commissionGross));
    LineInSettlement(o, o', l, fees, true);
    LineLowers(SettledInput(o, fees, true), SettledInput(o', fees, true), LineCost(l), LineCommission(l, SettledCommission(l)));
  }

  // ─── No figures ───────────────────────────────────────────────────────

  /** A line is not costed yet: its snapshot lacks the amount or the VAT rate. */
  predicate Uncosted(l: ProfitLine) { l.unitCostGross == None || l.unitCostVatRate == None }

  /**
   A single uncosted line, or a missing sale total, keeps both calls from storing figures;
   settlement says why, in this order: excluded, no sale total, incomplete snapshots.
   */
  lemma NoFiguresUntilCosted(s: Sheet, inputs: Inputs, live: RawSettings)
    requires inputs.order.saleGross == None || inputs.order.saleVat == None
             || exists k :: 0 <= k < |inputs.order.lines| && Uncosted(inputs.order.lines[k])
    ensures Settle(s, inputs.order) == s
    ensures SettleSkip(inputs.order)
         == Some(if inputs.order.excluded then ProfitExcluded
                 else if inputs.order.saleGross == None || inputs.order.saleVat == None then MissingSaleAggregate
                 else IncompleteCostSnapshots)
    ensures Estimate(s, inputs, live).Some? ==> Estimate(s, inputs, live).value.estimated == s.estimated
  {
  }

  /** Otherwise both store, unless the order is excluded. */
  lemma FiguresOnceCosted(s: Sheet, inputs: Inputs, live: RawSettings)
    requires !inputs.order.excluded && inputs.order.saleGross.Some? && inputs.order.saleVat.Some?
    requires forall k :: 0 <= k < |inputs.order.lines| ==> !Uncosted(inputs.order.lines[k])
    ensures SettleSkip(inputs.order) == None && Settle(s, inputs.order).settled.Some?
    ensures Estimate(s, inputs, live).Some? ==> Estimate(s, inputs, live).value.estimated.Some?
  {
  }

  // ─── One line's legs ──────────────────────────────────────────────────

  /** Of one line, `n` units take back their share of its sale and commission and their cost, each at its own VAT rate. */
  lemma LegsOfOneLine(lines: seq<ProfitLine>, id: nat, n: nat)
    requires FindLine(lines, id).Some? && FindLine(lines, id).value.quantity > 0
    ensures var l, tally := FindLine(lines, id).value, [Units(id, n)];
            var share := n as real / l.quantity as real;
            && Accumulated(lines, REFUND_DEDUCTION, tally)
               == (if l.lineSaleGross.Some? then Leg(l.lineSaleGross.value * share, l.saleVatRate) else Leg(0.0, 0.0))
            && Accumulated(lines, COMMISSION_REFUND, tally) == Leg(l.commissionGross * share, l.commissionVatRate)
            && Accumulated(lines, COST_RETURN, tally)
               == (if l.unitCostGross.None? then Leg(0.0, 0.0)
                   else Leg(l.unitCostGross.value * n as real,
                            if l.unitCostVatRate.Some? then l.unitCostVatRate.value else 0.0))
  {
    var tally := [Units(id, n)];
    assert tally[..0] == [];
    assert forall leg :: Accumulated(lines, leg, []) == Leg(0.0, 0.0);
  }

  // ─── The return from abroad ───────────────────────────────────────────

  lemma KeptOfWhole(sale: real, commission: real, n: nat, rate: real)
    requires n > 0
    ensures KeptFee(sale, commission, n as real / n as real, rate)
         == if sale - commission <= 0.0 then 0.0 else Part(sale - commission, rate)
  {
    assert n as real / n as real == 1.0;
  }

  /**
   A line that comes back whole pays its tier's rate on what the seller kept of it: its sale
   less the commission that was not refunded, and nothing when that is a loss.
   */
  lemma WholeLineFee(lines: seq<ProfitLine>, id: nat, tiers: seq<Tier>)
    requires FindLine(lines, id).Some? && FindLine(lines, id).value.quantity > 0 && FindLine(lines, id).value.lineSaleGross.Some?
    ensures var l := FindLine(lines, id).value;
            var rate := TierRate(tiers, l.lineSaleGross.value / l.quantity as real);
            var kept := l.lineSaleGross.value - (l.commissionGross - l.refundedCommissionGross);
            OverseasPart(lines, Units(id, l.quantity), tiers)
            == if rate.None? then None else Some(if kept <= 0.0 then 0.0 else Part(kept, rate.value))
  {
    match FindLine(lines, id)
    case Some(l) =>
      var rate := TierRate(tiers, l.lineSaleGross.value / l.quantity as real);
      if rate.Some? {
        KeptOfWhole(l.lineSaleGross.value, l.commissionGross - l.refundedCommissionGross, l.quantity, rate.value);
      }
  }

  /** After a return from abroad the fee's row stands at the rounded fee, and exactly when that is above zero. */
  lemma OverseasRowIff(fees: seq<FeeRow>, inputs: Inputs, claim: Claim, gross: real)
    requires OneEstimateEach(fees)
    requires OverseasGross(inputs.order.lines, TallyOf(claim.accepted), claim.tiers) == Some(gross)
    ensures var row := EstimateRow(OverseasReturn(fees, inputs, claim).value, Forward(OVERSEAS_RETURN_OPERATION));
            && (row.Some? <==> Round2(gross) > 0.0)
            && (row.Some? ==> row.value.amountGross == Round2(gross) && row.value.direction == DEBIT)
  {
    var t := Forward(OVERSEAS_RETURN_OPERATION);
    if Round2(gross) > 0.0 {
      UpsertSets(fees, t, Charge(Round2(gross), None, DEBIT, true));
    } else {
      DeleteKeepsOneEach(fees, t);
    }
  }
}
