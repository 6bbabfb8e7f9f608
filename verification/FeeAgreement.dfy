/**
 Estimate and settlement read the same sheet in different ways; this module says when
 they store the same figures, and ties the estimate to the breakdown the seller sees.
 */
module FeeAgreement {
  import opened Options
  import opened Money
  import opened ProfitFormula
  import opened ReturnLegs
  import opened Breakdown
  import opened FeeTable
  import opened OrderProfit
  import opened FeeRuns
  import opened Stock
  import OrderLines

  // ─── The commission a line carries ────────────────────────────────────

  /** What can happen to a stored item: a re-delivery, or settlement writing the real commission. */
  datatype ItemEvent = Redelivered(line: OrderLines.Line) | SettledAt(gross: real)

  function ItemAfter(item: OrderLines.Item, events: seq<ItemEvent>): OrderLines.Item {
    if events == [] then item
    else
      var before := ItemAfter(item, events[..|events| - 1]);
      match events[|events| - 1]
      case Redelivered(line) => OrderLines.Refreshed(before, line)
      case SettledAt(gross) => before.(settledCommissionGross := Some(gross))
  }

  /** The estimate reads the commission columns of the stored item. */
  predicate CameFrom(l: ProfitLine, item: OrderLines.Item) {
    && l.commissionGross == item.commissionGross
    && l.estimatedCommissionGross == Some(item.estimatedCommissionGross)
    && l.settledCommissionGross == item.settledCommissionGross
  }

  /** Settlement would read the commission the estimate read. */
  predicate CommissionAgrees(l: ProfitLine) {
    l.settledCommissionGross.GetOr(l.estimatedCommissionGross.GetOr(0.0)) == l.commissionGross
  }

  function LastSettled(events: seq<ItemEvent>): Option<real> {
    if events == [] then None
    else if events[|events| - 1].SettledAt? then Some(events[|events| - 1].gross)
    else LastSettled(events[..|events| - 1])
  }

  /** The commission last delivered as known before settlement, or the first delivery's. */
  function LastKnown(first: OrderLines.Line, events: seq<ItemEvent>): real {
    if events == [] then first.commission
    else
      var pre, e := events[..|events| - 1], events[|events| - 1];
      if LastSettled(pre).None? && e.Redelivered? && e.line.commissionKnown then e.line.commission else LastKnown(first, pre)
  }

  /**
   Re-deliveries refresh the estimated commission until settlement writes the real one and
   freezes it: a delivery that does not know its commission changes nothing, and neither does
   any delivery after settlement.
   */
  lemma {:induction false} SettlementFreezesTheCommission(first: OrderLines.Line, key: Option<VariantId>, events: seq<ItemEvent>)
    ensures var item := ItemAfter(OrderLines.NewItem(first, key), events);
            && item.commissionGross == LastKnown(first, events) && item.estimatedCommissionGross == LastKnown(first, events)
            && item.settledCommissionGross == LastSettled(events) && item.quantity == first.quantity && item.variant == key
  {
    if events != [] { SettlementFreezesTheCommission(first, key, events[..|events| - 1]); }
  }

  lemma {:induction false} EstimateColumnFollows(first: OrderLines.Line, key: Option<VariantId>, events: seq<ItemEvent>)
    ensures var item := ItemAfter(OrderLines.NewItem(first, key), events);
            item.estimatedCommissionGross == item.commissionGross
  {
    if events != [] { EstimateColumnFollows(first, key, events[..|events| - 1]); }
  }

  /**
   However often an item is re-delivered and settled, its estimated commission stays its
   commission; so settlement and estimate read the same commission exactly when nothing
   was settled, or what was settled is what was estimated.
   */
  lemma CommissionTracksItsEstimate(first: OrderLines.Line, key: Option<VariantId>, events: seq<ItemEvent>, l: ProfitLine)
    requires CameFrom(l, ItemAfter(OrderLines.NewItem(first, key), events))
    ensures l.estimatedCommissionGross == Some(l.commissionGross)
    ensures CommissionAgrees(l) <==> l.settledCommissionGross.None? || l.settledCommissionGross == l.estimatedCommissionGross
  {
    EstimateColumnFollows(first, key, events);
  }

  lemma {:induction false} MoneysAgree(lines: seq<ProfitLine>)
    requires forall i :: 0 <= i < |lines| ==> CommissionAgrees(lines[i])
    ensures MoneysOf(lines, true) == MoneysOf(lines, false)
  {
    if lines != [] { MoneysAgree(lines[..|lines| - 1]); }
  }

  // ─── The rows ─────────────────────────────────────────────────────────

  /** The payment cycle confirmed every estimate. */
  function ConfirmAll(fees: seq<FeeRow>): (all: seq<FeeRow>)
    ensures |all| == |fees|
    ensures forall i :: 0 <= i < |fees| ==> all[i] == fees[i].(confirmed := true)
  {
    if fees == [] then [] else ConfirmAll(fees[..|fees| - 1]) + [fees[|fees| - 1].(confirmed := true)]
  }

  predicate NoneActual(fees: seq<FeeRow>) { forall i :: 0 <= i < |fees| ==> !Actual(fees[i].source) }

  /** Without invoiced rows settlement keeps exactly the estimates, once they are confirmed. */
  lemma {:induction false} KeptOfConfirmed(fees: seq<FeeRow>)
    requires NoneActual(fees)
    ensures Kept(ConfirmAll(fees), Settles) == ConfirmAll(Kept(fees, Estimated))
  {
    if fees == [] {
    } else {
      var pre, r := fees[..|fees| - 1], fees[|fees| - 1];
      KeptOfConfirmed(pre);
      assert ConfirmAll(fees)[..|fees| - 1] == ConfirmAll(pre);
      var kept := Kept(pre, Estimated);
      assert (kept + [r])[..|kept|] == kept;
    }
  }

  /** The engine's charges, the withholding and the legs do not look at confirmation. */
  lemma {:induction false} ChargesIgnoreConfirmation(fees: seq<FeeRow>)
    ensures EngineFees(ConfirmAll(fees)) == EngineFees(fees)
  {
    if fees == [] {
      assert ConfirmAll(fees) == fees;
    } else {
      ChargesIgnoreConfirmation(fees[..|fees| - 1]);
      assert ConfirmAll(fees)[..|fees| - 1] == ConfirmAll(fees[..|fees| - 1]);
    }
  }

  lemma StoppageIgnoresConfirmation(fees: seq<FeeRow>)
    ensures StoppageDue(ConfirmAll(fees)) == StoppageDue(fees)
  {
    SlotIs(ConfirmAll(fees), Stoppage, Slot(fees, Stoppage));
  }

  lemma {:induction false} LegsReadEstimates(fees: seq<FeeRow>, leg: ReturnLeg)
    ensures SumCounting(Kept(fees, Estimated), leg, false) == SumCounting(fees, leg, false)
  {
    if fees == [] {
    } else {
      var kept := Kept(fees[..|fees| - 1], Estimated);
      LegsReadEstimates(fees[..|fees| - 1], leg);
      assert (kept + [fees[|fees| - 1]])[..|kept|] == kept;
    }
  }

  lemma {:induction false} LegsIgnoreConfirmation(fees: seq<FeeRow>, leg: ReturnLeg, actual: bool)
    ensures SumCounting(ConfirmAll(fees), leg, actual) == SumCounting(fees, leg, actual)
  {
    if fees == [] {
    } else {
      LegsIgnoreConfirmation(fees[..|fees| - 1], leg, actual);
      assert ConfirmAll(fees)[..|fees| - 1] == ConfirmAll(fees[..|fees| - 1]);
    }
  }

  lemma LegsAgree(fees: seq<FeeRow>, leg: ReturnLeg)
    requires NoneActual(fees)
    ensures LegOf(ConfirmAll(Kept(fees, Estimated)), leg) == LegOf(fees, leg)
  {
    var kept := Kept(fees, Estimated);
    LegsReadEstimates(fees, leg);
    LegsIgnoreConfirmation(kept, leg, false);
    assert forall i :: 0 <= i < |kept| ==> !Actual(kept[i].source) by {
      forall i | 0 <= i < |kept|
        ensures !Actual(kept[i].source)
      {
        KeptMember(fees, Estimated, kept[i]);
      }
    }
    assert !HasActual(fees, leg) && !HasActual(ConfirmAll(kept), leg);
  }

  lemma InputsAgree(o: OrderRow, fees: seq<FeeRow>, flag: bool)
    requires Computable(o) && NoneActual(fees)
    requires forall i :: 0 <= i < |o.lines| ==> CommissionAgrees(o.lines[i])
    ensures SettledInput(o, ConfirmAll(fees), flag) == EstimateInput(o, fees, flag)
  {
    var kept := Kept(fees, Estimated);
    KeptOfConfirmed(fees);
    MoneysAgree(o.lines);
    ChargesIgnoreConfirmation(kept);
    StoppageIgnoresConfirmation(kept);
    LegsAgree(fees, REFUND_DEDUCTION);
    LegsAgree(fees, COMMISSION_REFUND);
    LegsAgree(fees, COST_RETURN);
    LegsAgree(fees, RETURN_SHIPPING);
    LegsAgree(fees, STOPPAGE_REFUND);
    assert EngineBase(o, Kept(ConfirmAll(fees), Settles), true, flag) == EngineBase(o, kept, false, flag);
  }

  /**
   Estimate and settlement agree: confirm every estimate and let no invoice arrive, and
   settlement stores the estimate's four figures, provided each line settles at the
   commission it was estimated with. Hand-entered rows may be there: neither side counts them.
   */
  lemma EstimateAndSettlementAgree(s: Sheet, inputs: Inputs, live: RawSettings)
    requires !inputs.order.excluded && Computable(inputs.order) && Estimate(s, inputs, live).Some?
    requires NoneActual(Estimate(s, inputs, live).value.fees)
    requires forall i :: 0 <= i < |inputs.order.lines| ==> CommissionAgrees(inputs.order.lines[i])
    ensures var t := Estimate(s, inputs, live).value;
            && t.estimated.Some?
            && Settle(t.(fees := ConfirmAll(t.fees)), inputs.order).settled == t.estimated
  {
    var t := Estimate(s, inputs, live).value;
    InputsAgree(inputs.order, t.fees, t.negativeNetVat.value);
  }

  // ─── The estimate and the breakdown ───────────────────────────────────

  /** The rows the order page feeds to the breakdown: forward estimates, and return rows from every source. */
  predicate Shown(r: FeeRow) { r.source == ESTIMATE || r.feeType.Return? }

  function ShownRows(fees: seq<FeeRow>): seq<FeeRow> { Kept(fees, Shown) }

  lemma {:induction false} SameForwardCharges(fees: seq<FeeRow>)
    ensures EngineFees(ShownRows(fees)) == EngineFees(Kept(fees, Estimated))
  {
    if fees == [] {
    } else {
      var pre, r := fees[..|fees| - 1], fees[|fees| - 1];
      var shown, estimated := ShownRows(pre), Kept(pre, Estimated);
      SameForwardCharges(pre);
      assert (shown + [r])[..|shown|] == shown && (estimated + [r])[..|estimated|] == estimated;
    }
  }

  lemma {:induction false} ShownSum(fees: seq<FeeRow>, leg: ReturnLeg, actual: bool)
    ensures SumCounting(ShownRows(fees), leg, actual) == SumCounting(fees, leg, actual)
  {
    if fees == [] {
    } else {
      var shown := ShownRows(fees[..|fees| - 1]);
      ShownSum(fees[..|fees| - 1], leg, actual);
      assert (shown + [fees[|fees| - 1]])[..|shown|] == shown;
    }
  }

  lemma ShownLeg(fees: seq<FeeRow>, leg: ReturnLeg)
    ensures LegOf(ShownRows(fees), leg) == LegOf(fees, leg)
  {
    var shown := ShownRows(fees);
    ShownSum(fees, leg, HasActual(fees, leg));
    if i :| 0 <= i < |fees| && fees[i].feeType == Return(leg) && Actual(fees[i].source) {
      KeptMember(fees, Shown, fees[i]);
      assert HasActual(shown, leg);
    }
    if i :| 0 <= i < |shown| && shown[i].feeType == Return(leg) && Actual(shown[i].source) {
      KeptMember(fees, Shown, shown[i]);
      assert HasActual(fees, leg);
    }
  }

  /** A filter that keeps the estimates finds the same estimate of every type. */
  lemma {:induction false} KeptEstimates(fees: seq<FeeRow>, p: FeeRow -> bool, t: FeeType)
    requires forall r: FeeRow :: r.source == ESTIMATE ==> p(r)
    ensures EstimateRow(Kept(fees, p), t) == EstimateRow(fees, t)
  {
    if fees == [] {
    } else {
      var pre, r := fees[..|fees| - 1], fees[|fees| - 1];
      var kept := Kept(pre, p);
      KeptEstimates(pre, p, t);
      assert (kept + [r])[..|kept|] == kept;
    }
  }

  /** When only estimates withhold, the first withholding row is the estimate. */
  lemma FirstStoppage(fees: seq<FeeRow>)
    requires forall i :: 0 <= i < |fees| && fees[i].feeType == Stoppage ==> fees[i].source == ESTIMATE
    ensures StoppageTerm(fees) == StoppageDue(fees)
  {
    var k := Slot(fees, Stoppage);
    if k < |fees| {
      StoppageAt(fees, k);
    } else {
      NoStoppageTerm(fees);
    }
  }

  lemma ShownStoppage(fees: seq<FeeRow>)
    ensures StoppageTerm(ShownRows(fees)) == StoppageDue(Kept(fees, Estimated))
  {
    var shown := ShownRows(fees);
    KeptEstimates(fees, Shown, Stoppage);
    KeptEstimates(fees, Estimated, Stoppage);
    forall i | 0 <= i < |shown| && shown[i].feeType == Stoppage
      ensures shown[i].source == ESTIMATE
    {
      KeptMember(fees, Shown, shown[i]);
    }
    FirstStoppage(shown);
  }

  lemma EstimateFeedsTheView(o: OrderRow, fees: seq<FeeRow>, flag: bool)
    requires Computable(o)
    ensures EstimateInput(o, fees, flag)
         == EngineInput(o.saleGross.value, o.saleVat.value, MoneysOf(o.lines, false), ShownRows(fees), flag)
  {
    SameForwardCharges(fees);
    ShownStoppage(fees);
    ShownLeg(fees, REFUND_DEDUCTION);
    ShownLeg(fees, COMMISSION_REFUND);
    ShownLeg(fees, COST_RETURN);
    ShownLeg(fees, RETURN_SHIPPING);
    ShownLeg(fees, STOPPAGE_REFUND);
  }

  /** The breakdown the order page shows, from the order's rows and its stored figures. */
  function StoredView(o: OrderRow, fees: seq<FeeRow>, figures: Figures): View
    requires Computable(o)
  {
    ViewOf(ViewInput(o.saleGross.value, o.saleVat.value, MoneysOf(o.lines, false), ShownRows(fees),
                     figures.netProfit, figures.netVat))
  }

  lemma FiguresCloseTheView(o: OrderRow, fees: seq<FeeRow>, flag: bool)
    requires Computable(o) && Regular(ShownRows(fees))
    ensures var v := StoredView(o, fees, EstimateFigures(o, fees, flag));
            Abs(Round2(v.sale.gross)
                - (Round2(v.cost.gross) + Round2(v.marketplaceFees) + Round2(v.taxes) + v.netProfit)) <= 0.03
  {
    EstimateFeedsTheView(o, fees, flag);
    StoredViewClosesWithinCents(o.saleGross.value, o.saleVat.value, MoneysOf(o.lines, false), ShownRows(fees), flag);
  }

  /**
   Whatever rows the order carries, estimates, invoiced charges or return rows from any
   source, the figures the estimate stores close the breakdown of the order page within
   three cents.
   */
  lemma EstimateClosesTheBreakdown(s: Sheet, inputs: Inputs, live: RawSettings)
    requires !inputs.order.excluded && Computable(inputs.order) && Estimate(s, inputs, live).Some?
    requires Regular(ShownRows(Estimate(s, inputs, live).value.fees))
    ensures var t := Estimate(s, inputs, live).value;
            && t.estimated.Some?
            && var v := StoredView(inputs.order, t.fees, t.estimated.value);
               Abs(Round2(v.sale.gross)
                   - (Round2(v.cost.gross) + Round2(v.marketplaceFees) + Round2(v.taxes) + v.netProfit)) <= 0.03
  {
    var t := Estimate(s, inputs, live).value;
    FiguresCloseTheView(inputs.order, t.fees, t.negativeNetVat.value);
  }

  // ─── The lists and the breakdown ──────────────────────────────────────

  lemma ListsAgreeWithoutManual(fees: seq<FeeRow>, saleGross: real, saleVat: real, items: seq<ItemMoney>, flag: bool)
    requires NoManual(fees)
    ensures NetSaleGross(saleGross, fees) == EngineView(saleGross, saleVat, items, ShownRows(fees), flag).sale.gross
  {
    NothingManual(fees, REFUND_DEDUCTION);
    ListedLeg(fees, REFUND_DEDUCTION);
    ShownLeg(fees, REFUND_DEDUCTION);
  }

  /**
   In every run that enters no row by hand, and no writer of the repository enters one, the
   lists and the order page show the same net sale.
   */
  lemma ListsAgreeInEveryRun(s: Sheet, steps: seq<Step>, saleGross: real, saleVat: real, items: seq<ItemMoney>, flag: bool)
    requires NoManual(s.fees) && NothingHandEntered(steps)
    ensures var fees := Run(s, steps).fees;
            NetSaleGross(saleGross, fees) == EngineView(saleGross, saleVat, items, ShownRows(fees), flag).sale.gross
  {
    RunsAddNoManual(s, steps);
    ListsAgreeWithoutManual(Run(s, steps).fees, saleGross, saleVat, items, flag);
  }
}
