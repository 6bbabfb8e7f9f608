/** The fee table, settings snapshot and stored figures of one order, updated in place. */
module ProfitSheet {
  import opened Options
  import opened Money
  import opened ProfitFormula
  import opened ReturnLegs
  import opened Breakdown
  import opened FeeTable
  import opened OrderProfit

  /** The five legs resolved and taken off the engine's input. */
  method FoldReturnLegs(base: ProfitInput, rows: seq<FeeRow>) returns (folded: ProfitInput)
    ensures folded == Fold(base, rows)
  {
    var refund := ResolveLeg(rows, REFUND_DEDUCTION);
    var commission := ResolveLeg(rows, COMMISSION_REFUND);
    var cost := ResolveLeg(rows, COST_RETURN);
    var shipping := ResolveLeg(rows, RETURN_SHIPPING);
    var stoppage := ResolveLeg(rows, STOPPAGE_REFUND);
    var fees := if shipping.gross == 0.0 then base.fees else base.fees + [InputFee(SHIPPING, shipping.gross, shipping.vat, DEBIT)];
    folded := ProfitInput(Less(base.sale, refund), Less(base.cost, cost), Less(base.commission, commission), fees,
                          StoppageLeft(base.stoppage, stoppage.gross), base.includeNegativeNetVat);
  }

  /** Cost and commission accumulated over the lines, VAT at full precision. */
  method SumLines(lines: seq<ProfitLine>, settling: bool) returns (cost: MoneyPair, commission: MoneyPair)
    ensures cost == CostOf(MoneysOf(lines, settling)) && commission == CommissionOf(MoneysOf(lines, settling))
  {
    cost, commission := MoneyPair(0.0, 0.0), MoneyPair(0.0, 0.0);
    for k := 0 to |lines|
      invariant cost == CostOf(MoneysOf(lines[..k], settling)) && commission == CommissionOf(MoneysOf(lines[..k], settling))
    {
      var l := lines[k];
      ghost var before := MoneysOf(lines[..k], settling);
      assert lines[..k + 1][..k] == lines[..k];
      assert (before + [MoneyOf(l, settling)])[..|before|] == before;
      var lineCost := l.unitCostGross.GetOr(0.0) * l.quantity as real;
      assert lineCost == ItemCost(MoneyOf(l, settling));
      cost := Add(cost, lineCost, l.unitCostVatRate.GetOr(0.0));
      var charged := if settling then l.settledCommissionGross.GetOr(l.estimatedCommissionGross.GetOr(0.0)) else l.commissionGross;
      commission := Add(commission, charged - l.refundedCommissionGross, l.commissionVatRate);
    }
    assert lines[..|lines|] == lines;
  }

  method EstimateOf(o: OrderRow, fees: seq<FeeRow>, flag: bool) returns (figures: Figures)
    requires Computable(o)
    ensures figures == EstimateFigures(o, fees, flag)
  {
    var cost, commission := SumLines(o.lines, false);
    var forward := Kept(fees, Estimated);
    var base := ProfitInput(MoneyPair(o.saleGross.value, o.saleVat.value), cost, commission, EngineFees(forward),
                            StoppageDue(forward), flag);
    var folded := FoldReturnLegs(base, fees);
    var breakdown := ComputeProfit(folded);
    figures := StoredFigures(breakdown);
  }

  /** Accepted units per line, kept in a map-like list in order of first appearance. */
  method TallyClaim(accepted: seq<nat>) returns (tally: seq<Units>)
    ensures tally == TallyOf(accepted)
  {
    tally := [];
    for k := 0 to |accepted|
      invariant tally == TallyOf(accepted[..k])
    {
      assert accepted[..k + 1][..k] == accepted[..k];
      tally := AddUnit(tally, accepted[k]);
    }
    assert accepted[..|accepted|] == accepted;
  }

  method SumLineLegs(lines: seq<ProfitLine>, tally: seq<Units>) returns (refund: Leg, commission: Leg, cost: Leg)
    ensures refund == Accumulated(lines, REFUND_DEDUCTION, tally)
    ensures commission == Accumulated(lines, COMMISSION_REFUND, tally)
    ensures cost == Accumulated(lines, COST_RETURN, tally)
  {
    refund, commission, cost := Leg(0.0, 0.0), Leg(0.0, 0.0), Leg(0.0, 0.0);
    for k := 0 to |tally|
      invariant refund == Accumulated(lines, REFUND_DEDUCTION, tally[..k])
      invariant commission == Accumulated(lines, COMMISSION_REFUND, tally[..k])
      invariant cost == Accumulated(lines, COST_RETURN, tally[..k])
    {
      assert tally[..k + 1][..k] == tally[..k];
      var found := FindLine(lines, tally[k].line);
      if found.Some? {
        var l, count := found.value, tally[k].count;
        var share := if l.quantity == 0 then 0.0 else count as real / l.quantity as real;
        if l.lineSaleGross.Some? {
          refund := Leg(refund.gross + l.lineSaleGross.value * share, l.saleVatRate);
        }
        commission := Leg(commission.gross + l.commissionGross * share, l.commissionVatRate);
        if l.unitCostGross.Some? {
          cost := Leg(cost.gross + l.unitCostGross.value * count as real, l.unitCostVatRate.GetOr(0.0));
        }
      }
    }
    assert tally[..|tally|] == tally;
  }

  method SumOverseas(lines: seq<ProfitLine>, tally: seq<Units>, tiers: seq<Tier>) returns (sum: Option<real>)
    ensures sum == OverseasGross(lines, tally, tiers)
  {
    sum := Some(0.0);
    for k := 0 to |tally|
      invariant sum == OverseasGross(lines, tally[..k], tiers)
    {
      assert tally[..k + 1][..k] == tally[..k];
      var part := OverseasPart(lines, tally[k], tiers);
      sum := if sum.None? || part.None? then None else Some(sum.value + part.value);
    }
    assert tally[..|tally|] == tally;
  }

  class OrderSheet {
    var fees: seq<FeeRow>
    var stopaj: Option<bool>
    var negativeNetVat: Option<bool>
    var estimated: Option<Figures>
    var settled: Option<Figures>

    function Value(): Sheet
      reads this
    {
      Sheet(fees, stopaj, negativeNetVat, estimated, settled)
    }

    constructor ()
      ensures Value() == Sheet([], None, None, None, None)
    {
      fees, stopaj, negativeNetVat, estimated, settled := [], None, None, None, None;
    }

    /** Find the ESTIMATE row of the type, then update it or create one. */
    method UpsertFee(t: FeeType, c: Charge)
      modifies this`fees
      ensures fees == Upserted(old(fees), t, c)
    {
      var k := Slot(fees, t);
      if k < |fees| {
        var row := fees[k].(amountGross := c.amountGross);
        if c.vatRate.Some? { row := row.(vatRate := c.vatRate.value); }
        if c.setsDirection { row := row.(direction := c.direction); }
        fees := fees[k := row];
      } else {
        fees := fees + [FeeRow(t, ESTIMATE, c.direction, c.amountGross, c.vatRate.GetOr(0.0), false)];
      }
    }

    method DeleteFee(t: FeeType)
      modifies this`fees
      ensures fees == Deleted(old(fees), t)
    {
      var k := Slot(fees, t);
      if k < |fees| { fees := fees[..k] + fees[k + 1..]; }
    }

    /** The fee rows of an estimate, one fee after another; false when a definition is missing. */
    method WriteFees(inputs: Inputs, settings: Settings) returns (ok: bool)
      modifies this`fees
      ensures ok <==> EstimatedFees(old(fees), inputs, settings).Some?
      ensures ok ==> Some(fees) == EstimatedFees(old(fees), inputs, settings)
    {
      var hadStoppage := Slot(fees, Stoppage) < |fees|;
      if !PsfExempt(inputs.order) {
        var c := PsfCharge(inputs);
        if c.None? { return false; }
        UpsertLeavesOthers(fees, Forward(PLATFORM_SERVICE), c.value, Stoppage);
        UpsertFee(Forward(PLATFORM_SERVICE), c.value);
      }
      ghost var f1 := fees;
      assert WithPsf(old(fees), inputs) == Some(f1) && (EstimateRow(f1, Stoppage).Some? <==> hadStoppage);
      var o := inputs.order;
      if o.saleGross.Some? && o.saleVat.Some? && !o.micro && settings.includeStopaj && !hadStoppage {
        var c := StoppageCharge(inputs);
        if c.None? { return false; }
        UpsertFee(Stoppage, c.value);
      }
      ghost var f2 := fees;
      assert WithStoppage(f1, inputs, settings) == Some(f2);
      if inputs.shippingNet.Some? {
        var c := ShippingCharge(inputs);
        if c.None? { return false; }
        UpsertFee(Forward(SHIPPING), c.value);
      }
      ghost var f3 := fees;
      assert WithShipping(f2, inputs) == Some(f3);
      if o.micro && o.saleGross.Some? {
        if o.cancelled {
          DeleteFee(Forward(INTERNATIONAL_SERVICE));
        } else {
          var c := InternationalCharge(inputs);
          if c.None? { return false; }
          UpsertFee(Forward(INTERNATIONAL_SERVICE), c.value);
        }
      }
      assert WithInternational(f3, inputs) == Some(fees);
      return true;
    }

    /** The body of an estimate inside its transaction; false means it threw part-way. */
    method EstimateWithin(inputs: Inputs, live: RawSettings) returns (ok: bool)
      modifies this
      ensures ok <==> Estimate(old(Value()), inputs, live).Some?
      ensures ok ==> Some(Value()) == Estimate(old(Value()), inputs, live)
    {
      if inputs.order.excluded { return true; }
      var settings;
      if stopaj.None? || negativeNetVat.None? {
        var store := ResolveSettings(live);
        settings := Settings(store.includeStopaj, if inputs.order.micro then true else store.includeNegativeNetVat);
        stopaj, negativeNetVat := Some(settings.includeStopaj), Some(settings.includeNegativeNetVat);
      } else {
        settings := Settings(stopaj.value, negativeNetVat.value);
      }
      ok := WriteFees(inputs, settings);
      if !ok || !Computable(inputs.order) { return; }
      var figures := EstimateOf(inputs.order, fees, settings.includeNegativeNetVat);
      estimated := Some(figures);
    }

    /** A throw rolls the whole transaction back. */
    method ApplyEstimate(inputs: Inputs, live: RawSettings) returns (ok: bool)
      modifies this
      ensures ok <==> Estimate(old(Value()), inputs, live).Some?
      ensures Value() == Estimate(old(Value()), inputs, live).GetOr(old(Value()))
    {
      var before := Value();
      ok := EstimateWithin(inputs, live);
      if !ok { Rollback(before); }
    }

    method Rollback(before: Sheet)
      modifies this
      ensures Value() == before
    {
      fees, stopaj, negativeNetVat := before.fees, before.stopaj, before.negativeNetVat;
      estimated, settled := before.estimated, before.settled;
    }

    method RecomputeSettled(o: OrderRow) returns (skip: Option<SkipReason>)
      modifies this`settled
      ensures Value() == Settle(old(Value()), o)
      ensures skip == SettleSkip(o)
    {
      if o.excluded { return Some(ProfitExcluded); }
      if o.saleGross.None? || o.saleVat.None? { return Some(MissingSaleAggregate); }
      if !Computable(o) { return Some(IncompleteCostSnapshots); }
      var cost, commission := SumLines(o.lines, true);
      var counted := Kept(fees, Settles);
      var base := ProfitInput(MoneyPair(o.saleGross.value, o.saleVat.value), cost, commission, EngineFees(counted),
                              StoppageDue(counted), negativeNetVat.GetOr(DEFAULT_SETTINGS.includeNegativeNetVat));
      var folded := FoldReturnLegs(base, counted);
      var breakdown := ComputeProfit(folded);
      settled := Some(StoredFigures(breakdown));
      return None;
    }

    method WriteLegIfPositive(leg: ReturnLeg, gross: real, vatRate: Option<Rate>)
      modifies this`fees
      ensures fees == WithLeg(old(fees), leg, gross, vatRate)
    {
      if gross > 0.0 { UpsertFee(Return(leg), LegCharge(leg, gross, vatRate)); }
    }

    method WriteLineLegs(lines: seq<ProfitLine>, tally: seq<Units>) returns (refund: Leg)
      modifies this`fees
      ensures fees == WithLineLegs(old(fees), lines, tally)
      ensures refund == Accumulated(lines, REFUND_DEDUCTION, tally)
    {
      var commission, cost;
      refund, commission, cost := SumLineLegs(lines, tally);
      WriteLegIfPositive(REFUND_DEDUCTION, refund.gross, Some(refund.vatRate));
      WriteLegIfPositive(COMMISSION_REFUND, commission.gross, Some(commission.vatRate));
      WriteLegIfPositive(COST_RETURN, cost.gross, Some(cost.vatRate));
    }

    method WriteReturn(inputs: Inputs, claim: Claim, tally: seq<Units>) returns (ok: bool)
      requires tally == TallyOf(claim.accepted)
      modifies this`fees
      ensures ok <==> DomesticReturn(old(fees), inputs, claim).Some?
      ensures ok ==> Some(fees) == DomesticReturn(old(fees), inputs, claim)
    {
      var refund := WriteLineLegs(inputs.order.lines, tally);
      if refund.gross > 0.0 {
        if inputs.book.stoppage.None? { return false; }
        WriteLegIfPositive(STOPPAGE_REFUND, StoppageRefundGross(refund, inputs.book.stoppage.value), None);
      }
      if claim.returnShippingNet.Some? {
        if inputs.book.returnShipping.None? { return false; }
        var def := inputs.book.returnShipping.value;
        WriteLegIfPositive(RETURN_SHIPPING, Grossed(claim.returnShippingNet.value, def.vatRate), Some(def.vatRate));
      }
      return true;
    }

    method WriteOverseasReturn(inputs: Inputs, claim: Claim, tally: seq<Units>) returns (ok: bool)
      requires tally == TallyOf(claim.accepted)
      modifies this`fees
      ensures ok <==> OverseasReturn(old(fees), inputs, claim).Some?
      ensures ok ==> Some(fees) == OverseasReturn(old(fees), inputs, claim)
    {
      var sum := SumOverseas(inputs.order.lines, tally, claim.tiers);
      if sum.None? { return false; }
      var gross := Round2(sum.value);
      if gross > 0.0 {
        UpsertFee(Forward(OVERSEAS_RETURN_OPERATION), Charge(gross, None, DEBIT, true));
      } else {
        DeleteFee(Forward(OVERSEAS_RETURN_OPERATION));
      }
      return true;
    }

    method EstimateReturnOnClaim(inputs: Inputs, live: RawSettings, claim: Claim) returns (ok: bool)
      modifies this
      ensures ok <==> EstimateReturn(old(Value()), inputs, live, claim).Some?
      ensures Value() == EstimateReturn(old(Value()), inputs, live, claim).GetOr(old(Value()))
    {
      if inputs.order.excluded || claim.accepted == [] { return true; }
      var before := Value();
      var tally := TallyClaim(claim.accepted);
      if inputs.order.micro {
        ok := WriteOverseasReturn(inputs, claim, tally);
      } else {
        ok := WriteReturn(inputs, claim, tally);
      }
      if ok { ok := EstimateWithin(inputs, live); }
      if !ok { Rollback(before); }
    }
  }
}
