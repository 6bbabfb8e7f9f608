/**
 What the estimated fees amount to: which definition each charge is taken from, what net it
 splits back into, and what changes when a same-day label turns out not to have been earned.
 */
module FeeAmounts {
  import opened Options
  import opened Money
  import opened ProfitFormula
  import opened ReturnLegs
  import opened FeeTable
  import opened OrderProfit
  import opened FeeRuns
  import opened FullReturn

  // ─── Rounding ─────────────────────────────────────────────────────────

  lemma HalfUpKeepsOrder(x: real, y: real)
    requires 0.0 <= x <= y
    ensures 0.0 <= HalfUp(x) <= HalfUp(y)
  {
    assert 0 <= (x * 100.0 + 0.5).Floor <= (y * 100.0 + 0.5).Floor;
  }

  lemma RoundKeepsOrder(x: real, y: real)
    requires x <= y
    ensures Round2(x) <= Round2(y)
  {
    if 0.0 <= x {
      HalfUpKeepsOrder(x, y);
    } else if y <= 0.0 {
      HalfUpKeepsOrder(-y, -x);
    } else {
      HalfUpKeepsOrder(0.0, y);
      HalfUpKeepsOrder(0.0, -x);
    }
  }

  /** The row holds this net amount at this VAT rate, up to half a cent. */
  predicate HoldsNet(row: Option<FeeRow>, net: real, vatRate: Rate) {
    && row.Some? && row.value.vatRate == vatRate
    && -0.005 <= row.value.amountGross - GrossToVat(row.value.amountGross, row.value.vatRate) - net <= 0.005
  }

  lemma NetDrift(x: real, y: real, v: real)
    requires 0.0 <= v < 1.0 && -0.005 <= x - y <= 0.005
    ensures -0.005 <= (x - x * v) - (y - y * v) <= 0.005
  {
    var d := x - y;
    assert (x - x * v) - (y - y * v) == d - d * v;
    Damped(d, v);
  }

  lemma NonNegative(x: real, y: real)
    requires x >= 0.0 && y >= 0.0
    ensures x * y >= 0.0
  {
  }

  lemma DampedUp(d: real, v: real)
    requires 0.0 <= v < 1.0 && d >= 0.0
    ensures 0.0 <= d - d * v <= d
  {
    NonNegative(d, v);
    NonNegative(d, 1.0 - v);
    assert d * (1.0 - v) == d - d * v;
  }

  lemma Damped(d: real, v: real)
    requires 0.0 <= v < 1.0 && -0.005 <= d <= 0.005
    ensures -0.005 <= d - d * v <= 0.005
  {
    if d >= 0.0 {
      DampedUp(d, v);
    } else {
      DampedUp(-d, v);
      Negated(d, v);
    }
  }

  lemma Negated(d: real, v: real)
    ensures -d * v == -(d * v)
  {
  }

  lemma GrossedHoldsNet(row: Option<FeeRow>, net: real, vatRate: Rate)
    requires row.Some? && row.value.vatRate == vatRate && row.value.amountGross == Round2(Grossed(net, vatRate))
    ensures HoldsNet(row, net, vatRate)
  {
    var g := Grossed(net, vatRate);
    RoundIsClose(g);
    GrossedRoundTrip(net, vatRate);
    VatIsAShare(g, vatRate);
    VatIsAShare(Round2(g), vatRate);
    NetDrift(Round2(g), g, VatShare(vatRate));
  }

  // ─── The charges of one estimate ──────────────────────────────────────

  /** The order pays a service fee: domestic, with a line that is not digital or no line at all. */
  predicate PaysServiceFee(o: OrderRow) {
    !o.excluded && !o.micro && (o.lines == [] || exists i :: 0 <= i < |o.lines| && !o.lines[i].digital)
  }

  /**
   The definition of the service fee: the standard one without a same-day label, whatever
   is known of the shipment; with the label the fast one until the parcel is known not to
   have left the same day, then the standard one.
   */
  predicate IsServiceDefinition(inputs: Inputs, def: Definition) {
    && (!inputs.order.sameDayLabel ==> inputs.book.platformService == Some(def))
    && (inputs.order.sameDayLabel && inputs.order.shippedSameDay == Some(false) ==> inputs.book.platformService == Some(def))
    && (inputs.order.sameDayLabel && inputs.order.shippedSameDay != Some(false) ==> inputs.book.platformServiceFast == Some(def))
  }

  lemma ServiceFeeRow(fees: seq<FeeRow>, inputs: Inputs, def: Definition)
    requires PaysServiceFee(inputs.order) && IsServiceDefinition(inputs, def)
    requires WithPsf(fees, inputs).Some?
    ensures def.fixedAmountNet.Some?
    ensures var row := EstimateRow(WithPsf(fees, inputs).value, Forward(PLATFORM_SERVICE));
            && row.Some? && row.value.vatRate == def.vatRate
            && row.value.amountGross == Round2(Grossed(def.fixedAmountNet.value, def.vatRate))
  {
    assert !PsfExempt(inputs.order);
    UpsertSets(fees, Forward(PLATFORM_SERVICE), PsfCharge(inputs).value);
  }

  lemma WithholdingRow(fees: seq<FeeRow>, inputs: Inputs, settings: Settings)
    requires WithStoppage(fees, inputs, settings).Some? && EstimateRow(fees, Stoppage).None?
    ensures var row := EstimateRow(WithStoppage(fees, inputs, settings).value, Stoppage);
            if inputs.order.saleGross.Some? && inputs.order.saleVat.Some? && !inputs.order.micro && settings.includeStopaj then
              && inputs.book.stoppage.Some? && inputs.book.stoppage.value.rateOfSale.Some?
              && row.Some? && row.value.direction == DEBIT && row.value.vatRate == 0.0
              && row.value.amountGross
                 == Round2(Part(inputs.order.saleGross.value - inputs.order.saleVat.value, inputs.book.stoppage.value.rateOfSale.value))
            else row.None?
  {
    if OwesStoppage(fees, inputs, settings) { UpsertSets(fees, Stoppage, StoppageCharge(inputs).value); }
  }

  lemma ShippingRow(fees: seq<FeeRow>, inputs: Inputs)
    requires WithShipping(fees, inputs).Some?
    ensures var row := EstimateRow(WithShipping(fees, inputs).value, Forward(SHIPPING));
            match inputs.shippingNet
            case None => row == EstimateRow(fees, Forward(SHIPPING))
            case Some(net) =>
              && inputs.book.shipping.Some? && row.Some? && row.value.vatRate == inputs.book.shipping.value.vatRate
              && row.value.amountGross == Round2(Grossed(net, inputs.book.shipping.value.vatRate))
  {
    if inputs.shippingNet.Some? { UpsertSets(fees, Forward(SHIPPING), ShippingCharge(inputs).value); }
  }

  lemma InternationalRow(fees: seq<FeeRow>, inputs: Inputs)
    requires OneEstimateEach(fees) && WithInternational(fees, inputs).Some?
    ensures var t := Forward(INTERNATIONAL_SERVICE);
            var row := EstimateRow(WithInternational(fees, inputs).value, t);
            if !inputs.order.micro || inputs.order.saleGross.None? then row == EstimateRow(fees, t)
            else if inputs.order.cancelled then row.None?
            else
              && inputs.book.international.Some? && inputs.book.international.value.rateOfSale.Some?
              && row.Some? && row.value.vatRate == inputs.book.international.value.vatRate
              && row.value.amountGross
                 == Round2(Part(inputs.order.listGross.GetOr(0.0) - inputs.order.sellerDiscountGross.GetOr(0.0),
                                 inputs.book.international.value.rateOfSale.value))
  {
    var t := Forward(INTERNATIONAL_SERVICE);
    if inputs.order.micro && inputs.order.saleGross.Some? {
      if inputs.order.cancelled {
        DeleteKeepsOneEach(fees, t);
      } else {
        UpsertSets(fees, t, InternationalCharge(inputs).value);
      }
    }
  }

  /** The four stages of an estimate, each with the rows it leaves to the others. */
  lemma Stages(fees: seq<FeeRow>, inputs: Inputs, settings: Settings)
    requires OneEstimateEach(fees) && EstimatedFees(fees, inputs, settings).Some?
    ensures var f := EstimatedFees(fees, inputs, settings).value;
            var f1 := WithPsf(fees, inputs);
            && f1.Some? && EstimateRow(f, Forward(PLATFORM_SERVICE)) == EstimateRow(f1.value, Forward(PLATFORM_SERVICE))
            && EstimateRow(f1.value, Stoppage) == EstimateRow(fees, Stoppage)
            && var f2 := WithStoppage(f1.value, inputs, settings);
            && f2.Some? && EstimateRow(f, Stoppage) == EstimateRow(f2.value, Stoppage)
            && EstimateRow(f2.value, Forward(SHIPPING)) == EstimateRow(fees, Forward(SHIPPING))
            && var f3 := WithShipping(f2.value, inputs);
            && f3.Some? && OneEstimateEach(f3.value) && EstimateRow(f, Forward(SHIPPING)) == EstimateRow(f3.value, Forward(SHIPPING))
            && EstimateRow(f3.value, Forward(INTERNATIONAL_SERVICE)) == EstimateRow(fees, Forward(INTERNATIONAL_SERVICE))
            && WithInternational(f3.value, inputs) == Some(f)
  {
    var f1 := WithPsf(fees, inputs).value;
    PsfFrame(fees, inputs, fees);
    var f2 := WithStoppage(f1, inputs, settings).value;
    StoppageFrame(f1, inputs, settings, f1);
    var f3 := WithShipping(f2, inputs).value;
    ShippingFrame(f2, inputs, f2);
    InternationalFrame(f3, inputs);
  }

  /**
   The service fee, after any estimate in any run of the sheet: the row splits back into the
   net of the definition that the label and the shipment ask for, within half a cent.
   */
  lemma ServiceFeeIsCharged(s: Sheet, steps: seq<Step>, inputs: Inputs, live: RawSettings, def: Definition)
    requires OneEstimateEach(s.fees) && PaysServiceFee(inputs.order) && IsServiceDefinition(inputs, def)
    requires Estimate(Run(s, steps), inputs, live).Some?
    ensures def.fixedAmountNet.Some?
    ensures var row := EstimateRow(Estimate(Run(s, steps), inputs, live).value.fees, Forward(PLATFORM_SERVICE));
            HoldsNet(row, def.fixedAmountNet.value, def.vatRate)
  {
    var t := Run(s, steps);
    FeeTableRuns(s, steps);
    Stages(t.fees, inputs, EffectiveSettings(t, inputs, live));
    ServiceFeeRow(t.fees, inputs, def);
    var row := EstimateRow(Estimate(t, inputs, live).value.fees, Forward(PLATFORM_SERVICE));
    GrossedHoldsNet(row, def.fixedAmountNet.value, def.vatRate);
  }

  /** An order of digital goods alone, like a micro export, never has its service fee touched. */
  lemma ExemptOrdersPayNoServiceFee(s: Sheet, steps: seq<Step>, inputs: Inputs, live: RawSettings)
    requires OneEstimateEach(s.fees) && !PaysServiceFee(inputs.order)
    requires Estimate(Run(s, steps), inputs, live).Some?
    ensures EstimateRow(Estimate(Run(s, steps), inputs, live).value.fees, Forward(PLATFORM_SERVICE))
         == EstimateRow(Run(s, steps).fees, Forward(PLATFORM_SERVICE))
  {
    var t := Run(s, steps);
    FeeTableRuns(s, steps);
    if !inputs.order.excluded { Stages(t.fees, inputs, EffectiveSettings(t, inputs, live)); }
  }

  /** The other charges, after any estimate in any run of the sheet, with their bases and rates written out. */
  lemma OtherChargesAreCharged(s: Sheet, steps: seq<Step>, inputs: Inputs, live: RawSettings)
    requires OneEstimateEach(s.fees) && !inputs.order.excluded && Estimate(Run(s, steps), inputs, live).Some?
    ensures var before, t, o := Run(s, steps).fees, Estimate(Run(s, steps), inputs, live).value, inputs.order;
            var stoppage, shipping := EstimateRow(t.fees, Stoppage), EstimateRow(t.fees, Forward(SHIPPING));
            var international := EstimateRow(t.fees, Forward(INTERNATIONAL_SERVICE));
            && (EstimateRow(before, Stoppage).Some? ==> stoppage == EstimateRow(before, Stoppage))
            && (EstimateRow(before, Stoppage).None? ==>
                  if o.saleGross.Some? && o.saleVat.Some? && !o.micro && t.stopaj == Some(true) then
                    && inputs.book.stoppage.Some? && inputs.book.stoppage.value.rateOfSale.Some? && stoppage.Some?
                    && stoppage.value.amountGross
                       == Round2(Part(o.saleGross.value - o.saleVat.value, inputs.book.stoppage.value.rateOfSale.value))
                    && stoppage.value.direction == DEBIT && stoppage.value.vatRate == 0.0
                  else stoppage.None?)
            && (inputs.shippingNet.Some? ==>
                  inputs.book.shipping.Some? && HoldsNet(shipping, inputs.shippingNet.value, inputs.book.shipping.value.vatRate))
            && (inputs.shippingNet.None? ==> shipping == EstimateRow(before, Forward(SHIPPING)))
            && (o.micro && o.saleGross.Some? && o.cancelled ==> international.None?)
            && (o.micro && o.saleGross.Some? && !o.cancelled ==>
                  && inputs.book.international.Some? && inputs.book.international.value.rateOfSale.Some? && international.Some?
                  && international.value.vatRate == inputs.book.international.value.vatRate
                  && international.value.amountGross
                     == Round2(Part(o.listGross.GetOr(0.0) - o.sellerDiscountGross.GetOr(0.0), inputs.book.international.value.rateOfSale.value)))
  {
    var t0 := Run(s, steps);
    var settings := EffectiveSettings(t0, inputs, live);
    FeeTableRuns(s, steps);
    Stages(t0.fees, inputs, settings);
    var f1 := WithPsf(t0.fees, inputs).value;
    var f2 := WithStoppage(f1, inputs, settings).value;
    var f3 := WithShipping(f2, inputs).value;
    if EstimateRow(f1, Stoppage).None? { WithholdingRow(f1, inputs, settings); }
    ShippingRow(f2, inputs);
    InternationalRow(f3, inputs);
    if inputs.shippingNet.Some? {
      GrossedHoldsNet(EstimateRow(f3, Forward(SHIPPING)), inputs.shippingNet.value, inputs.book.shipping.value.vatRate);
    }
  }

  // ─── A label that was not earned ──────────────────────────────────────

  function ShippedLate(inputs: Inputs): Inputs { inputs.(order := inputs.order.(shippedSameDay := Some(false))) }

  /** A table that has kept the written withholding and shipping has nothing of them to write again. */
  lemma RestIsCarried(fees: seq<FeeRow>, inputs: Inputs, settings: Settings, late: seq<FeeRow>)
    requires OneEstimateEach(fees) && EstimatedFees(fees, inputs, settings).Some?
    requires EstimateRow(late, Stoppage) == EstimateRow(EstimatedFees(fees, inputs, settings).value, Stoppage)
    requires EstimateRow(late, Forward(SHIPPING)) == EstimateRow(EstimatedFees(fees, inputs, settings).value, Forward(SHIPPING))
    ensures WithStoppage(late, inputs, settings) == Some(late) && WithShipping(late, inputs) == Some(late)
  {
    Stages(fees, inputs, settings);
    var f1 := WithPsf(fees, inputs).value;
    PsfFrame(fees, inputs, late);
    var f2 := WithStoppage(f1, inputs, settings).value;
    StoppageFrame(f1, inputs, settings, late);
    ShippingFrame(f2, inputs, late);
  }

  lemma ShipmentMattersToServiceFee(late: seq<FeeRow>, inputs: Inputs, settings: Settings)
    requires WithStoppage(late, inputs, settings) == Some(late) && WithShipping(late, inputs) == Some(late)
    ensures WithStoppage(late, ShippedLate(inputs), settings) == Some(late) && WithShipping(late, ShippedLate(inputs)) == Some(late)
  {
  }

  /** A second estimate that differs only in the shipment writes at most the service fee. */
  lemma OnlyServiceFeeIsRefined(fees: seq<FeeRow>, inputs: Inputs, settings: Settings)
    requires OneEstimateEach(fees) && PaysServiceFee(inputs.order) && EstimatedFees(fees, inputs, settings).Some?
    requires EstimatedFees(EstimatedFees(fees, inputs, settings).value, ShippedLate(inputs), settings).Some?
    ensures var f := EstimatedFees(fees, inputs, settings).value;
            EstimatedFees(f, ShippedLate(inputs), settings) == WithPsf(f, ShippedLate(inputs))
  {
    var f := EstimatedFees(fees, inputs, settings).value;
    EstimatedFeesFrame(fees, inputs, settings);
    var late := WithPsf(f, ShippedLate(inputs)).value;
    PsfFrame(f, ShippedLate(inputs), f);
    RestIsCarried(fees, inputs, settings, late);
    ShipmentMattersToServiceFee(late, inputs, settings);
  }

  /** Only the row of the service fee differs, and it is not lower. */
  predicate OnlyRaises(before: seq<FeeRow>, after: seq<FeeRow>) {
    var k := Slot(before, Forward(PLATFORM_SERVICE));
    && k < |before| == |after|
    && (forall i :: 0 <= i < |before| && i != k ==> after[i] == before[i])
    && after[k].feeType == Forward(PLATFORM_SERVICE) && after[k].source == ESTIMATE
    && after[k].amountGross >= before[k].amountGross
    && after[k].confirmed == before[k].confirmed && after[k].direction == before[k].direction
  }

  lemma RaisedRow(before: seq<FeeRow>, c: Charge)
    requires EstimateRow(before, Forward(PLATFORM_SERVICE)).Some? && !c.setsDirection
    requires c.amountGross >= EstimateRow(before, Forward(PLATFORM_SERVICE)).value.amountGross
    ensures OnlyRaises(before, Upserted(before, Forward(PLATFORM_SERVICE), c))
  {
  }

  lemma RefinedFees(fees: seq<FeeRow>, inputs: Inputs, settings: Settings, fast: Definition, standard: Definition)
    requires OneEstimateEach(fees) && PaysServiceFee(inputs.order) && EstimatedFees(fees, inputs, settings).Some?
    requires IsServiceDefinition(inputs, fast) && IsServiceDefinition(ShippedLate(inputs), standard)
    requires fast.fixedAmountNet.Some? && standard.fixedAmountNet.Some?
    requires Grossed(fast.fixedAmountNet.value, fast.vatRate) <= Grossed(standard.fixedAmountNet.value, standard.vatRate)
    requires EstimatedFees(EstimatedFees(fees, inputs, settings).value, ShippedLate(inputs), settings).Some?
    ensures var f := EstimatedFees(fees, inputs, settings).value;
            OnlyRaises(f, EstimatedFees(f, ShippedLate(inputs), settings).value)
  {
    var f := EstimatedFees(fees, inputs, settings).value;
    OnlyServiceFeeIsRefined(fees, inputs, settings);
    Stages(fees, inputs, settings);
    ServiceFeeRow(fees, inputs, fast);
    RoundKeepsOrder(Grossed(fast.fixedAmountNet.value, fast.vatRate), Grossed(standard.fixedAmountNet.value, standard.vatRate));
    assert !PsfExempt(ShippedLate(inputs).order);
    RaisedRow(f, PsfCharge(ShippedLate(inputs)).value);
  }

  /**
   When the parcel of a labelled order turns out to have left late, the next estimate writes
   the service-fee row and no other row; and with a fast fee not above the standard one it
   never lowers it.
   */
  lemma LateShipmentNeverLowersTheFee(s: Sheet, inputs: Inputs, live: RawSettings, live': RawSettings, fast: Definition, standard: Definition)
    requires OneEstimateEach(s.fees) && PaysServiceFee(inputs.order) && inputs.order.sameDayLabel
    requires inputs.order.shippedSameDay != Some(false)
    requires inputs.book.platformServiceFast == Some(fast) && inputs.book.platformService == Some(standard)
    requires Estimate(s, inputs, live).Some? && Estimate(Estimate(s, inputs, live).value, ShippedLate(inputs), live').Some?
    requires fast.fixedAmountNet.Some? && standard.fixedAmountNet.Some?
    requires Grossed(fast.fixedAmountNet.value, fast.vatRate) <= Grossed(standard.fixedAmountNet.value, standard.vatRate)
    ensures var t := Estimate(s, inputs, live).value;
            OnlyRaises(t.fees, Estimate(t, ShippedLate(inputs), live').value.fees)
  {
    var settings := EffectiveSettings(s, inputs, live);
    assert EffectiveSettings(Estimate(s, inputs, live).value, ShippedLate(inputs), live') == settings;
    RefinedFees(s.fees, inputs, settings, fast, standard);
  }

  // ─── The overseas fee ─────────────────────────────────────────────────

  /** The tier taken is the first in the list, newest first, whose band holds the unit price; without one there is no rate. */
  lemma {:induction false} TierIsFirstMatch(tiers: seq<Tier>, price: real)
    ensures forall rate :: TierRate(tiers, price) == Some(rate) <==>
              exists k :: 0 <= k < |tiers| && tiers[k].rate == rate && tiers[k].minSaleGross <= price <= tiers[k].maxSaleGross
                && forall i :: 0 <= i < k ==> !(tiers[i].minSaleGross <= price <= tiers[i].maxSaleGross)
  {
    if tiers != [] {
      TierIsFirstMatch(tiers[1..], price);
      forall rate | TierRate(tiers, price) == Some(rate)
        ensures exists k :: 0 <= k < |tiers| && tiers[k].rate == rate && tiers[k].minSaleGross <= price <= tiers[k].maxSaleGross
                  && forall i :: 0 <= i < k ==> !(tiers[i].minSaleGross <= price <= tiers[i].maxSaleGross)
      {
        if !(tiers[0].minSaleGross <= price <= tiers[0].maxSaleGross) {
          var k :| 0 <= k < |tiers[1..]| && tiers[1..][k].rate == rate
                   && tiers[1..][k].minSaleGross <= price <= tiers[1..][k].maxSaleGross
                   && forall i :: 0 <= i < k ==> !(tiers[1..][i].minSaleGross <= price <= tiers[1..][i].maxSaleGross);
          assert tiers[k + 1] == tiers[1..][k];
          assert forall i :: 1 <= i < k + 1 ==> tiers[i] == tiers[1..][i - 1];
        }
      }
    }
  }
}
