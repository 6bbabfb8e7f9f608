/**
 Runs of estimates, return estimates, settlements, confirmations and invoices over one
 order's sheet, in any order: what every run keeps, what a repeated call changes
 (nothing), and what the store's settings can still reach after the first call (nothing).
 */
module FeeRuns {
  import opened Options
  import opened Money
  import opened ProfitFormula
  import opened ReturnLegs
  import opened FeeTable
  import opened OrderProfit

  datatype Step =
    | EstimateStep(inputs: Inputs, live: RawSettings)
    | ReturnStep(inputs: Inputs, live: RawSettings, claim: Claim)
    | SettleStep(order: OrderRow)
    | ConfirmStep(index: nat)
    | InvoiceStep(row: FeeRow)

  /** A call that throws leaves the sheet as it was; an invoice is any row that is not an estimate. */
  function Next(s: Sheet, step: Step): Sheet {
    match step
    case EstimateStep(inputs, live) => Estimate(s, inputs, live).GetOr(s)
    case ReturnStep(inputs, live, claim) => EstimateReturn(s, inputs, live, claim).GetOr(s)
    case SettleStep(o) => Settle(s, o)
    case ConfirmStep(k) => if k < |s.fees| then s.(fees := s.fees[k := s.fees[k].(confirmed := true)]) else s
    case InvoiceStep(r) => if r.source == ESTIMATE then s else s.(fees := s.fees + [r])
  }

  function Run(s: Sheet, steps: seq<Step>): Sheet {
    if steps == [] then s else Next(Run(s, steps[..|steps| - 1]), steps[|steps| - 1])
  }

  // ─── What one call writes ─────────────────────────────────────────────

  /** The types an estimate may write. */
  predicate EstimateWrites(t: FeeType) {
    t == Stoppage || (t.Forward? && t.kind != OVERSEAS_RETURN_OPERATION)
  }

  /** The types a return estimate may write before it estimates again. */
  predicate ReturnWrites(t: FeeType) { t.Return? || t == Forward(OVERSEAS_RETURN_OPERATION) }

  lemma UpsertFrame(fees: seq<FeeRow>, t: FeeType, c: Charge)
    requires OneEstimateEach(fees)
    ensures OneEstimateEach(Upserted(fees, t, c))
    ensures Carries(Upserted(fees, t, c), t, c)
    ensures forall other :: other != t ==> EstimateRow(Upserted(fees, t, c), other) == EstimateRow(fees, other)
  {
    UpsertKeepsOneEach(fees, t, c);
    UpsertIsIdempotent(fees, t, c);
    forall other | other != t
      ensures EstimateRow(Upserted(fees, t, c), other) == EstimateRow(fees, other)
    {
      UpsertLeavesOthers(fees, t, c, other);
    }
  }

  lemma DeleteFrame(fees: seq<FeeRow>, t: FeeType)
    requires OneEstimateEach(fees)
    ensures OneEstimateEach(Deleted(fees, t)) && EstimateRow(Deleted(fees, t), t) == None
    ensures forall other :: other != t ==> EstimateRow(Deleted(fees, t), other) == EstimateRow(fees, other)
  {
    DeleteKeepsOneEach(fees, t);
    forall other | other != t
      ensures EstimateRow(Deleted(fees, t), other) == EstimateRow(fees, other)
    {
      DeleteLeavesOthers(fees, t, other);
    }
  }

  // Each frame lemma also says of a later table that has kept the written row: writing
  // again changes nothing there.

  lemma PsfFrame(fees: seq<FeeRow>, inputs: Inputs, later: seq<FeeRow>)
    requires OneEstimateEach(fees) && WithPsf(fees, inputs).Some?
    ensures var f, t := WithPsf(fees, inputs).value, Forward(PLATFORM_SERVICE);
            && OneEstimateEach(f)
            && (forall other :: other != t ==> EstimateRow(f, other) == EstimateRow(fees, other))
            && (EstimateRow(later, t) == EstimateRow(f, t) ==> WithPsf(later, inputs) == Some(later))
  {
    if !PsfExempt(inputs.order) {
      UpsertFrame(fees, Forward(PLATFORM_SERVICE), PsfCharge(inputs).value);
      UpsertIsIdempotent(later, Forward(PLATFORM_SERVICE), PsfCharge(inputs).value);
    }
  }

  lemma StoppageFrame(fees: seq<FeeRow>, inputs: Inputs, settings: Settings, later: seq<FeeRow>)
    requires OneEstimateEach(fees) && WithStoppage(fees, inputs, settings).Some?
    ensures var f := WithStoppage(fees, inputs, settings).value;
            && OneEstimateEach(f)
            && (EstimateRow(fees, Stoppage).Some? ==> EstimateRow(f, Stoppage) == EstimateRow(fees, Stoppage))
            && (forall t :: t != Stoppage ==> EstimateRow(f, t) == EstimateRow(fees, t))
            && (EstimateRow(later, Stoppage) == EstimateRow(f, Stoppage) ==> WithStoppage(later, inputs, settings) == Some(later))
  {
    if OwesStoppage(fees, inputs, settings) { UpsertFrame(fees, Stoppage, StoppageCharge(inputs).value); }
  }

  lemma ShippingFrame(fees: seq<FeeRow>, inputs: Inputs, later: seq<FeeRow>)
    requires OneEstimateEach(fees) && WithShipping(fees, inputs).Some?
    ensures var f, t := WithShipping(fees, inputs).value, Forward(SHIPPING);
            && OneEstimateEach(f)
            && (forall other :: other != t ==> EstimateRow(f, other) == EstimateRow(fees, other))
            && (EstimateRow(later, t) == EstimateRow(f, t) ==> WithShipping(later, inputs) == Some(later))
  {
    if inputs.shippingNet.Some? {
      UpsertFrame(fees, Forward(SHIPPING), ShippingCharge(inputs).value);
      UpsertIsIdempotent(later, Forward(SHIPPING), ShippingCharge(inputs).value);
    }
  }

  lemma InternationalFrame(fees: seq<FeeRow>, inputs: Inputs)
    requires OneEstimateEach(fees) && WithInternational(fees, inputs).Some?
    ensures var f := WithInternational(fees, inputs).value;
            && OneEstimateEach(f)
            && WithInternational(f, inputs) == Some(f)
            && forall t :: t != Forward(INTERNATIONAL_SERVICE) ==> EstimateRow(f, t) == EstimateRow(fees, t)
  {
    var t := Forward(INTERNATIONAL_SERVICE);
    if inputs.order.micro && inputs.order.saleGross.Some? {
      if inputs.order.cancelled {
        DeleteFrame(fees, t);
      } else {
        UpsertFrame(fees, t, InternationalCharge(inputs).value);
        UpsertIsIdempotent(WithInternational(fees, inputs).value, t, InternationalCharge(inputs).value);
      }
    }
  }

  /** An estimate keeps one row per type and leaves foreign types and a written withholding alone. */
  lemma EstimatedFeesFrame(fees: seq<FeeRow>, inputs: Inputs, settings: Settings)
    requires OneEstimateEach(fees) && EstimatedFees(fees, inputs, settings).Some?
    ensures var f := EstimatedFees(fees, inputs, settings).value;
            && OneEstimateEach(f)
            && (EstimateRow(fees, Stoppage).Some? ==> EstimateRow(f, Stoppage) == EstimateRow(fees, Stoppage))
            && forall t :: !EstimateWrites(t) ==> EstimateRow(f, t) == EstimateRow(fees, t)
  {
    var f1 := WithPsf(fees, inputs).value;
    PsfFrame(fees, inputs, fees);
    var f2 := WithStoppage(f1, inputs, settings).value;
    StoppageFrame(f1, inputs, settings, f1);
    var f3 := WithShipping(f2, inputs).value;
    ShippingFrame(f2, inputs, f2);
    InternationalFrame(f3, inputs);
    var f := WithInternational(f3, inputs).value;
    forall t | !EstimateWrites(t)
      ensures EstimateRow(f, t) == EstimateRow(fees, t)
    {
      assert EstimateRow(f, t) == EstimateRow(f3, t);
      assert EstimateRow(f3, t) == EstimateRow(f2, t);
      assert EstimateRow(f2, t) == EstimateRow(f1, t);
    }
  }

  /** A second pass over the same inputs writes nothing. */
  lemma EstimatedFeesSettle(fees: seq<FeeRow>, inputs: Inputs, settings: Settings)
    requires OneEstimateEach(fees) && EstimatedFees(fees, inputs, settings).Some?
    ensures var f := EstimatedFees(fees, inputs, settings).value; EstimatedFees(f, inputs, settings) == Some(f)
  {
    var f := EstimatedFees(fees, inputs, settings).value;
    var f1 := WithPsf(fees, inputs).value;
    PsfFrame(fees, inputs, f);
    var f2 := WithStoppage(f1, inputs, settings).value;
    StoppageFrame(f1, inputs, settings, f);
    var f3 := WithShipping(f2, inputs).value;
    ShippingFrame(f2, inputs, f);
    InternationalFrame(f3, inputs);
  }

  // ─── Idempotence ──────────────────────────────────────────────────────

  /**
   An estimate repeated on unchanged inputs changes nothing: no row, no figure, no
   setting; and that even when the store's live settings changed in between.
   */
  lemma EstimateIsIdempotent(s: Sheet, inputs: Inputs, live: RawSettings, live': RawSettings)
    requires OneEstimateEach(s.fees) && Estimate(s, inputs, live).Some?
    ensures Estimate(Estimate(s, inputs, live).value, inputs, live') == Estimate(s, inputs, live)
  {
    if !inputs.order.excluded {
      var settings := EffectiveSettings(s, inputs, live);
      EstimatedFeesSettle(s.fees, inputs, settings);
      assert EffectiveSettings(Estimate(s, inputs, live).value, inputs, live') == settings;
    }
  }

  lemma LegFrame(fees: seq<FeeRow>, leg: ReturnLeg, gross: real, vatRate: Option<Rate>)
    requires OneEstimateEach(fees)
    ensures var f := WithLeg(fees, leg, gross, vatRate);
            && OneEstimateEach(f)
            && (gross > 0.0 ==> Carries(f, Return(leg), LegCharge(leg, gross, vatRate)))
            && forall t :: t != Return(leg) ==> EstimateRow(f, t) == EstimateRow(fees, t)
  {
    if gross > 0.0 { UpsertFrame(fees, Return(leg), LegCharge(leg, gross, vatRate)); }
  }

  /** The legs a return writes, each with its amount and rate. */
  predicate CarriesLeg(fees: seq<FeeRow>, leg: ReturnLeg, gross: real, vatRate: Option<Rate>) {
    gross > 0.0 ==> Carries(fees, Return(leg), LegCharge(leg, gross, vatRate))
  }

  lemma CarriedLeg(fees: seq<FeeRow>, leg: ReturnLeg, gross: real, vatRate: Option<Rate>)
    requires CarriesLeg(fees, leg, gross, vatRate)
    ensures WithLeg(fees, leg, gross, vatRate) == fees
  {
    UpsertIsIdempotent(fees, Return(leg), LegCharge(leg, gross, vatRate));
  }

  predicate CarriesLineLegs(fees: seq<FeeRow>, lines: seq<ProfitLine>, tally: seq<Units>) {
    var refund := Accumulated(lines, REFUND_DEDUCTION, tally);
    var commission := Accumulated(lines, COMMISSION_REFUND, tally);
    var cost := Accumulated(lines, COST_RETURN, tally);
    && CarriesLeg(fees, REFUND_DEDUCTION, refund.gross, Some(refund.vatRate))
    && CarriesLeg(fees, COMMISSION_REFUND, commission.gross, Some(commission.vatRate))
    && CarriesLeg(fees, COST_RETURN, cost.gross, Some(cost.vatRate))
  }

  lemma LineLegsFrame(fees: seq<FeeRow>, lines: seq<ProfitLine>, tally: seq<Units>)
    requires OneEstimateEach(fees)
    ensures var f := WithLineLegs(fees, lines, tally);
            && OneEstimateEach(f) && CarriesLineLegs(f, lines, tally)
            && forall t :: !ReturnWrites(t) ==> EstimateRow(f, t) == EstimateRow(fees, t)
  {
    var refund := Accumulated(lines, REFUND_DEDUCTION, tally);
    var commission := Accumulated(lines, COMMISSION_REFUND, tally);
    var cost := Accumulated(lines, COST_RETURN, tally);
    var f1 := WithLeg(fees, REFUND_DEDUCTION, refund.gross, Some(refund.vatRate));
    LegFrame(fees, REFUND_DEDUCTION, refund.gross, Some(refund.vatRate));
    var f2 := WithLeg(f1, COMMISSION_REFUND, commission.gross, Some(commission.vatRate));
    LegFrame(f1, COMMISSION_REFUND, commission.gross, Some(commission.vatRate));
    LegFrame(f2, COST_RETURN, cost.gross, Some(cost.vatRate));
  }

  lemma CarriedLineLegs(fees: seq<FeeRow>, lines: seq<ProfitLine>, tally: seq<Units>)
    requires CarriesLineLegs(fees, lines, tally)
    ensures WithLineLegs(fees, lines, tally) == fees
  {
    var refund := Accumulated(lines, REFUND_DEDUCTION, tally);
    var commission := Accumulated(lines, COMMISSION_REFUND, tally);
    var cost := Accumulated(lines, COST_RETURN, tally);
    CarriedLeg(fees, REFUND_DEDUCTION, refund.gross, Some(refund.vatRate));
    CarriedLeg(fees, COMMISSION_REFUND, commission.gross, Some(commission.vatRate));
    CarriedLeg(fees, COST_RETURN, cost.gross, Some(cost.vatRate));
  }

  lemma StoppageRefundFrame(fees: seq<FeeRow>, refund: Leg, book: FeeBook, later: seq<FeeRow>)
    requires OneEstimateEach(fees) && WithStoppageRefund(fees, refund, book).Some?
    ensures var f := WithStoppageRefund(fees, refund, book).value;
            && OneEstimateEach(f)
            && (forall t :: t != Return(STOPPAGE_REFUND) ==> EstimateRow(f, t) == EstimateRow(fees, t))
            && (EstimateRow(later, Return(STOPPAGE_REFUND)) == EstimateRow(f, Return(STOPPAGE_REFUND)) ==>
                  WithStoppageRefund(later, refund, book) == Some(later))
  {
    if refund.gross > 0.0 {
      var gross := StoppageRefundGross(refund, book.stoppage.value);
      LegFrame(fees, STOPPAGE_REFUND, gross, None);
      if CarriesLeg(later, STOPPAGE_REFUND, gross, None) { CarriedLeg(later, STOPPAGE_REFUND, gross, None); }
    }
  }

  lemma ReturnShippingFrame(fees: seq<FeeRow>, net: Option<real>, book: FeeBook, later: seq<FeeRow>)
    requires OneEstimateEach(fees) && WithReturnShipping(fees, net, book).Some?
    ensures var f := WithReturnShipping(fees, net, book).value;
            && OneEstimateEach(f)
            && (forall t :: t != Return(RETURN_SHIPPING) ==> EstimateRow(f, t) == EstimateRow(fees, t))
            && (EstimateRow(later, Return(RETURN_SHIPPING)) == EstimateRow(f, Return(RETURN_SHIPPING)) ==>
                  WithReturnShipping(later, net, book) == Some(later))
  {
    if net.Some? {
      var def := book.returnShipping.value;
      var gross := Grossed(net.value, def.vatRate);
      LegFrame(fees, RETURN_SHIPPING, gross, Some(def.vatRate));
      if CarriesLeg(later, RETURN_SHIPPING, gross, Some(def.vatRate)) {
        CarriedLeg(later, RETURN_SHIPPING, gross, Some(def.vatRate));
      }
    }
  }

  lemma DomesticReturnFrame(fees: seq<FeeRow>, inputs: Inputs, claim: Claim)
    requires OneEstimateEach(fees) && DomesticReturn(fees, inputs, claim).Some?
    ensures OneEstimateEach(DomesticReturn(fees, inputs, claim).value)
    ensures forall t :: !ReturnWrites(t) ==> EstimateRow(DomesticReturn(fees, inputs, claim).value, t) == EstimateRow(fees, t)
  {
    var lines, tally := inputs.order.lines, TallyOf(claim.accepted);
    var refund := Accumulated(lines, REFUND_DEDUCTION, tally);
    var f1 := WithLineLegs(fees, lines, tally);
    LineLegsFrame(fees, lines, tally);
    var f2 := WithStoppageRefund(f1, refund, inputs.book).value;
    StoppageRefundFrame(f1, refund, inputs.book, f1);
    ReturnShippingFrame(f2, claim.returnShippingNet, inputs.book, f2);
  }

  /** Whatever keeps the return rows keeps a domestic return settled. */
  lemma DomesticReturnSettles(fees: seq<FeeRow>, inputs: Inputs, claim: Claim, later: seq<FeeRow>)
    requires OneEstimateEach(fees) && DomesticReturn(fees, inputs, claim).Some?
    requires forall t :: ReturnWrites(t) ==> EstimateRow(later, t) == EstimateRow(DomesticReturn(fees, inputs, claim).value, t)
    ensures DomesticReturn(later, inputs, claim) == Some(later)
  {
    var lines, tally := inputs.order.lines, TallyOf(claim.accepted);
    var refund := Accumulated(lines, REFUND_DEDUCTION, tally);
    var f1 := WithLineLegs(fees, lines, tally);
    LineLegsFrame(fees, lines, tally);
    var f2 := WithStoppageRefund(f1, refund, inputs.book).value;
    StoppageRefundFrame(f1, refund, inputs.book, later);
    ReturnShippingFrame(f2, claim.returnShippingNet, inputs.book, later);
    assert CarriesLineLegs(later, lines, tally) by {
      assert EstimateRow(later, Return(REFUND_DEDUCTION)) == EstimateRow(f1, Return(REFUND_DEDUCTION));
      assert EstimateRow(later, Return(COMMISSION_REFUND)) == EstimateRow(f1, Return(COMMISSION_REFUND));
      assert EstimateRow(later, Return(COST_RETURN)) == EstimateRow(f1, Return(COST_RETURN));
    }
    CarriedLineLegs(later, lines, tally);
  }

  lemma OverseasReturnSettles(fees: seq<FeeRow>, inputs: Inputs, claim: Claim, later: seq<FeeRow>)
    requires OneEstimateEach(fees) && OverseasReturn(fees, inputs, claim).Some?
    requires forall t :: ReturnWrites(t) ==> EstimateRow(later, t) == EstimateRow(OverseasReturn(fees, inputs, claim).value, t)
    ensures OneEstimateEach(OverseasReturn(fees, inputs, claim).value)
    ensures forall t :: !ReturnWrites(t) ==> EstimateRow(OverseasReturn(fees, inputs, claim).value, t) == EstimateRow(fees, t)
    ensures OverseasReturn(later, inputs, claim) == Some(later)
  {
    var t := Forward(OVERSEAS_RETURN_OPERATION);
    var gross := Round2(OverseasGross(inputs.order.lines, TallyOf(claim.accepted), claim.tiers).value);
    if gross > 0.0 {
      UpsertFrame(fees, t, Charge(gross, None, DEBIT, true));
      UpsertIsIdempotent(later, t, Charge(gross, None, DEBIT, true));
    } else {
      DeleteFrame(fees, t);
    }
  }

  lemma ReturnFeesSettle(fees: seq<FeeRow>, inputs: Inputs, claim: Claim, later: seq<FeeRow>)
    requires OneEstimateEach(fees) && ReturnFees(fees, inputs, claim).Some?
    requires forall t :: ReturnWrites(t) ==> EstimateRow(later, t) == EstimateRow(ReturnFees(fees, inputs, claim).value, t)
    ensures OneEstimateEach(ReturnFees(fees, inputs, claim).value)
    ensures forall t :: !ReturnWrites(t) ==> EstimateRow(ReturnFees(fees, inputs, claim).value, t) == EstimateRow(fees, t)
    ensures ReturnFees(later, inputs, claim) == Some(later)
  {
    if inputs.order.micro {
      OverseasReturnSettles(fees, inputs, claim, later);
    } else {
      DomesticReturnFrame(fees, inputs, claim);
      DomesticReturnSettles(fees, inputs, claim, later);
    }
  }

  /** A return estimate repeated on the same claim and inputs changes nothing. */
  lemma ReturnIsIdempotent(s: Sheet, inputs: Inputs, live: RawSettings, claim: Claim, live': RawSettings)
    requires OneEstimateEach(s.fees) && EstimateReturn(s, inputs, live, claim).Some?
    ensures EstimateReturn(EstimateReturn(s, inputs, live, claim).value, inputs, live', claim)
         == EstimateReturn(s, inputs, live, claim)
  {
    if !inputs.order.excluded && claim.accepted != [] {
      var fees := ReturnFees(s.fees, inputs, claim).value;
      ReturnFeesSettle(s.fees, inputs, claim, fees);
      var mid := s.(fees := fees);
      var t := Estimate(mid, inputs, live).value;
      EstimatedFeesFrame(fees, inputs, EffectiveSettings(mid, inputs, live));
      ReturnFeesSettle(s.fees, inputs, claim, t.fees);
      EstimateIsIdempotent(mid, inputs, live, live');
      assert t.(fees := t.fees) == t;
    }
  }

  // ─── Runs ─────────────────────────────────────────────────────────────

  /** What no step may undo. */
  ghost predicate Keeps(before: Sheet, after: Sheet) {
    && OneEstimateEach(after.fees)
    && (EstimateRow(before.fees, Stoppage).Some? ==>
          && EstimateRow(after.fees, Stoppage).Some?
          && EstimateRow(after.fees, Stoppage).value.amountGross == EstimateRow(before.fees, Stoppage).value.amountGross)
    && (Snapshotted(before) ==> after.stopaj == before.stopaj && after.negativeNetVat == before.negativeNetVat)
  }

  lemma EstimateKeeps(s: Sheet, inputs: Inputs, live: RawSettings)
    requires OneEstimateEach(s.fees) && Estimate(s, inputs, live).Some?
    ensures Keeps(s, Estimate(s, inputs, live).value)
  {
    if !inputs.order.excluded { EstimatedFeesFrame(s.fees, inputs, EffectiveSettings(s, inputs, live)); }
  }

  lemma ReturnKeeps(s: Sheet, inputs: Inputs, live: RawSettings, claim: Claim)
    requires OneEstimateEach(s.fees) && EstimateReturn(s, inputs, live, claim).Some?
    ensures Keeps(s, EstimateReturn(s, inputs, live, claim).value)
  {
    if !inputs.order.excluded && claim.accepted != [] {
      var fees := ReturnFees(s.fees, inputs, claim).value;
      ReturnFeesSettle(s.fees, inputs, claim, fees);
      EstimateKeeps(s.(fees := fees), inputs, live);
    }
  }

  lemma ConfirmKeeps(s: Sheet, k: nat)
    requires OneEstimateEach(s.fees)
    ensures Keeps(s, Next(s, ConfirmStep(k)))
  {
    if k < |s.fees| { SlotIs(s.fees[k := s.fees[k].(confirmed := true)], Stoppage, Slot(s.fees, Stoppage)); }
  }

  lemma InvoiceKeeps(s: Sheet, r: FeeRow)
    requires OneEstimateEach(s.fees)
    ensures Keeps(s, Next(s, InvoiceStep(r)))
  {
    if r.source != ESTIMATE {
      var k, next := Slot(s.fees, Stoppage), s.fees + [r];
      assert forall i :: 0 <= i < |next| && next[i].source == ESTIMATE ==> i < |s.fees| && next[i] == s.fees[i];
      SlotIs(next, Stoppage, if k < |s.fees| then k else k + 1);
    }
  }

  lemma StepKeeps(s: Sheet, step: Step)
    requires OneEstimateEach(s.fees)
    ensures Keeps(s, Next(s, step))
  {
    match step
    case EstimateStep(inputs, live) =>
      if Estimate(s, inputs, live).Some? { EstimateKeeps(s, inputs, live); }
    case ReturnStep(inputs, live, claim) =>
      if EstimateReturn(s, inputs, live, claim).Some? { ReturnKeeps(s, inputs, live, claim); }
    case SettleStep(o) =>
    case ConfirmStep(k) => ConfirmKeeps(s, k);
    case InvoiceStep(r) => InvoiceKeeps(s, r);
  }

  /**
   Whatever runs on an order, its table holds at most one ESTIMATE row of each type; the
   settings snapshot, once complete, never changes; and the withholding, once written, is
   never revised, even when the order's sale is.
   */
  lemma {:induction false} FeeTableRuns(s: Sheet, steps: seq<Step>)
    requires OneEstimateEach(s.fees)
    ensures Keeps(s, Run(s, steps))
  {
    if steps != [] {
      FeeTableRuns(s, steps[..|steps| - 1]);
      StepKeeps(Run(s, steps[..|steps| - 1]), steps[|steps| - 1]);
    }
  }

  /** The same step with other live settings. */
  predicate SameButLive(a: Step, b: Step) {
    match a
    case EstimateStep(inputs, _) => b == EstimateStep(inputs, if b.EstimateStep? then b.live else NotARecord)
    case ReturnStep(inputs, _, claim) => b == ReturnStep(inputs, if b.ReturnStep? then b.live else NotARecord, claim)
    case _ => b == a
  }

  lemma SnapshotShieldsStep(s: Sheet, a: Step, b: Step)
    requires Snapshotted(s) && SameButLive(a, b)
    ensures Next(s, a) == Next(s, b)
  {
  }

  lemma {:induction false} SnapshotShieldsRun(s: Sheet, steps: seq<Step>, steps': seq<Step>)
    requires OneEstimateEach(s.fees) && Snapshotted(s)
    requires |steps| == |steps'| && forall i :: 0 <= i < |steps| ==> SameButLive(steps[i], steps'[i])
    ensures Run(s, steps) == Run(s, steps')
  {
    if steps != [] {
      var n := |steps| - 1;
      SnapshotShieldsRun(s, steps[..n], steps'[..n]);
      FeeTableRuns(s, steps[..n]);
      SnapshotShieldsStep(Run(s, steps[..n]), steps[n], steps'[n]);
    }
  }

  /**
   Only the first estimate reads the store's settings: after it, runs that differ in
   nothing but the live settings end with the same rows, the same snapshot and the same
   figures.
   */
  lemma LaterSettingsNeverMatter(s: Sheet, inputs: Inputs, live: RawSettings, steps: seq<Step>, steps': seq<Step>)
    requires OneEstimateEach(s.fees) && !inputs.order.excluded && Estimate(s, inputs, live).Some?
    requires |steps| == |steps'| && forall i :: 0 <= i < |steps| ==> SameButLive(steps[i], steps'[i])
    ensures Run(Estimate(s, inputs, live).value, steps) == Run(Estimate(s, inputs, live).value, steps')
  {
    EstimateKeeps(s, inputs, live);
    SnapshotShieldsRun(Estimate(s, inputs, live).value, steps, steps');
  }

  /** What the first estimate snapshots: the store's settings or their defaults, except that micro exports keep negative VAT. */
  lemma FirstEstimateSnapshots(s: Sheet, inputs: Inputs, live: RawSettings)
    requires !Snapshotted(s) && !inputs.order.excluded && Estimate(s, inputs, live).Some?
    ensures var t := Estimate(s, inputs, live).value;
            && t.stopaj == Some(live.Record? && live.includeStopaj.Boolean? ==> live.includeStopaj.value)
            && t.negativeNetVat
               == Some(inputs.order.micro || (live.Record? && live.includeNegativeNetVat == Boolean(true)))
  {
  }

  // ─── Two regimes ──────────────────────────────────────────────────────

  /** The ESTIMATE rows an order may carry: a micro export and a domestic order share only shipping. */
  ghost predicate InRegime(fees: seq<FeeRow>, micro: bool) {
    forall t: FeeType :: EstimateRow(fees, t).Some? ==>
      if micro then t.Forward? && t.kind != PLATFORM_SERVICE
      else !(t.Forward? && (t.kind == INTERNATIONAL_SERVICE || t.kind == OVERSEAS_RETURN_OPERATION))
  }

  /** Every call the step makes sees an order of this kind. */
  predicate OfKind(step: Step, micro: bool) {
    match step
    case EstimateStep(inputs, _) => inputs.order.micro == micro
    case ReturnStep(inputs, _, _) => inputs.order.micro == micro
    case _ => true
  }

  lemma MicroEstimateKeepsRegime(fees: seq<FeeRow>, inputs: Inputs)
    requires OneEstimateEach(fees) && inputs.order.micro && InRegime(fees, true)
    requires WithShipping(fees, inputs).Some? && WithInternational(WithShipping(fees, inputs).value, inputs).Some?
    ensures InRegime(WithInternational(WithShipping(fees, inputs).value, inputs).value, true)
  {
    ShippingFrame(fees, inputs, fees);
    InternationalFrame(WithShipping(fees, inputs).value, inputs);
  }

  lemma DomesticEstimateKeepsRegime(fees: seq<FeeRow>, inputs: Inputs, settings: Settings)
    requires OneEstimateEach(fees) && !inputs.order.micro && InRegime(fees, false)
    requires EstimatedFees(fees, inputs, settings).Some?
    ensures InRegime(EstimatedFees(fees, inputs, settings).value, false)
  {
    var f1 := WithPsf(fees, inputs).value;
    PsfFrame(fees, inputs, fees);
    var f2 := WithStoppage(f1, inputs, settings).value;
    StoppageFrame(f1, inputs, settings, f1);
    ShippingFrame(f2, inputs, f2);
  }

  lemma EstimateKeepsRegime(fees: seq<FeeRow>, inputs: Inputs, settings: Settings)
    requires OneEstimateEach(fees) && EstimatedFees(fees, inputs, settings).Some? && InRegime(fees, inputs.order.micro)
    ensures InRegime(EstimatedFees(fees, inputs, settings).value, inputs.order.micro)
  {
    if inputs.order.micro {
      assert WithPsf(fees, inputs) == Some(fees) && WithStoppage(fees, inputs, settings) == Some(fees);
      MicroEstimateKeepsRegime(fees, inputs);
    } else {
      DomesticEstimateKeepsRegime(fees, inputs, settings);
    }
  }

  lemma ReturnKeepsRegime(fees: seq<FeeRow>, inputs: Inputs, claim: Claim)
    requires OneEstimateEach(fees) && ReturnFees(fees, inputs, claim).Some? && InRegime(fees, inputs.order.micro)
    ensures InRegime(ReturnFees(fees, inputs, claim).value, inputs.order.micro)
  {
    var f := ReturnFees(fees, inputs, claim).value;
    ReturnFeesSettle(fees, inputs, claim, f);
    if inputs.order.micro {
      var t := Forward(OVERSEAS_RETURN_OPERATION);
      var gross := Round2(OverseasGross(inputs.order.lines, TallyOf(claim.accepted), claim.tiers).value);
      if gross > 0.0 { UpsertFrame(fees, t, Charge(gross, None, DEBIT, true)); } else { DeleteFrame(fees, t); }
    } else {
      NoOverseasFee(fees, inputs, claim);
    }
  }

  lemma NoOverseasFee(fees: seq<FeeRow>, inputs: Inputs, claim: Claim)
    requires OneEstimateEach(fees) && DomesticReturn(fees, inputs, claim).Some?
    ensures var t := Forward(OVERSEAS_RETURN_OPERATION);
            EstimateRow(DomesticReturn(fees, inputs, claim).value, t) == EstimateRow(fees, t)
  {
    var t, lines, tally := Forward(OVERSEAS_RETURN_OPERATION), inputs.order.lines, TallyOf(claim.accepted);
    var refund := Accumulated(lines, REFUND_DEDUCTION, tally);
    var commission := Accumulated(lines, COMMISSION_REFUND, tally);
    var cost := Accumulated(lines, COST_RETURN, tally);
    var a := WithLeg(fees, REFUND_DEDUCTION, refund.gross, Some(refund.vatRate));
    LegFrame(fees, REFUND_DEDUCTION, refund.gross, Some(refund.vatRate));
    var b := WithLeg(a, COMMISSION_REFUND, commission.gross, Some(commission.vatRate));
    LegFrame(a, COMMISSION_REFUND, commission.gross, Some(commission.vatRate));
    LegFrame(b, COST_RETURN, cost.gross, Some(cost.vatRate));
    var f1 := WithLineLegs(fees, lines, tally);
    assert EstimateRow(f1, t) == EstimateRow(fees, t);
    var f2 := WithStoppageRefund(f1, refund, inputs.book).value;
    StoppageRefundFrame(f1, refund, inputs.book, f1);
    ReturnShippingFrame(f2, claim.returnShippingNet, inputs.book, f2);
  }

  lemma StepKeepsRegime(s: Sheet, step: Step, micro: bool)
    requires OneEstimateEach(s.fees) && OfKind(step, micro) && InRegime(s.fees, micro)
    ensures InRegime(Next(s, step).fees, micro)
  {
    match step
    case EstimateStep(inputs, live) =>
      if !inputs.order.excluded && Estimate(s, inputs, live).Some? {
        EstimateKeepsRegime(s.fees, inputs, EffectiveSettings(s, inputs, live));
      }
    case ReturnStep(inputs, live, claim) =>
      if !inputs.order.excluded && claim.accepted != [] && EstimateReturn(s, inputs, live, claim).Some? {
        var fees := ReturnFees(s.fees, inputs, claim).value;
        ReturnKeepsRegime(s.fees, inputs, claim);
        ReturnFeesSettle(s.fees, inputs, claim, fees);
        EstimateKeepsRegime(fees, inputs, EffectiveSettings(s.(fees := fees), inputs, live));
      }
    case SettleStep(o) =>
    case ConfirmStep(k) =>
      forall t: FeeType ensures EstimateRow(Next(s, step).fees, t).Some? ==> EstimateRow(s.fees, t).Some? {
        SlotIs(Next(s, step).fees, t, Slot(s.fees, t));
      }
    case InvoiceStep(r) =>
      forall t: FeeType ensures EstimateRow(Next(s, step).fees, t).Some? ==> EstimateRow(s.fees, t).Some? {
        if r.source != ESTIMATE {
          var k := Slot(s.fees, t);
          SlotIs(s.fees + [r], t, if k < |s.fees| then k else k + 1);
        }
      }
  }

  /**
   From an empty sheet, a micro export never carries a platform-service, withholding or
   return-leg estimate, and a domestic order never an international-service or overseas
   one, whatever calls, confirmations and invoices interleave.
   */
  lemma {:induction false} RegimesNeverMix(s: Sheet, steps: seq<Step>, micro: bool)
    requires s.fees == [] && forall i :: 0 <= i < |steps| ==> OfKind(steps[i], micro)
    ensures InRegime(Run(s, steps).fees, micro)
  {
    if steps == [] {
      assert forall t: FeeType :: EstimateRow(s.fees, t) == None;
    } else {
      var pre := steps[..|steps| - 1];
      RegimesNeverMix(s, pre, micro);
      FeeTableRuns(s, pre);
      StepKeepsRegime(Run(s, pre), steps[|steps| - 1], micro);
    }
  }

  // ─── What is true of every row ────────────────────────────────────────

  /** The refunds that come back to the seller: commission, cost and withholding. */
  predicate GivesBack(t: FeeType) {
    t == Return(COMMISSION_REFUND) || t == Return(COST_RETURN) || t == Return(STOPPAGE_REFUND)
  }

  function SideOf(t: FeeType): Direction { if GivesBack(t) then CREDIT else DEBIT }

  predicate Each(fees: seq<FeeRow>, ok: FeeRow -> bool) { forall i :: 0 <= i < |fees| ==> ok(fees[i]) }

  function Confirmed(r: FeeRow): FeeRow { r.(confirmed := true) }

  /** True of what is created with its type's direction, and never lost by a revision or a confirmation. */
  ghost predicate Lasting(ok: FeeRow -> bool) {
    && (forall t: FeeType, c: Charge :: c.direction == SideOf(t) ==> ok(Created(t, c)))
    && (forall r: FeeRow, c: Charge :: ok(r) && r.source == ESTIMATE && c.direction == SideOf(r.feeType) ==> ok(Revised(r, c)))
    && (forall r :: ok(r) ==> ok(Confirmed(r)))
  }

  lemma UpsertKeepsEach(fees: seq<FeeRow>, t: FeeType, c: Charge, ok: FeeRow -> bool)
    requires Lasting(ok) && Each(fees, ok) && c.direction == SideOf(t)
    ensures Each(Upserted(fees, t, c), ok) && Each(Deleted(fees, t), ok)
  {
    var k, left := Slot(fees, t), Deleted(fees, t);
    assert ok(Created(t, c));
    if k < |fees| { assert ok(fees[k]) && ok(Revised(fees[k], c)); }
    assert forall i :: 0 <= i < |left| ==> left[i] in fees;
  }

  lemma EstimateKeepsEach(fees: seq<FeeRow>, inputs: Inputs, settings: Settings, ok: FeeRow -> bool)
    requires Lasting(ok) && Each(fees, ok) && EstimatedFees(fees, inputs, settings).Some?
    ensures Each(EstimatedFees(fees, inputs, settings).value, ok)
  {
    var f1 := WithPsf(fees, inputs).value;
    if !PsfExempt(inputs.order) { UpsertKeepsEach(fees, Forward(PLATFORM_SERVICE), PsfCharge(inputs).value, ok); }
    var f2 := WithStoppage(f1, inputs, settings).value;
    if OwesStoppage(f1, inputs, settings) { UpsertKeepsEach(f1, Stoppage, StoppageCharge(inputs).value, ok); }
    var f3 := WithShipping(f2, inputs).value;
    if inputs.shippingNet.Some? { UpsertKeepsEach(f2, Forward(SHIPPING), ShippingCharge(inputs).value, ok); }
    var t := Forward(INTERNATIONAL_SERVICE);
    UpsertKeepsEach(f3, t, InternationalCharge(inputs).GetOr(Charge(0.0, None, DEBIT, false)), ok);
  }

  lemma LegKeepsEach(fees: seq<FeeRow>, leg: ReturnLeg, gross: real, vatRate: Option<Rate>, ok: FeeRow -> bool)
    requires Lasting(ok) && Each(fees, ok)
    ensures Each(WithLeg(fees, leg, gross, vatRate), ok)
  {
    UpsertKeepsEach(fees, Return(leg), LegCharge(leg, gross, vatRate), ok);
  }

  lemma LineLegsKeepEach(fees: seq<FeeRow>, lines: seq<ProfitLine>, tally: seq<Units>, ok: FeeRow -> bool)
    requires Lasting(ok) && Each(fees, ok)
    ensures Each(WithLineLegs(fees, lines, tally), ok)
  {
    var refund := Accumulated(lines, REFUND_DEDUCTION, tally);
    var commission := Accumulated(lines, COMMISSION_REFUND, tally);
    var cost := Accumulated(lines, COST_RETURN, tally);
    var a := WithLeg(fees, REFUND_DEDUCTION, refund.gross, Some(refund.vatRate));
    LegKeepsEach(fees, REFUND_DEDUCTION, refund.gross, Some(refund.vatRate), ok);
    var b := WithLeg(a, COMMISSION_REFUND, commission.gross, Some(commission.vatRate));
    LegKeepsEach(a, COMMISSION_REFUND, commission.gross, Some(commission.vatRate), ok);
    LegKeepsEach(b, COST_RETURN, cost.gross, Some(cost.vatRate), ok);
  }

  lemma ReturnKeepsEach(fees: seq<FeeRow>, inputs: Inputs, claim: Claim, ok: FeeRow -> bool)
    requires Lasting(ok) && Each(fees, ok) && ReturnFees(fees, inputs, claim).Some?
    ensures Each(ReturnFees(fees, inputs, claim).value, ok)
  {
    var tally := TallyOf(claim.accepted);
    if inputs.order.micro {
      var gross := Round2(OverseasGross(inputs.order.lines, tally, claim.tiers).value);
      UpsertKeepsEach(fees, Forward(OVERSEAS_RETURN_OPERATION), Charge(gross, None, DEBIT, true), ok);
    } else {
      var refund := Accumulated(inputs.order.lines, REFUND_DEDUCTION, tally);
      var f1 := WithLineLegs(fees, inputs.order.lines, tally);
      LineLegsKeepEach(fees, inputs.order.lines, tally, ok);
      var f2 := WithStoppageRefund(f1, refund, inputs.book).value;
      if refund.gross > 0.0 {
        LegKeepsEach(f1, STOPPAGE_REFUND, StoppageRefundGross(refund, inputs.book.stoppage.value), None, ok);
      }
      if claim.returnShippingNet.Some? {
        var def := inputs.book.returnShipping.value;
        LegKeepsEach(f2, RETURN_SHIPPING, Grossed(claim.returnShippingNet.value, def.vatRate), Some(def.vatRate), ok);
      }
    }
  }

  lemma StepKeepsEach(s: Sheet, step: Step, ok: FeeRow -> bool)
    requires Lasting(ok) && Each(s.fees, ok) && (step.InvoiceStep? && step.row.source != ESTIMATE ==> ok(step.row))
    ensures Each(Next(s, step).fees, ok)
  {
    match step
    case EstimateStep(inputs, live) =>
      if !inputs.order.excluded && Estimate(s, inputs, live).Some? {
        EstimateKeepsEach(s.fees, inputs, EffectiveSettings(s, inputs, live), ok);
      }
    case ReturnStep(inputs, live, claim) =>
      if !inputs.order.excluded && claim.accepted != [] && EstimateReturn(s, inputs, live, claim).Some? {
        var fees := ReturnFees(s.fees, inputs, claim).value;
        ReturnKeepsEach(s.fees, inputs, claim, ok);
        EstimateKeepsEach(fees, inputs, EffectiveSettings(s.(fees := fees), inputs, live), ok);
      }
    case SettleStep(_) =>
    case ConfirmStep(k) => if k < |s.fees| { assert ok(s.fees[k]) && ok(Confirmed(s.fees[k])); }
    case InvoiceStep(_) =>
  }

  /** What is true of the rows at the start, of every invoice and lastingly of estimates stays true of every row. */
  lemma {:induction false} RunKeepsEach(s: Sheet, steps: seq<Step>, ok: FeeRow -> bool)
    requires Lasting(ok) && Each(s.fees, ok)
    requires forall i :: 0 <= i < |steps| && steps[i].InvoiceStep? && steps[i].row.source != ESTIMATE ==> ok(steps[i].row)
    ensures Each(Run(s, steps).fees, ok)
  {
    if steps != [] {
      RunKeepsEach(s, steps[..|steps| - 1], ok);
      StepKeepsEach(Run(s, steps[..|steps| - 1]), steps[|steps| - 1], ok);
    }
  }

  predicate NoManual(fees: seq<FeeRow>) { forall i :: 0 <= i < |fees| ==> fees[i].source != MANUAL }

  /** No step of the run enters a row by hand; no writer of the repository does. */
  predicate NothingHandEntered(steps: seq<Step>) {
    forall i :: 0 <= i < |steps| && steps[i].InvoiceStep? ==> steps[i].row.source != MANUAL
  }

  predicate NotManual(r: FeeRow) { r.source != MANUAL }

  /** The estimates, returns, settlements and confirmations never leave a hand-entered row. */
  lemma RunsAddNoManual(s: Sheet, steps: seq<Step>)
    requires NoManual(s.fees) && NothingHandEntered(steps)
    ensures NoManual(Run(s, steps).fees)
  {
    RunKeepsEach(s, steps, NotManual);
    assert forall i :: 0 <= i < |Run(s, steps).fees| ==> NotManual(Run(s, steps).fees[i]);
  }

  /** An estimate debits the seller, unless it gives back commission, cost or withholding. */
  predicate RightWay(r: FeeRow) { r.source == ESTIMATE ==> (r.direction == CREDIT <==> GivesBack(r.feeType)) }

  predicate AllRightWay(fees: seq<FeeRow>) { forall i :: 0 <= i < |fees| ==> RightWay(fees[i]) }

  /** In every run every estimate stands on the right side, whatever was invoiced or confirmed in between. */
  lemma EstimatesStandTheRightWay(s: Sheet, steps: seq<Step>)
    requires AllRightWay(s.fees)
    ensures AllRightWay(Run(s, steps).fees)
  {
    RunKeepsEach(s, steps, RightWay);
    assert forall i :: 0 <= i < |Run(s, steps).fees| ==> RightWay(Run(s, steps).fees[i]);
  }

  /** A return leg turns its row around again if it stood on the wrong side. */
  lemma LegsAreTurnedRight(fees: seq<FeeRow>, leg: ReturnLeg, gross: real, vatRate: Option<Rate>)
    requires gross > 0.0
    ensures EstimateRow(WithLeg(fees, leg, gross, vatRate), Return(leg)).Some?
    ensures RightWay(EstimateRow(WithLeg(fees, leg, gross, vatRate), Return(leg)).value)
  {
    UpsertSets(fees, Return(leg), LegCharge(leg, gross, vatRate));
  }
}
