/**
 Which displayed line of the breakdown each stored row and item belongs to: one more row
 moves its own line by its own money and leaves every other line alone.
 */
module BreakdownLines {
  import opened Options
  import opened Money
  import opened ProfitFormula
  import opened ReturnLegs
  import opened Breakdown

  // ─── One more row, per sum ────────────────────────────────────────────

  lemma OneMoreInSum(fees: seq<FeeRow>, r: FeeRow, t: FeeType)
    ensures SumOfType(fees + [r], t) == if r.feeType == t then Plus(SumOfType(fees, t), Signed(r)) else SumOfType(fees, t)
  {
    assert (fees + [r])[..|fees|] == fees;
  }

  lemma OtherRowKeepsLeg(fees: seq<FeeRow>, r: FeeRow, leg: ReturnLeg)
    requires r.feeType != Return(leg)
    ensures LegOf(fees + [r], leg) == LegOf(fees, leg)
  {
    var more := fees + [r];
    assert more[..|more| - 1] == fees;
    if i :| 0 <= i < |fees| && fees[i].feeType == Return(leg) && Actual(fees[i].source) { assert more[i] == fees[i]; }
    assert HasActual(more, leg) == HasActual(fees, leg);
  }

  function When(b: bool, x: MoneyPair): MoneyPair { if b then x else MoneyPair(0.0, 0.0) }

  /** Any row moves the sum of its own type and no other. */
  lemma SumMoves(fees: seq<FeeRow>, more: seq<FeeRow>, r: FeeRow, t: FeeType)
    requires more == fees + [r]
    ensures SumOfType(more, t) == Plus(SumOfType(fees, t), When(r.feeType == t, Signed(r)))
  {
    OneMoreInSum(fees, r, t);
  }

  lemma LegStays(fees: seq<FeeRow>, more: seq<FeeRow>, r: FeeRow, leg: ReturnLeg)
    requires more == fees + [r] && r.feeType != Return(leg)
    ensures LegOf(more, leg) == LegOf(fees, leg)
  {
    OtherRowKeepsLeg(fees, r, leg);
  }

  /** The sums of the displayed terms, moved by a row of the given type. */
  predicate SumsMoved(t: Terms, t': Terms, of: FeeType, row: MoneyPair) {
    && t'.shipping == Plus(t.shipping, When(of == Forward(SHIPPING), row))
    && t'.platformService == Plus(t.platformService, When(of == Forward(PLATFORM_SERVICE), row))
    && t'.international == Plus(t.international, When(of == Forward(INTERNATIONAL_SERVICE), row))
    && t'.overseas == Plus(t.overseas, When(of == Forward(OVERSEAS_RETURN_OPERATION), row))
    && t'.withheld == t.withheld + When(of == Stoppage, row).gross
    && t'.sale == t.sale && t'.cost == t.cost && t'.commission == t.commission
    && t'.netProfit == t.netProfit && t'.netVat == t.netVat
  }

  /** The resolved legs, all but those of the given type. */
  predicate LegsStayed(t: Terms, t': Terms, of: FeeType) {
    && (of != Return(REFUND_DEDUCTION) ==> t'.refund == t.refund)
    && (of != Return(COST_RETURN) ==> t'.costReturn == t.costReturn)
    && (of != Return(COMMISSION_REFUND) ==> t'.commissionRefund == t.commissionRefund)
    && (of != Return(RETURN_SHIPPING) ==> t'.back == t.back)
    && (of != Return(STOPPAGE_REFUND) ==> t'.stoppageRefund == t.stoppageRefund)
  }

  lemma RowMovesSums(v: ViewInput, w: ViewInput, r: FeeRow)
    requires w.fees == v.fees + [r] && w == v.(fees := w.fees)
    ensures SumsMoved(TermsOf(v), TermsOf(w), r.feeType, Signed(r))
  {
    SumMoves(v.fees, w.fees, r, Forward(SHIPPING));
    SumMoves(v.fees, w.fees, r, Forward(PLATFORM_SERVICE));
    SumMoves(v.fees, w.fees, r, Forward(INTERNATIONAL_SERVICE));
    SumMoves(v.fees, w.fees, r, Forward(OVERSEAS_RETURN_OPERATION));
    SumMoves(v.fees, w.fees, r, Stoppage);
  }

  lemma RowKeepsLegs(v: ViewInput, w: ViewInput, r: FeeRow)
    requires w.fees == v.fees + [r]
    ensures LegsStayed(TermsOf(v), TermsOf(w), r.feeType)
  {
    if r.feeType != Return(REFUND_DEDUCTION) { LegStays(v.fees, w.fees, r, REFUND_DEDUCTION); }
    if r.feeType != Return(COST_RETURN) { LegStays(v.fees, w.fees, r, COST_RETURN); }
    if r.feeType != Return(COMMISSION_REFUND) { LegStays(v.fees, w.fees, r, COMMISSION_REFUND); }
    if r.feeType != Return(RETURN_SHIPPING) { LegStays(v.fees, w.fees, r, RETURN_SHIPPING); }
    if r.feeType != Return(STOPPAGE_REFUND) { LegStays(v.fees, w.fees, r, STOPPAGE_REFUND); }
  }

  // ─── One more row, on the view ────────────────────────────────────────

  /** The lines that only items and return legs reach. */
  predicate SameNettedLines(a: View, b: View) {
    && b.sale == a.sale && b.cost == a.cost && b.commission == a.commission && b.returnShipping == a.returnShipping
    && b.netVat == a.netVat && b.netProfit == a.netProfit
  }

  /** The lines of the forward charges. */
  predicate SameForwardLines(a: View, b: View) {
    && b.outboundShipping == a.outboundShipping && b.platformService == a.platformService
    && b.internationalService == a.internationalService && b.overseasReturnOperation == a.overseasReturnOperation
  }

  /** The line of one kind of charge moved by `row`, with the group totals it belongs to, and no other line did. */
  predicate OnlyChargeMoved(a: View, b: View, kind: FeeKind, row: MoneyPair) {
    && b.outboundShipping == Plus(a.outboundShipping, When(kind == SHIPPING, row))
    && b.shipping == Plus(a.shipping, When(kind == SHIPPING, row))
    && b.platformService == Plus(a.platformService, When(kind == PLATFORM_SERVICE, row))
    && b.internationalService == Plus(a.internationalService, When(kind == INTERNATIONAL_SERVICE, row))
    && b.overseasReturnOperation == Plus(a.overseasReturnOperation, When(kind == OVERSEAS_RETURN_OPERATION, row))
    && SameNettedLines(a, b) && b.stoppage == a.stoppage && b.taxes == a.taxes
    && b.marketplaceFees == a.marketplaceFees + row.gross && b.totalDeductions == a.totalDeductions + row.gross
  }

  lemma ChargeMoves(t: Terms, t': Terms, kind: FeeKind, row: MoneyPair)
    requires SumsMoved(t, t', Forward(kind), row) && LegsStayed(t, t', Forward(kind))
    ensures OnlyChargeMoved(LaidOut(t), LaidOut(t'), kind, row)
  {
  }

  lemma NothingAdded(x: MoneyPair)
    ensures Plus(x, MoneyPair(0.0, 0.0)) == x
  {
  }

  /**
   A charge moves exactly the line of its kind, by its gross and the VAT in it, up for a
   debit and down for a credit, and the two group totals it belongs to.
   */
  lemma ForwardRowMovesItsLine(v: ViewInput, w: ViewInput, r: FeeRow, kind: FeeKind)
    requires w.fees == v.fees + [r] && w == v.(fees := w.fees) && r.feeType == Forward(kind)
    ensures OnlyChargeMoved(ViewOf(v), ViewOf(w), kind,
                            MoneyPair(Directed(r.direction, r.amountGross),
                                      Directed(r.direction, GrossToVat(Abs(r.amountGross), r.vatRate))))
  {
    RowMovesSums(v, w, r);
    RowKeepsLegs(v, w, r);
    ChargeMoves(TermsOf(v), TermsOf(w), kind, Signed(r));
  }

  /** The withholding line stands at what is left, never below zero; the taxes moved with it and no other line did. */
  predicate OnlyStoppageMoved(a: View, b: View, left: real) {
    && b.stoppage == (if left > 0.0 then left else 0.0)
    && SameNettedLines(a, b) && SameForwardLines(a, b) && b.shipping == a.shipping
    && b.marketplaceFees == a.marketplaceFees
    && b.taxes == a.taxes + (b.stoppage - a.stoppage) && b.totalDeductions == a.totalDeductions + (b.stoppage - a.stoppage)
  }

  lemma StoppageMoves(t: Terms, t': Terms, row: MoneyPair)
    requires SumsMoved(t, t', Stoppage, row) && LegsStayed(t, t', Stoppage)
    ensures OnlyStoppageMoved(LaidOut(t), LaidOut(t'), t.withheld + row.gross - t.stoppageRefund)
  {
  }

  /** A withholding row moves the withholding line, never below zero, and the taxes; nothing else. */
  lemma StoppageRowMovesItsLine(v: ViewInput, w: ViewInput, r: FeeRow)
    requires w.fees == v.fees + [r] && w == v.(fees := w.fees) && r.feeType == Stoppage
    ensures OnlyStoppageMoved(ViewOf(v), ViewOf(w),
                              SumOfType(v.fees, Stoppage).gross + Directed(r.direction, r.amountGross)
                              - LegOf(v.fees, STOPPAGE_REFUND).gross)
  {
    RowMovesSums(v, w, r);
    RowKeepsLegs(v, w, r);
    StoppageMoves(TermsOf(v), TermsOf(w), Signed(r));
  }

  /**
   The line that a leg is netted against moved by `d`, and no other line did: a refund comes
   off the sale, a returned cost off the cost, a refunded commission off the commission,
   return shipping joins the shipping, and refunded withholding comes off the withholding.
   */
  predicate OnlyLegMoved(a: View, b: View, leg: ReturnLeg, d: MoneyPair, left: real) {
    && b.sale == Less(a.sale, When(leg == REFUND_DEDUCTION, d))
    && b.cost == Less(a.cost, When(leg == COST_RETURN, d))
    && b.commission == Less(a.commission, When(leg == COMMISSION_REFUND, d))
    && b.returnShipping == Plus(a.returnShipping, When(leg == RETURN_SHIPPING, d))
    && b.shipping == Plus(a.shipping, When(leg == RETURN_SHIPPING, d))
    && b.stoppage == (if leg != STOPPAGE_REFUND then a.stoppage else if left > 0.0 then left else 0.0)
    && SameForwardLines(a, b) && b.netVat == a.netVat && b.netProfit == a.netProfit
  }

  function ResolvedTerm(t: Terms, leg: ReturnLeg): MoneyPair {
    match leg
    case REFUND_DEDUCTION => t.refund
    case COST_RETURN => t.costReturn
    case COMMISSION_REFUND => t.commissionRefund
    case RETURN_SHIPPING => t.back
    case STOPPAGE_REFUND => MoneyPair(t.stoppageRefund, 0.0)
  }

  lemma LegMoves(t: Terms, t': Terms, leg: ReturnLeg, row: MoneyPair)
    requires SumsMoved(t, t', Return(leg), row) && LegsStayed(t, t', Return(leg))
    ensures OnlyLegMoved(LaidOut(t), LaidOut(t'), leg, Less(ResolvedTerm(t', leg), ResolvedTerm(t, leg)),
                         t.withheld - t'.stoppageRefund)
  {
  }

  lemma TermOfLeg(v: ViewInput, leg: ReturnLeg)
    ensures leg != STOPPAGE_REFUND ==> ResolvedTerm(TermsOf(v), leg) == LegOf(v.fees, leg)
  {
  }

  /** How far the leg moved matters to no line when the leg is the refunded withholding. */
  lemma AnyMove(a: View, b: View, leg: ReturnLeg, d: MoneyPair, e: MoneyPair, left: real)
    requires OnlyLegMoved(a, b, leg, d, left) && (leg != STOPPAGE_REFUND ==> d == e)
    ensures OnlyLegMoved(a, b, leg, e, left)
  {
  }

  /** A return row, of any source, moves the line of its leg by what it does to the resolved leg. */
  lemma ReturnRowMovesItsLine(v: ViewInput, w: ViewInput, r: FeeRow, leg: ReturnLeg)
    requires w.fees == v.fees + [r] && w == v.(fees := w.fees) && r.feeType == Return(leg)
    ensures OnlyLegMoved(ViewOf(v), ViewOf(w), leg, Less(LegOf(w.fees, leg), LegOf(v.fees, leg)),
                         SumOfType(v.fees, Stoppage).gross - LegOf(w.fees, STOPPAGE_REFUND).gross)
  {
    RowMovesSums(v, w, r);
    RowKeepsLegs(v, w, r);
    LegMoves(TermsOf(v), TermsOf(w), leg, Signed(r));
    TermOfLeg(v, leg);
    TermOfLeg(w, leg);
    AnyMove(ViewOf(v), ViewOf(w), leg, Less(ResolvedTerm(TermsOf(w), leg), ResolvedTerm(TermsOf(v), leg)),
            Less(LegOf(w.fees, leg), LegOf(v.fees, leg)), TermsOf(v).withheld - TermsOf(w).stoppageRefund);
  }

  /** An item moves the cost and the commission line, by its units at cost and by the commission it really pays. */
  lemma ItemMovesItsLines(v: ViewInput, item: ItemMoney)
    ensures var a, b := ViewOf(v), ViewOf(v.(items := v.items + [item]));
            var cost := item.unitCostGross.GetOr(0.0) * item.quantity as real;
            var commission := item.commissionGross - item.refundedCommissionGross;
            && b.cost == Plus(a.cost, MoneyPair(cost, GrossToVat(cost, item.unitCostVatRate)))
            && b.commission == Plus(a.commission, MoneyPair(commission, GrossToVat(commission, item.commissionVatRate)))
            && b.sale == a.sale && SameForwardLines(a, b) && b.shipping == a.shipping && b.returnShipping == a.returnShipping
            && b.stoppage == a.stoppage && b.taxes == a.taxes
            && b.marketplaceFees == a.marketplaceFees + commission
            && b.totalDeductions == a.totalDeductions + cost + commission
  {
    assert (v.items + [item])[..|v.items|] == v.items;
  }

  lemma NothingResolved(leg: ReturnLeg)
    ensures LegOf([], leg) == MoneyPair(0.0, 0.0)
  {
  }

  lemma AllNothing()
    ensures forall leg :: LegOf([], leg) == MoneyPair(0.0, 0.0)
    ensures forall t :: SumOfType([], t) == MoneyPair(0.0, 0.0)
    ensures CostOf([]) == MoneyPair(0.0, 0.0) && CommissionOf([]) == MoneyPair(0.0, 0.0)
  {
    forall leg ensures LegOf([], leg) == MoneyPair(0.0, 0.0) { NothingResolved(leg); }
    forall t ensures SumOfType([], t) == MoneyPair(0.0, 0.0) { NothingDisplayed(t); }
  }

  lemma EmptyTerms(v: ViewInput)
    requires v.items == [] && v.fees == []
    ensures var nothing := MoneyPair(0.0, 0.0);
            TermsOf(v) == Terms(MoneyPair(v.saleGross, v.saleVat), nothing, nothing, nothing, nothing, nothing, nothing, 0.0,
                                nothing, nothing, nothing, nothing, 0.0, v.netProfit, v.netVat)
  {
    AllNothing();
  }

  /** With nothing stored, every line but the sale and the engine's own figures is empty. */
  lemma EmptyView(v: ViewInput)
    requires v.items == [] && v.fees == []
    ensures var a, nothing := ViewOf(v), MoneyPair(0.0, 0.0);
            && a.sale == MoneyPair(v.saleGross, v.saleVat) && a.cost == nothing && a.commission == nothing
            && a.shipping == nothing && a.outboundShipping == nothing && a.returnShipping == nothing
            && a.platformService == nothing && a.internationalService == nothing && a.overseasReturnOperation == nothing
            && a.stoppage == 0.0 && a.marketplaceFees == 0.0 && a.netVat == v.netVat && a.netProfit == v.netProfit
            && a.taxes == v.netVat && a.totalDeductions == v.netVat
  {
    EmptyTerms(v);
    assert LaidOut(TermsOf(v)) == ViewOf(v);
  }

  // ─── The engine's own buckets ─────────────────────────────────────────

  predicate AllDebit(fees: seq<FeeRow>) {
    forall i :: 0 <= i < |fees| && fees[i].feeType.Forward? ==> fees[i].direction == DEBIT && fees[i].amountGross >= 0.0
  }

  lemma OneMoreInBucket(fees: seq<InputFee>, fee: InputFee, kind: FeeKind)
    ensures Bucket(fees + [fee], kind)
         == if fee.kind == kind then Plus(Bucket(fees, kind), MoneyPair(fee.gross, fee.vat)) else Bucket(fees, kind)
  {
    assert (fees + [fee])[..|fees|] == fees;
  }

  lemma {:induction false} BucketIsTheLine(fees: seq<FeeRow>, kind: FeeKind)
    requires AllDebit(fees)
    ensures Bucket(EngineFees(fees), kind) == SumOfType(fees, Forward(kind))
  {
    if fees == [] {
      assert EngineFees(fees) == [];
    } else {
      var pre, f := fees[..|fees| - 1], fees[|fees| - 1];
      BucketIsTheLine(pre, kind);
      if f.feeType.Forward? {
        OneMoreInBucket(EngineFees(pre), InputFee(f.feeType.kind, f.amountGross, VatOf(f), f.direction), kind);
        SignedIsEngineFee(f);
      } else {
        assert EngineFees(fees) == EngineFees(pre);
      }
    }
  }

  lemma WithExtra(fees: seq<InputFee>, back: MoneyPair)
    ensures var all := fees + [InputFee(SHIPPING, back.gross, back.vat, DEBIT)];
            && Bucket(all, SHIPPING) == Plus(Bucket(fees, SHIPPING), back)
            && Bucket(all, PLATFORM_SERVICE) == Bucket(fees, PLATFORM_SERVICE)
  {
    OneMoreInBucket(fees, InputFee(SHIPPING, back.gross, back.vat, DEBIT), SHIPPING);
    OneMoreInBucket(fees, InputFee(SHIPPING, back.gross, back.vat, DEBIT), PLATFORM_SERVICE);
  }

  /** The buckets of folded charges: the charges' own, and return shipping on top of shipping. */
  lemma FoldedBuckets(base: ProfitInput, fees: seq<FeeRow>)
    requires forall i :: 0 <= i < |fees| ==> fees[i].amountGross >= 0.0
    ensures Bucket(Fold(base, fees).fees, SHIPPING) == Plus(Bucket(base.fees, SHIPPING), LegOf(fees, RETURN_SHIPPING))
    ensures Bucket(Fold(base, fees).fees, PLATFORM_SERVICE) == Bucket(base.fees, PLATFORM_SERVICE)
  {
    var back := LegOf(fees, RETURN_SHIPPING);
    NonNegativeLegs(fees, RETURN_SHIPPING, HasActual(fees, RETURN_SHIPPING));
    WithExtra(base.fees, back);
    NothingAdded(Bucket(base.fees, SHIPPING));
  }

  /** With debit charges only, the engine's two display buckets are the lines that the breakdown shows. */
  lemma BucketsAreShown(saleGross: real, saleVat: real, items: seq<ItemMoney>, fees: seq<FeeRow>, flag: bool)
    requires AllDebit(fees) && forall i :: 0 <= i < |fees| ==> fees[i].amountGross >= 0.0
    ensures var b := Profit(EngineInput(saleGross, saleVat, items, fees, flag));
            var v := EngineView(saleGross, saleVat, items, fees, flag);
            b.shipping == v.shipping && b.platformService == v.platformService
  {
    BucketIsTheLine(fees, SHIPPING);
    BucketIsTheLine(fees, PLATFORM_SERVICE);
    FoldedBuckets(ProfitInput(MoneyPair(saleGross, saleVat), CostOf(items), CommissionOf(items), EngineFees(fees),
                              StoppageTerm(fees), flag), fees);
  }
}
