/**
 The profit breakdown shown to the seller, rebuilt from stored items and fee rows, and
 the proof that it closes to the engine: displayed sale = cost + marketplace fees +
 taxes + net profit.
 */
module Breakdown {
  import opened Options
  import opened Money
  import opened ProfitFormula
  import opened ReturnLegs

  /** One order item's money: the unit cost is null until its snapshot is captured. */
  datatype ItemMoney = ItemMoney(
    quantity: nat,
    unitCostGross: Option<real>,
    unitCostVatRate: Rate,
    commissionGross: real,
    refundedCommissionGross: real,
    commissionVatRate: Rate)

  function ItemCost(i: ItemMoney): real { i.unitCostGross.GetOr(0.0) * i.quantity as real }

  /** Effective commission: list-price commission less the part refunded on the seller's discount. */
  function EffectiveCommission(i: ItemMoney): real { i.commissionGross - i.refundedCommissionGross }

  function Add(a: MoneyPair, gross: real, rate: Rate): MoneyPair { MoneyPair(a.gross + gross, a.vat + GrossToVat(gross, rate)) }

  function CostOf(items: seq<ItemMoney>): MoneyPair {
    if items == [] then MoneyPair(0.0, 0.0)
    else var i := items[|items| - 1]; Add(CostOf(items[..|items| - 1]), ItemCost(i), i.unitCostVatRate)
  }

  function CommissionOf(items: seq<ItemMoney>): MoneyPair {
    if items == [] then MoneyPair(0.0, 0.0)
    else var i := items[|items| - 1]; Add(CommissionOf(items[..|items| - 1]), EffectiveCommission(i), i.commissionVatRate)
  }

  function Abs(x: real): real { if x >= 0.0 then x else -x }

  /** What one fee row adds to the displayed sum of its type: signed by direction, VAT on the magnitude. */
  function Signed(f: FeeRow): MoneyPair {
    var signed := Directed(f.direction, f.amountGross);
    MoneyPair(signed, Directed(f.direction, GrossToVat(Abs(signed), f.vatRate)))
  }

  function SumOfType(fees: seq<FeeRow>, t: FeeType): MoneyPair {
    if fees == [] then MoneyPair(0.0, 0.0)
    else
      var rest, f := SumOfType(fees[..|fees| - 1], t), fees[|fees| - 1];
      if f.feeType == t then MoneyPair(rest.gross + Signed(f).gross, rest.vat + Signed(f).vat) else rest
  }

  datatype ViewInput = ViewInput(
    saleGross: real,
    saleVat: real,
    items: seq<ItemMoney>,
    fees: seq<FeeRow>,
    netProfit: real,
    netVat: real)

  /** The displayed terms before rounding. */
  datatype View = View(
    sale: MoneyPair,
    cost: MoneyPair,
    commission: MoneyPair,
    shipping: MoneyPair,
    outboundShipping: MoneyPair,
    returnShipping: MoneyPair,
    platformService: MoneyPair,
    internationalService: MoneyPair,
    overseasReturnOperation: MoneyPair,
    stoppage: real,
    netVat: real,
    netProfit: real,
    marketplaceFees: real,
    taxes: real,
    totalDeductions: real)

  function Plus(a: MoneyPair, b: MoneyPair): MoneyPair { MoneyPair(a.gross + b.gross, a.vat + b.vat) }

  /** What the view is laid out from: the item totals, the sums per fee type and the resolved legs. */
  datatype Terms = Terms(
    sale: MoneyPair,
    cost: MoneyPair,
    commission: MoneyPair,
    shipping: MoneyPair,
    platformService: MoneyPair,
    international: MoneyPair,
    overseas: MoneyPair,
    withheld: real,
    refund: MoneyPair,
    costReturn: MoneyPair,
    commissionRefund: MoneyPair,
    back: MoneyPair,
    stoppageRefund: real,
    netProfit: real,
    netVat: real)

  function TermsOf(v: ViewInput): Terms {
    Terms(MoneyPair(v.saleGross, v.saleVat), CostOf(v.items), CommissionOf(v.items),
          SumOfType(v.fees, Forward(SHIPPING)), SumOfType(v.fees, Forward(PLATFORM_SERVICE)),
          SumOfType(v.fees, Forward(INTERNATIONAL_SERVICE)), SumOfType(v.fees, Forward(OVERSEAS_RETURN_OPERATION)),
          SumOfType(v.fees, Stoppage).gross,
          LegOf(v.fees, REFUND_DEDUCTION), LegOf(v.fees, COST_RETURN), LegOf(v.fees, COMMISSION_REFUND),
          LegOf(v.fees, RETURN_SHIPPING), LegOf(v.fees, STOPPAGE_REFUND).gross, v.netProfit, v.netVat)
  }

  function LaidOut(t: Terms): View {
    var cost := Less(t.cost, t.costReturn);
    var commission := Less(t.commission, t.commissionRefund);
    var stoppage := StoppageLeft(t.withheld, t.stoppageRefund);
    var marketplace :=
      commission.gross + Plus(t.shipping, t.back).gross + t.platformService.gross + t.international.gross + t.overseas.gross;
    var taxes := stoppage + t.netVat;
    View(Less(t.sale, t.refund), cost, commission,
         Plus(t.shipping, t.back), t.shipping, t.back, t.platformService, t.international, t.overseas, stoppage,
         t.netVat, t.netProfit, marketplace, taxes, cost.gross + marketplace + taxes)
  }

  function ViewOf(v: ViewInput): View { LaidOut(TermsOf(v)) }

  method SumFees(fees: seq<FeeRow>, t: FeeType) returns (sum: MoneyPair)
    ensures sum == SumOfType(fees, t)
  {
    sum := MoneyPair(0.0, 0.0);
    for k := 0 to |fees|
      invariant sum == SumOfType(fees[..k], t)
    {
      assert fees[..k + 1][..k] == fees[..k];
      var fee := fees[k];
      if fee.feeType == t {
        var signed := if fee.direction == DEBIT then fee.amountGross else -fee.amountGross;
        sum := MoneyPair(sum.gross + signed, sum.vat + Directed(fee.direction, GrossToVat(Abs(signed), fee.vatRate)));
      }
    }
    assert fees[..|fees|] == fees;
  }

  method BuildProfitBreakdown(v: ViewInput) returns (view: View)
    ensures view == ViewOf(v)
  {
    var cost, commission := MoneyPair(0.0, 0.0), MoneyPair(0.0, 0.0);
    for k := 0 to |v.items|
      invariant cost == CostOf(v.items[..k]) && commission == CommissionOf(v.items[..k])
    {
      assert v.items[..k + 1][..k] == v.items[..k];
      var item := v.items[k];
      cost := Add(cost, ItemCost(item), item.unitCostVatRate);
      commission := Add(commission, item.commissionGross - item.refundedCommissionGross, item.commissionVatRate);
    }
    assert v.items[..|v.items|] == v.items;
    var shipping := SumFees(v.fees, Forward(SHIPPING));
    var platformService := SumFees(v.fees, Forward(PLATFORM_SERVICE));
    var international := SumFees(v.fees, Forward(INTERNATIONAL_SERVICE));
    var overseas := SumFees(v.fees, Forward(OVERSEAS_RETURN_OPERATION));
    var withheld := SumFees(v.fees, Stoppage);
    var refund := ResolveLeg(v.fees, REFUND_DEDUCTION);
    var costReturn := ResolveLeg(v.fees, COST_RETURN);
    var commissionRefund := ResolveLeg(v.fees, COMMISSION_REFUND);
    var back := ResolveLeg(v.fees, RETURN_SHIPPING);
    var stoppageRefund := ResolveLeg(v.fees, STOPPAGE_REFUND);
    var dispCost, dispCommission := Less(cost, costReturn), Less(commission, commissionRefund);
    var stoppage := StoppageLeft(withheld.gross, stoppageRefund.gross);
    var marketplace :=
      dispCommission.gross + (shipping.gross + back.gross) + platformService.gross + international.gross + overseas.gross;
    var taxes := stoppage + v.netVat;
    view := View(Less(MoneyPair(v.saleGross, v.saleVat), refund), dispCost, dispCommission, Plus(shipping, back),
                 shipping, back, platformService, international, overseas, stoppage, v.netVat, v.netProfit,
                 marketplace, taxes, dispCost.gross + marketplace + taxes);
  }

  // ─── The engine's input for the same order ────────────────────────────

  /** The forward fee rows as engine input, in row order. */
  function EngineFees(fees: seq<FeeRow>): seq<InputFee> {
    if fees == [] then []
    else
      var f := fees[|fees| - 1];
      EngineFees(fees[..|fees| - 1])
      + if f.feeType.Forward? then [InputFee(f.feeType.kind, f.amountGross, VatOf(f), f.direction)] else []
  }

  /** The first withholding row, or nothing withheld. */
  function StoppageTerm(fees: seq<FeeRow>): real {
    if fees == [] then 0.0
    else if fees[0].feeType == Stoppage then fees[0].amountGross
    else StoppageTerm(fees[1..])
  }

  function EngineInput(saleGross: real, saleVat: real, items: seq<ItemMoney>, fees: seq<FeeRow>, flag: bool): ProfitInput {
    Fold(ProfitInput(MoneyPair(saleGross, saleVat), CostOf(items), CommissionOf(items), EngineFees(fees), StoppageTerm(fees), flag),
         fees)
  }

  /** Fee rows as stored: no negative amounts, at most one withholding row, and that one a debit. */
  predicate Regular(fees: seq<FeeRow>) {
    && (forall i :: 0 <= i < |fees| ==> fees[i].amountGross >= 0.0)
    && (forall i :: 0 <= i < |fees| && fees[i].feeType == Stoppage ==> fees[i].direction == DEBIT)
    && (forall i, j :: 0 <= i < j < |fees| ==> !(fees[i].feeType == Stoppage && fees[j].feeType == Stoppage))
  }

  function ForwardTotal(fees: seq<FeeRow>): MoneyPair {
    Plus(Plus(SumOfType(fees, Forward(SHIPPING)), SumOfType(fees, Forward(PLATFORM_SERVICE))),
         Plus(SumOfType(fees, Forward(INTERNATIONAL_SERVICE)), SumOfType(fees, Forward(OVERSEAS_RETURN_OPERATION))))
  }

  lemma SignedIsEngineFee(f: FeeRow)
    requires f.amountGross >= 0.0
    ensures Signed(f) == MoneyPair(Directed(f.direction, f.amountGross), Directed(f.direction, VatOf(f)))
  {
  }

  /** What one row adds to the forward charges. */
  function ForwardPart(f: FeeRow): MoneyPair { if f.feeType.Forward? then Signed(f) else MoneyPair(0.0, 0.0) }

  function ForwardSum(fees: seq<FeeRow>): MoneyPair {
    if fees == [] then MoneyPair(0.0, 0.0)
    else Plus(ForwardSum(fees[..|fees| - 1]), ForwardPart(fees[|fees| - 1]))
  }

  lemma SumStep(fees: seq<FeeRow>, t: FeeType)
    requires fees != []
    ensures SumOfType(fees, t)
         == if fees[|fees| - 1].feeType == t then Plus(SumOfType(fees[..|fees| - 1], t), Signed(fees[|fees| - 1]))
            else SumOfType(fees[..|fees| - 1], t)
  {
  }

  lemma DisplayStep(fees: seq<FeeRow>)
    requires fees != []
    ensures ForwardTotal(fees) == Plus(ForwardTotal(fees[..|fees| - 1]), ForwardPart(fees[|fees| - 1]))
  {
    SumStep(fees, Forward(SHIPPING));
    SumStep(fees, Forward(PLATFORM_SERVICE));
    SumStep(fees, Forward(INTERNATIONAL_SERVICE));
    SumStep(fees, Forward(OVERSEAS_RETURN_OPERATION));
    var f := fees[|fees| - 1];
    if f.feeType.Forward? {
      var kind := f.feeType.kind;
      assert kind == SHIPPING || kind == PLATFORM_SERVICE || kind == INTERNATIONAL_SERVICE || kind == OVERSEAS_RETURN_OPERATION;
      assert f.feeType == Forward(kind);
    }
  }

  lemma NothingDisplayed(t: FeeType)
    ensures SumOfType([], t) == MoneyPair(0.0, 0.0)
  {
  }

  /** The four displayed sums partition the forward rows. */
  lemma {:induction false} DisplayAgrees(fees: seq<FeeRow>)
    ensures ForwardTotal(fees) == ForwardSum(fees)
  {
    if fees == [] {
      NothingDisplayed(Forward(SHIPPING));
      NothingDisplayed(Forward(PLATFORM_SERVICE));
      NothingDisplayed(Forward(INTERNATIONAL_SERVICE));
      NothingDisplayed(Forward(OVERSEAS_RETURN_OPERATION));
    } else {
      DisplayStep(fees);
      DisplayAgrees(fees[..|fees| - 1]);
    }
  }

  lemma EngineStep(fees: seq<FeeRow>)
    requires fees != [] && fees[|fees| - 1].amountGross >= 0.0
    ensures var pre, part := EngineFees(fees[..|fees| - 1]), ForwardPart(fees[|fees| - 1]);
            && FeesGross(EngineFees(fees)) == FeesGross(pre) + part.gross
            && FeesVat(EngineFees(fees)) == FeesVat(pre) + part.vat
  {
    var pre, f := EngineFees(fees[..|fees| - 1]), fees[|fees| - 1];
    if f.feeType.Forward? {
      var fee := InputFee(f.feeType.kind, f.amountGross, VatOf(f), f.direction);
      assert EngineFees(fees) == pre + [fee] && (pre + [fee])[..|pre|] == pre;
      SignedIsEngineFee(f);
    } else {
      assert EngineFees(fees) == pre;
    }
  }

  lemma {:induction false} EngineAgrees(fees: seq<FeeRow>)
    requires forall i :: 0 <= i < |fees| ==> fees[i].amountGross >= 0.0
    ensures FeesGross(EngineFees(fees)) == ForwardSum(fees).gross
    ensures FeesVat(EngineFees(fees)) == ForwardSum(fees).vat
  {
    if fees != [] {
      var pre := fees[..|fees| - 1];
      EngineAgrees(pre);
      EngineStep(fees);
      assert ForwardSum(fees) == Plus(ForwardSum(pre), ForwardPart(fees[|fees| - 1]));
    } else {
      assert EngineFees(fees) == [] && ForwardSum(fees) == MoneyPair(0.0, 0.0);
    }
  }

  lemma {:induction false} NoStoppageRow(fees: seq<FeeRow>)
    requires forall i :: 0 <= i < |fees| ==> fees[i].feeType != Stoppage
    ensures SumOfType(fees, Stoppage) == MoneyPair(0.0, 0.0) && StoppageTerm(fees) == 0.0
  {
    if fees != [] {
      NoStoppageRow(fees[..|fees| - 1]);
      NoStoppageTerm(fees);
    }
  }

  lemma {:induction false} NoStoppageTerm(fees: seq<FeeRow>)
    requires forall i :: 0 <= i < |fees| ==> fees[i].feeType != Stoppage
    ensures StoppageTerm(fees) == 0.0
  {
    if fees != [] { NoStoppageTerm(fees[1..]); }
  }

  lemma {:induction false} StoppageAt(fees: seq<FeeRow>, k: nat)
    requires k < |fees| && fees[k].feeType == Stoppage
    requires forall i :: 0 <= i < k ==> fees[i].feeType != Stoppage
    ensures StoppageTerm(fees) == fees[k].amountGross
  {
    if k > 0 { StoppageAt(fees[1..], k - 1); }
  }

  /** With a single debit withholding row, summing and taking the first agree. */
  lemma {:induction false} StoppageAgrees(fees: seq<FeeRow>)
    requires Regular(fees)
    ensures SumOfType(fees, Stoppage).gross == StoppageTerm(fees)
  {
    if fees != [] {
      var pre, f := fees[..|fees| - 1], fees[|fees| - 1];
      StoppageAgrees(pre);
      if f.feeType == Stoppage {
        NoStoppageRow(pre);
        StoppageAt(fees, |fees| - 1);
      } else if k :| 0 <= k < |pre| && pre[k].feeType == Stoppage {
        StoppageAt(pre, k);
        StoppageAt(fees, k);
      } else {
        NoStoppageRow(pre);
        NoStoppageRow(fees);
      }
    }
  }

  /** The view of an order whose figures the engine computed. */
  function EngineView(saleGross: real, saleVat: real, items: seq<ItemMoney>, fees: seq<FeeRow>, flag: bool): View {
    var i := EngineInput(saleGross, saleVat, items, fees, flag);
    ViewOf(ViewInput(saleGross, saleVat, items, fees, NetProfit(i), NetVat(i)))
  }

  lemma FoldedFees(saleGross: real, saleVat: real, items: seq<ItemMoney>, fees: seq<FeeRow>, flag: bool)
    requires Regular(fees)
    ensures var i := EngineInput(saleGross, saleVat, items, fees, flag);
            && FeesGross(i.fees) == ForwardTotal(fees).gross + LegOf(fees, RETURN_SHIPPING).gross
            && FeesVat(i.fees) == ForwardTotal(fees).vat + LegOf(fees, RETURN_SHIPPING).vat
  {
    EngineAgrees(fees);
    DisplayAgrees(fees);
    NonNegativeLegs(fees, RETURN_SHIPPING, HasActual(fees, RETURN_SHIPPING));
    var back := LegOf(fees, RETURN_SHIPPING);
    var extra := InputFee(SHIPPING, back.gross, back.vat, DEBIT);
    FeesConcat(EngineFees(fees), [extra]);
    assert [extra][..0] == [];
  }

  lemma EngineFigures(saleGross: real, saleVat: real, items: seq<ItemMoney>, fees: seq<FeeRow>, flag: bool)
    requires Regular(fees)
    ensures var i := EngineInput(saleGross, saleVat, items, fees, flag);
            var v := ViewOf(ViewInput(saleGross, saleVat, items, fees, NetProfit(i), NetVat(i)));
            && FeesGross(i.fees)
               == v.shipping.gross + v.platformService.gross + v.internationalService.gross + v.overseasReturnOperation.gross
            && FeesVat(i.fees)
               == v.shipping.vat + v.platformService.vat + v.internationalService.vat + v.overseasReturnOperation.vat
            && i.sale == v.sale && i.cost == v.cost && i.commission == v.commission && i.stoppage == v.stoppage
  {
    FoldedFees(saleGross, saleVat, items, fees, flag);
    StoppageAgrees(fees);
  }

  /**
   The view closes to the engine: for any items, forward fees, withholding and return
   rows, the displayed sale is exactly cost + marketplace fees + taxes + net profit; and
   the displayed VAT lines add up to the displayed net VAT exactly when the clamp is
   inactive.
   */
  lemma ViewCloses(saleGross: real, saleVat: real, items: seq<ItemMoney>, fees: seq<FeeRow>, flag: bool)
    requires Regular(fees)
    ensures var v := EngineView(saleGross, saleVat, items, fees, flag);
            && v.sale.gross == v.cost.gross + v.marketplaceFees + v.taxes + v.netProfit
            && v.sale.gross == v.totalDeductions + v.netProfit
            && v.shipping == Plus(v.outboundShipping, v.returnShipping)
    ensures var v := EngineView(saleGross, saleVat, items, fees, flag);
            var i := EngineInput(saleGross, saleVat, items, fees, flag);
            (flag || RawNetVat(i) >= 0.0) <==>
              v.netVat == v.sale.vat - v.cost.vat - v.commission.vat - v.shipping.vat - v.platformService.vat
                          - v.internationalService.vat - v.overseasReturnOperation.vat
  {
    EngineFigures(saleGross, saleVat, items, fees, flag);
    var i := EngineInput(saleGross, saleVat, items, fees, flag);
    assert i.includeNegativeNetVat == flag;
    assert NetProfit(i) == i.sale.gross - i.cost.gross - i.commission.gross - FeesGross(i.fees) - i.stoppage - NetVat(i);
    assert RawNetVat(i) == i.sale.vat - i.cost.vat - i.commission.vat - FeesVat(i.fees);
  }

  /**
   The lists and the breakdown show the same net sale exactly when an actual refund row
   exists or the hand-entered refund rows add up to nothing.
   */
  lemma ListsShowTheSameSaleIff(saleGross: real, saleVat: real, items: seq<ItemMoney>, fees: seq<FeeRow>, flag: bool)
    ensures NetSaleGross(saleGross, fees) == EngineView(saleGross, saleVat, items, fees, flag).sale.gross
       <==> HasActual(fees, REFUND_DEDUCTION) || ManualGross(fees, REFUND_DEDUCTION) == 0.0
  {
    ListedLeg(fees, REFUND_DEDUCTION);
  }

  /** A hand-entered refund alone sets them apart. */
  lemma HandEnteredRefundSetsListsApart(saleGross: real, saleVat: real, items: seq<ItemMoney>, amount: real, flag: bool)
    requires amount != 0.0
    ensures var fees := [FeeRow(Return(REFUND_DEDUCTION), MANUAL, DEBIT, amount, 0.0, false)];
            NetSaleGross(saleGross, fees) != EngineView(saleGross, saleVat, items, fees, flag).sale.gross
  {
    var fees := [FeeRow(Return(REFUND_DEDUCTION), MANUAL, DEBIT, amount, 0.0, false)];
    assert fees[..0] == [];
    assert ManualGross(fees, REFUND_DEDUCTION) == amount;
    ListsShowTheSameSaleIff(saleGross, saleVat, items, fees, flag);
  }

  lemma {:induction false} NothingManual(fees: seq<FeeRow>, leg: ReturnLeg)
    requires forall i :: 0 <= i < |fees| ==> fees[i].source != MANUAL
    ensures ManualGross(fees, leg) == 0.0
  {
    if fees != [] { NothingManual(fees[..|fees| - 1], leg); }
  }

  /** What the seller reads: every term rounded to cents on its own, from the unrounded view. */
  lemma RoundedViewClosesWithinCents(saleGross: real, saleVat: real, items: seq<ItemMoney>, fees: seq<FeeRow>, flag: bool)
    requires Regular(fees)
    ensures var v := EngineView(saleGross, saleVat, items, fees, flag);
            Abs(Round2(v.sale.gross)
                - (Round2(v.cost.gross) + Round2(v.marketplaceFees) + Round2(v.taxes) + Round2(v.netProfit))) <= 5.0 * 0.005
  {
    var v := EngineView(saleGross, saleVat, items, fees, flag);
    ViewCloses(saleGross, saleVat, items, fees, flag);
    RoundIsClose(v.sale.gross);
    RoundIsClose(v.cost.gross);
    RoundIsClose(v.marketplaceFees);
    RoundIsClose(v.taxes);
    RoundIsClose(v.netProfit);
  }

  /** The same with the engine's figures rounded when they were stored, as the order row keeps them. */
  lemma StoredViewClosesWithinCents(saleGross: real, saleVat: real, items: seq<ItemMoney>, fees: seq<FeeRow>, flag: bool)
    requires Regular(fees)
    ensures var i := EngineInput(saleGross, saleVat, items, fees, flag);
            var v := ViewOf(ViewInput(saleGross, saleVat, items, fees, Round2(NetProfit(i)), Round2(NetVat(i))));
            Abs(Round2(v.sale.gross)
                - (Round2(v.cost.gross) + Round2(v.marketplaceFees) + Round2(v.taxes) + v.netProfit)) <= 6.0 * 0.005
  {
    var i := EngineInput(saleGross, saleVat, items, fees, flag);
    var v := ViewOf(ViewInput(saleGross, saleVat, items, fees, Round2(NetProfit(i)), Round2(NetVat(i))));
    ViewCloses(saleGross, saleVat, items, fees, flag);
    RoundIsClose(NetProfit(i));
    RoundIsClose(NetVat(i));
    RoundIsClose(v.sale.gross);
    RoundIsClose(v.cost.gross);
    RoundIsClose(v.marketplaceFees);
    RoundIsClose(v.taxes);
  }

  /** The VAT lines as the seller reads them, each rounded to cents on its own. */
  function RoundedVatLines(v: View): real {
    Round2(v.sale.vat) - Round2(v.cost.vat) - Round2(v.commission.vat) - Round2(v.shipping.vat)
    - Round2(v.platformService.vat) - Round2(v.internationalService.vat) - Round2(v.overseasReturnOperation.vat)
  }

  lemma VatLinesRoundClose(v: View)
    ensures Abs(RoundedVatLines(v)
                - (v.sale.vat - v.cost.vat - v.commission.vat - v.shipping.vat - v.platformService.vat
                   - v.internationalService.vat - v.overseasReturnOperation.vat)) <= 7.0 * 0.005
  {
    RoundIsClose(v.sale.vat);
    RoundIsClose(v.cost.vat);
    RoundIsClose(v.commission.vat);
    RoundIsClose(v.shipping.vat);
    RoundIsClose(v.platformService.vat);
    RoundIsClose(v.internationalService.vat);
    RoundIsClose(v.overseasReturnOperation.vat);
  }

  /**
   With the clamp inactive the rounded VAT lines add up to the net VAT that is stored and
   shown, within half a cent for each of the eight rounded terms; and the two shipping
   components to the shipping line, within half a cent for each of three.
   */
  lemma RoundedVatClosesWithinCents(saleGross: real, saleVat: real, items: seq<ItemMoney>, fees: seq<FeeRow>, flag: bool)
    requires Regular(fees) && (flag || RawNetVat(EngineInput(saleGross, saleVat, items, fees, flag)) >= 0.0)
    ensures var v := EngineView(saleGross, saleVat, items, fees, flag);
            && Abs(Round2(v.netVat) - RoundedVatLines(v)) <= 8.0 * 0.005
            && Abs(Round2(v.shipping.vat) - (Round2(v.outboundShipping.vat) + Round2(v.returnShipping.vat))) <= 3.0 * 0.005
  {
    var v := EngineView(saleGross, saleVat, items, fees, flag);
    ViewCloses(saleGross, saleVat, items, fees, flag);
    VatLinesRoundClose(v);
    RoundIsClose(v.netVat);
    RoundIsClose(v.shipping.vat);
    RoundIsClose(v.outboundShipping.vat);
    RoundIsClose(v.returnShipping.vat);
  }
}
