/**
 The estimate, the settlement and the return estimate of one order, as functions from
 the fee table and the order's inputs to the new fee table and the stored figures.
 */
module OrderProfit {
  import opened Options
  import opened Money
  import opened ProfitFormula
  import opened ReturnLegs
  import opened Breakdown
  import opened FeeTable

  // ─── Store settings ───────────────────────────────────────────────────

  /** One key of the store's free-form settings document. */
  datatype Setting = Missing | Boolean(value: bool) | OtherType

  datatype RawSettings = NotARecord | Record(includeStopaj: Setting, includeNegativeNetVat: Setting)

  datatype Settings = Settings(includeStopaj: bool, includeNegativeNetVat: bool)

  const DEFAULT_SETTINGS := Settings(true, false)

  function BooleanOr(s: Setting, default: bool): bool { if s.Boolean? then s.value else default }

  function ResolveSettings(raw: RawSettings): Settings {
    match raw
    case NotARecord => DEFAULT_SETTINGS
    case Record(stopaj, negative) =>
      Settings(BooleanOr(stopaj, DEFAULT_SETTINGS.includeStopaj), BooleanOr(negative, DEFAULT_SETTINGS.includeNegativeNetVat))
  }

  // ─── Order, fee definitions, environment ──────────────────────────────

  datatype ProfitLine = ProfitLine(
    id: nat,
    quantity: nat,
    digital: bool,
    unitCostGross: Option<real>,
    unitCostVatRate: Option<Rate>,
    lineSaleGross: Option<real>,
    saleVatRate: Rate,
    commissionGross: real,
    refundedCommissionGross: real,
    commissionVatRate: Rate,
    estimatedCommissionGross: Option<real>,
    settledCommissionGross: Option<real>)

  datatype OrderRow = OrderRow(
    excluded: bool,
    micro: bool,
    cancelled: bool,
    sameDayLabel: bool,
    shippedSameDay: Option<bool>,
    saleGross: Option<real>,
    saleVat: Option<real>,
    listGross: Option<real>,
    sellerDiscountGross: Option<real>,
    lines: seq<ProfitLine>)

  datatype Definition = Definition(fixedAmountNet: Option<real>, rateOfSale: Option<real>, vatRate: Rate)

  /** The definitions in force on the order's date; a missing one makes its lookup throw. */
  datatype FeeBook = FeeBook(
    platformService: Option<Definition>,
    platformServiceFast: Option<Definition>,
    stoppage: Option<Definition>,
    shipping: Option<Definition>,
    international: Option<Definition>,
    returnShipping: Option<Definition>)

  /** What a call reads besides the fee table, the snapshot and the store's live settings. */
  datatype Inputs = Inputs(order: OrderRow, book: FeeBook, shippingNet: Option<real>)

  /** The stored figures: money at two decimals, margins at four. */
  datatype Figures = Figures(netProfit: real, netVat: real, saleMarginPct: Option<real>, costMarkupPct: Option<real>)

  /** What the calls write: fee rows, the settings snapshot, and the two sets of figures. */
  datatype Sheet = Sheet(
    fees: seq<FeeRow>,
    stopaj: Option<bool>,
    negativeNetVat: Option<bool>,
    estimated: Option<Figures>,
    settled: Option<Figures>)

  // ─── Estimate ─────────────────────────────────────────────────────────

  predicate Snapshotted(s: Sheet) { s.stopaj.Some? && s.negativeNetVat.Some? }

  /** The snapshot when it is complete; else the live settings, with negative net VAT forced on for micro exports. */
  function EffectiveSettings(s: Sheet, inputs: Inputs, live: RawSettings): Settings {
    if Snapshotted(s) then Settings(s.stopaj.value, s.negativeNetVat.value)
    else
      var store := ResolveSettings(live);
      Settings(store.includeStopaj, inputs.order.micro || store.includeNegativeNetVat)
  }

  predicate PsfExempt(o: OrderRow) {
    o.micro || (o.lines != [] && forall i :: 0 <= i < |o.lines| ==> o.lines[i].digital)
  }

  /** A same-day label earns the lower service fee until the parcel is known to have left late. */
  predicate EarnsSameDay(o: OrderRow) { o.sameDayLabel && o.shippedSameDay != Some(false) }

  function Grossed(net: real, vatRate: Rate): real { net * (100.0 + vatRate) / 100.0 }

  function ForwardCharge(gross: real, vatRate: Rate): Charge { Charge(Round2(gross), Some(vatRate), DEBIT, false) }

  function PsfCharge(inputs: Inputs): Option<Charge> {
    var def := if EarnsSameDay(inputs.order) then inputs.book.platformServiceFast else inputs.book.platformService;
    match def
    case Some(Definition(Some(net), _, vatRate)) => Some(ForwardCharge(Grossed(net, vatRate), vatRate))
    case _ => None
  }

  function WithPsf(fees: seq<FeeRow>, inputs: Inputs): Option<seq<FeeRow>> {
    if PsfExempt(inputs.order) then Some(fees)
    else match PsfCharge(inputs) case None => None case Some(c) => Some(Upserted(fees, Forward(PLATFORM_SERVICE), c))
  }

  /** Withholding is written once, from the sale net of VAT, and never revised. */
  predicate OwesStoppage(fees: seq<FeeRow>, inputs: Inputs, settings: Settings) {
    && inputs.order.saleGross.Some? && inputs.order.saleVat.Some?
    && !inputs.order.micro && settings.includeStopaj
    && EstimateRow(fees, Stoppage).None?
  }

  function Withheld(net: real, rate: real): real { Round2(Part(net, rate)) }

  function StoppageCharge(inputs: Inputs): Option<Charge>
    requires inputs.order.saleGross.Some? && inputs.order.saleVat.Some?
  {
    match inputs.book.stoppage
    case Some(Definition(_, Some(rate), _)) =>
      Some(Charge(Withheld(inputs.order.saleGross.value - inputs.order.saleVat.value, rate), None, DEBIT, false))
    case _ => None
  }

  function WithStoppage(fees: seq<FeeRow>, inputs: Inputs, settings: Settings): Option<seq<FeeRow>> {
    if !OwesStoppage(fees, inputs, settings) then Some(fees)
    else match StoppageCharge(inputs) case None => None case Some(c) => Some(Upserted(fees, Stoppage, c))
  }

  function ShippingCharge(inputs: Inputs): Option<Charge>
    requires inputs.shippingNet.Some?
  {
    match inputs.book.shipping
    case None => None
    case Some(def) => Some(ForwardCharge(Grossed(inputs.shippingNet.value, def.vatRate), def.vatRate))
  }

  function WithShipping(fees: seq<FeeRow>, inputs: Inputs): Option<seq<FeeRow>> {
    if inputs.shippingNet.None? then Some(fees)
    else match ShippingCharge(inputs) case None => None case Some(c) => Some(Upserted(fees, Forward(SHIPPING), c))
  }

  /** The micro-export fee is charged on the list price less the seller's own discount. */
  function InternationalCharge(inputs: Inputs): Option<Charge> {
    match inputs.book.international
    case Some(Definition(_, Some(rate), vatRate)) =>
      Some(ForwardCharge(Part(inputs.order.listGross.GetOr(0.0) - inputs.order.sellerDiscountGross.GetOr(0.0), rate), vatRate))
    case _ => None
  }

  function WithInternational(fees: seq<FeeRow>, inputs: Inputs): Option<seq<FeeRow>> {
    if !inputs.order.micro || inputs.order.saleGross.None? then Some(fees)
    else if inputs.order.cancelled then Some(Deleted(fees, Forward(INTERNATIONAL_SERVICE)))
    else
      match InternationalCharge(inputs)
      case None => None
      case Some(c) => Some(Upserted(fees, Forward(INTERNATIONAL_SERVICE), c))
  }

  function EstimatedFees(fees: seq<FeeRow>, inputs: Inputs, settings: Settings): Option<seq<FeeRow>> {
    match WithPsf(fees, inputs)
    case None => None
    case Some(f1) =>
      match WithStoppage(f1, inputs, settings)
      case None => None
      case Some(f2) =>
        match WithShipping(f2, inputs)
        case None => None
        case Some(f3) => WithInternational(f3, inputs)
  }

  /** Every line has its cost snapshot and the order its sale totals. */
  predicate Computable(o: OrderRow) {
    && o.saleGross.Some? && o.saleVat.Some?
    && forall i :: 0 <= i < |o.lines| ==> o.lines[i].unitCostGross.Some? && o.lines[i].unitCostVatRate.Some?
  }

  /** A line's money as the estimate reads it, or as settlement does: settled, else estimated, else no commission. */
  function MoneyOf(l: ProfitLine, settling: bool): ItemMoney {
    ItemMoney(l.quantity, l.unitCostGross, l.unitCostVatRate.GetOr(0.0),
              if !settling then l.commissionGross else l.settledCommissionGross.GetOr(l.estimatedCommissionGross.GetOr(0.0)),
              l.refundedCommissionGross, l.commissionVatRate)
  }

  function MoneysOf(lines: seq<ProfitLine>, settling: bool): seq<ItemMoney> {
    if lines == [] then [] else MoneysOf(lines[..|lines| - 1], settling) + [MoneyOf(lines[|lines| - 1], settling)]
  }

  function StoppageDue(fees: seq<FeeRow>): real {
    if EstimateRow(fees, Stoppage).Some? then EstimateRow(fees, Stoppage).value.amountGross else 0.0
  }

  function EngineBase(o: OrderRow, forward: seq<FeeRow>, settling: bool, flag: bool): ProfitInput
    requires Computable(o)
  {
    var items := MoneysOf(o.lines, settling);
    ProfitInput(MoneyPair(o.saleGross.value, o.saleVat.value), CostOf(items), CommissionOf(items),
                EngineFees(forward), StoppageDue(forward), flag)
  }

  /** Forward charges come from the estimates alone; the return legs are resolved over every row. */
  function EstimateInput(o: OrderRow, fees: seq<FeeRow>, flag: bool): ProfitInput
    requires Computable(o)
  {
    Fold(EngineBase(o, Kept(fees, Estimated), false, flag), fees)
  }

  function Round4(x: real): real { Round2(x * 100.0) / 100.0 }

  function StoredFigures(b: ProfitBreakdown): Figures {
    Figures(Round2(b.netProfit), Round2(b.netVat),
            if b.saleMarginPct.Some? then Some(Round4(b.saleMarginPct.value)) else None,
            if b.costMarkupPct.Some? then Some(Round4(b.costMarkupPct.value)) else None)
  }

  function EstimateFigures(o: OrderRow, fees: seq<FeeRow>, flag: bool): Figures
    requires Computable(o)
  {
    StoredFigures(Profit(EstimateInput(o, fees, flag)))
  }

  /** None when a fee definition is missing: the call throws and its transaction leaves nothing behind. */
  function Estimate(s: Sheet, inputs: Inputs, live: RawSettings): Option<Sheet> {
    if inputs.order.excluded then Some(s)
    else
      var settings := EffectiveSettings(s, inputs, live);
      match EstimatedFees(s.fees, inputs, settings)
      case None => None
      case Some(fees) =>
        Some(Sheet(fees, Some(settings.includeStopaj), Some(settings.includeNegativeNetVat),
                   if Computable(inputs.order)
                   then Some(EstimateFigures(inputs.order, fees, settings.includeNegativeNetVat)) else s.estimated,
                   s.settled))
  }

  // ─── Settlement ───────────────────────────────────────────────────────

  datatype SkipReason = ProfitExcluded | MissingSaleAggregate | IncompleteCostSnapshots

  function SettleSkip(o: OrderRow): Option<SkipReason> {
    if o.excluded then Some(ProfitExcluded)
    else if o.saleGross.None? || o.saleVat.None? then Some(MissingSaleAggregate)
    else if !Computable(o) then Some(IncompleteCostSnapshots)
    else None
  }

  /** Settlement reads the invoiced rows and the confirmed estimates, for charges and return legs alike. */
  function SettledInput(o: OrderRow, fees: seq<FeeRow>, flag: bool): ProfitInput
    requires Computable(o)
  {
    Fold(EngineBase(o, Kept(fees, Settles), true, flag), Kept(fees, Settles))
  }

  function Settle(s: Sheet, o: OrderRow): Sheet {
    if SettleSkip(o).Some? then s
    else
      var flag := s.negativeNetVat.GetOr(DEFAULT_SETTINGS.includeNegativeNetVat);
      s.(settled := Some(StoredFigures(Profit(SettledInput(o, s.fees, flag)))))
  }

  // ─── Return estimate ──────────────────────────────────────────────────

  /** Accepted units of one order line. */
  datatype Units = Units(line: nat, count: nat)

  /** Where a line's count is kept, or the tally's length when it has none yet. */
  function TallySlot(tally: seq<Units>, line: nat): (k: nat)
    ensures k <= |tally| && (k < |tally| ==> tally[k].line == line)
    ensures forall i :: 0 <= i < k ==> tally[i].line != line
  {
    if tally == [] then 0
    else
      var k := TallySlot(tally[..|tally| - 1], line);
      if k < |tally| - 1 || tally[|tally| - 1].line == line then k else |tally|
  }

  function AddUnit(tally: seq<Units>, line: nat): seq<Units> {
    var k := TallySlot(tally, line);
    if k < |tally| then tally[k := tally[k].(count := tally[k].count + 1)] else tally + [Units(line, 1)]
  }

  /** Accepted claim items counted per line, in order of first appearance. */
  function TallyOf(accepted: seq<nat>): seq<Units> {
    if accepted == [] then [] else AddUnit(TallyOf(accepted[..|accepted| - 1]), accepted[|accepted| - 1])
  }

  function FindLine(lines: seq<ProfitLine>, id: nat): Option<ProfitLine> {
    if lines == [] then None
    else if lines[|lines| - 1].id == id then Some(lines[|lines| - 1])
    else FindLine(lines[..|lines| - 1], id)
  }

  function AcceptedShare(l: ProfitLine, count: nat): real { if l.quantity == 0 then 0.0 else count as real / l.quantity as real }

  /** A leg being added up: the last contributing line's VAT rate stands for all of it. */
  datatype Leg = Leg(gross: real, vatRate: Rate)

  /** What the accepted units of a line add to a leg; None when the line contributes nothing. */
  function LegPart(l: ProfitLine, leg: ReturnLeg, count: nat): Option<Leg> {
    match leg
    case REFUND_DEDUCTION =>
      if l.lineSaleGross.None? then None else Some(Leg(l.lineSaleGross.value * AcceptedShare(l, count), l.saleVatRate))
    case COMMISSION_REFUND => Some(Leg(l.commissionGross * AcceptedShare(l, count), l.commissionVatRate))
    case COST_RETURN =>
      if l.unitCostGross.None? then None else Some(Leg(l.unitCostGross.value * count as real, l.unitCostVatRate.GetOr(0.0)))
    case _ => None
  }

  function PartOf(lines: seq<ProfitLine>, leg: ReturnLeg, u: Units): Option<Leg> {
    match FindLine(lines, u.line) case None => None case Some(l) => LegPart(l, leg, u.count)
  }

  function Accumulated(lines: seq<ProfitLine>, leg: ReturnLeg, tally: seq<Units>): Leg {
    if tally == [] then Leg(0.0, 0.0)
    else
      var acc := Accumulated(lines, leg, tally[..|tally| - 1]);
      match PartOf(lines, leg, tally[|tally| - 1])
      case None => acc
      case Some(part) => Leg(acc.gross + part.gross, part.vatRate)
  }

  function LegDirection(leg: ReturnLeg): Direction { if leg == REFUND_DEDUCTION || leg == RETURN_SHIPPING then DEBIT else CREDIT }

  function LegCharge(leg: ReturnLeg, gross: real, vatRate: Option<Rate>): Charge {
    Charge(Round2(gross), vatRate, LegDirection(leg), true)
  }

  /** A leg that is not positive writes no row and removes none. */
  function WithLeg(fees: seq<FeeRow>, leg: ReturnLeg, gross: real, vatRate: Option<Rate>): seq<FeeRow> {
    if gross > 0.0 then Upserted(fees, Return(leg), LegCharge(leg, gross, vatRate)) else fees
  }

  /** A micro-export tier in force on the order's date, newest first: a rate for a band of unit prices. */
  datatype Tier = Tier(minSaleGross: real, maxSaleGross: real, rate: real)

  datatype Claim = Claim(accepted: seq<nat>, returnShippingNet: Option<real>, tiers: seq<Tier>)

  function NetOfVat(gross: real, vatRate: Rate): real { if vatRate == 0.0 then gross else gross * 100.0 / (100.0 + vatRate) }

  /** The withholding on the refunded sale, net of VAT. */
  function StoppageRefundGross(refund: Leg, def: Definition): real {
    NetOfVat(refund.gross, refund.vatRate) * def.rateOfSale.GetOr(0.0)
  }

  function WithStoppageRefund(fees: seq<FeeRow>, refund: Leg, book: FeeBook): Option<seq<FeeRow>> {
    if refund.gross <= 0.0 then Some(fees)
    else match book.stoppage
      case None => None
      case Some(def) => Some(WithLeg(fees, STOPPAGE_REFUND, StoppageRefundGross(refund, def), None))
  }

  function WithReturnShipping(fees: seq<FeeRow>, net: Option<real>, book: FeeBook): Option<seq<FeeRow>> {
    if net.None? then Some(fees)
    else match book.returnShipping
      case None => None
      case Some(def) => Some(WithLeg(fees, RETURN_SHIPPING, Grossed(net.value, def.vatRate), Some(def.vatRate)))
  }

  /** The three legs taken from the lines. */
  function WithLineLegs(fees: seq<FeeRow>, lines: seq<ProfitLine>, tally: seq<Units>): seq<FeeRow> {
    var refund := Accumulated(lines, REFUND_DEDUCTION, tally);
    var commission := Accumulated(lines, COMMISSION_REFUND, tally);
    var cost := Accumulated(lines, COST_RETURN, tally);
    WithLeg(WithLeg(WithLeg(fees, REFUND_DEDUCTION, refund.gross, Some(refund.vatRate)),
                    COMMISSION_REFUND, commission.gross, Some(commission.vatRate)),
            COST_RETURN, cost.gross, Some(cost.vatRate))
  }

  function DomesticReturn(fees: seq<FeeRow>, inputs: Inputs, claim: Claim): Option<seq<FeeRow>> {
    var tally := TallyOf(claim.accepted);
    match WithStoppageRefund(WithLineLegs(fees, inputs.order.lines, tally),
                             Accumulated(inputs.order.lines, REFUND_DEDUCTION, tally), inputs.book)
    case None => None
    case Some(f) => WithReturnShipping(f, claim.returnShippingNet, inputs.book)
  }

  function TierRate(tiers: seq<Tier>, unitSale: real): Option<real> {
    if tiers == [] then None
    else if tiers[0].minSaleGross <= unitSale <= tiers[0].maxSaleGross then Some(tiers[0].rate)
    else TierRate(tiers[1..], unitSale)
  }

  /** The fee on the share that is kept of a sale after its commission, never below zero. */
  function KeptFee(sale: real, commission: real, share: real, rate: real): real {
    var kept := sale * share - commission * share;
    (if kept > 0.0 then kept else 0.0) * rate
  }

  /** One line's overseas fee: what the seller kept of the accepted units, never below zero, at the unit price's tier. */
  function OverseasPart(lines: seq<ProfitLine>, u: Units, tiers: seq<Tier>): Option<real> {
    match FindLine(lines, u.line)
    case None => Some(0.0)
    case Some(l) =>
      if l.lineSaleGross.None? || l.quantity == 0 then Some(0.0)
      else
        match TierRate(tiers, l.lineSaleGross.value / l.quantity as real)
        case None => None
        case Some(rate) =>
          Some(KeptFee(l.lineSaleGross.value, l.commissionGross - l.refundedCommissionGross,
                       u.count as real / l.quantity as real, rate))
  }

  function OverseasGross(lines: seq<ProfitLine>, tally: seq<Units>, tiers: seq<Tier>): Option<real> {
    if tally == [] then Some(0.0)
    else
      match OverseasGross(lines, tally[..|tally| - 1], tiers)
      case None => None
      case Some(sum) =>
        match OverseasPart(lines, tally[|tally| - 1], tiers) case None => None case Some(x) => Some(sum + x)
  }

  function OverseasReturn(fees: seq<FeeRow>, inputs: Inputs, claim: Claim): Option<seq<FeeRow>> {
    match OverseasGross(inputs.order.lines, TallyOf(claim.accepted), claim.tiers)
    case None => None
    case Some(gross) =>
      if Round2(gross) > 0.0
      then Some(Upserted(fees, Forward(OVERSEAS_RETURN_OPERATION), Charge(Round2(gross), None, DEBIT, true)))
      else Some(Deleted(fees, Forward(OVERSEAS_RETURN_OPERATION)))
  }

  function ReturnFees(fees: seq<FeeRow>, inputs: Inputs, claim: Claim): Option<seq<FeeRow>> {
    if inputs.order.micro then OverseasReturn(fees, inputs, claim) else DomesticReturn(fees, inputs, claim)
  }

  /** Writes the return legs of the accepted units, then estimates again, in one transaction. */
  function EstimateReturn(s: Sheet, inputs: Inputs, live: RawSettings, claim: Claim): Option<Sheet> {
    if inputs.order.excluded || claim.accepted == [] then Some(s)
    else match ReturnFees(s.fees, inputs, claim) case None => None case Some(fees) => Estimate(s.(fees := fees), inputs, live)
  }
}
