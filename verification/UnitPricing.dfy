/**
 Quoting one unit and solving for the price that meets a profit, margin or markup target.
 The solver samples the engine at two prices; what that recovers is proved here.
 */
module UnitPricing {
  import opened Options
  import opened Money
  import opened ProfitFormula

  datatype UnitEconomics = UnitEconomics(
    saleVatRate: Rate,
    cost: MoneyPair,
    commissionRate: real,
    commissionVatRate: Rate,
    stoppageRate: real,
    fixedFees: seq<InputFee>)

  /** No rounding in between, and net VAT unclamped. */
  function UnitInput(e: UnitEconomics, price: real): ProfitInput {
    var saleVat := GrossToVat(price, e.saleVatRate);
    var commissionGross := price * e.commissionRate / 100.0;
    ProfitInput(MoneyPair(price, saleVat), e.cost,
                MoneyPair(commissionGross, GrossToVat(commissionGross, e.commissionVatRate)),
                e.fixedFees, (price - saleVat) * e.stoppageRate, true)
  }

  function UnitProfit(e: UnitEconomics, price: real): ProfitBreakdown { Profit(UnitInput(e, price)) }

  function ProfitAt(e: UnitEconomics, price: real): real { UnitProfit(e, price).netProfit }

  datatype PriceTarget = MarginTarget(value: real) | MarkupTarget(value: real) | ProfitTarget(value: real)

  datatype SolveReason = NOT_PRICE_SENSITIVE | UNREACHABLE_TARGET | NO_COST

  datatype SolveResult = Solved(price: real, breakdown: ProfitBreakdown) | NotCalculable(reason: SolveReason)

  /** Slope and intercept recovered from the two sample prices 0 and 100. */
  function Slope(e: UnitEconomics): real { (ProfitAt(e, 100.0) - ProfitAt(e, 0.0)) / 100.0 }

  function Intercept(e: UnitEconomics): real { ProfitAt(e, 0.0) }

  datatype RawPrice = Price(price: real) | NoPrice(reason: SolveReason)

  /** The profit a markup target asks for. */
  function MarkupProfit(costGross: real, value: real): real { value / 100.0 * costGross }

  /** The closed-form price before rounding, on the line profit = slope * price + intercept. */
  function PriceOnLine(t: PriceTarget, slope: real, intercept: real, costGross: real): RawPrice
    requires slope > 0.0
  {
    match t
    case ProfitTarget(v) => Price((v - intercept) / slope)
    case MarginTarget(v) =>
      if v / 100.0 - slope >= 0.0 then NoPrice(UNREACHABLE_TARGET) else Price(intercept / (v / 100.0 - slope))
    case MarkupTarget(v) =>
      if costGross == 0.0 then NoPrice(NO_COST) else Price((MarkupProfit(costGross, v) - intercept) / slope)
  }

  function UnroundedPrice(e: UnitEconomics, t: PriceTarget): RawPrice
    requires Slope(e) > 0.0
  {
    PriceOnLine(t, Slope(e), Intercept(e), e.cost.gross)
  }

  function SolvePriceForTarget(e: UnitEconomics, t: PriceTarget): SolveResult {
    if Slope(e) <= 0.0 then NotCalculable(NOT_PRICE_SENSITIVE)
    else
      match UnroundedPrice(e, t)
      case NoPrice(reason) => NotCalculable(reason)
      case Price(p) =>
        if Round2(p) <= 0.0 then NotCalculable(UNREACHABLE_TARGET) else Solved(Round2(p), UnitProfit(e, Round2(p)))
  }

  // ─── Net profit is affine in price ────────────────────────────────────

  /** Profit per unit of price from the VAT shares of sale and commission, the commission and the withholding. */
  function CoefficientOf(v: real, w: real, q: real, s: real): real { 1.0 - q - (1.0 - v) * s - v + q * w }

  function Coefficient(e: UnitEconomics): real {
    CoefficientOf(VatShare(e.saleVatRate), VatShare(e.commissionVatRate), e.commissionRate / 100.0, e.stoppageRate)
  }

  function Constant(e: UnitEconomics): real {
    e.cost.vat + FeesVat(e.fixedFees) - e.cost.gross - FeesGross(e.fixedFees)
  }

  lemma Expand(p: real, v: real, w: real, q: real, s: real)
    ensures p - p * q - (p - p * v) * s - (p * v - p * q * w) == CoefficientOf(v, w, q, s) * p
  {
  }

  lemma ProfitWrittenOut(e: UnitEconomics, p: real)
    ensures ProfitAt(e, p) == Coefficient(e) * p + Constant(e)
  {
    var v, w, q := VatShare(e.saleVatRate), VatShare(e.commissionVatRate), e.commissionRate / 100.0;
    var i := UnitInput(e, p);
    VatIsAShare(p, e.saleVatRate);
    VatIsAShare(i.commission.gross, e.commissionVatRate);
    assert i.commission.gross == p * q;
    Expand(p, v, w, q, e.stoppageRate);
  }

  lemma SlopeFromSamples(a: real, b: real)
    ensures ((a * 100.0 + b) - (a * 0.0 + b)) / 100.0 == a
  {
  }

  /** For any fixed-fee list, net profit is affine in price, with the sampled slope and intercept. */
  lemma ProfitIsAffine(e: UnitEconomics, p: real)
    ensures ProfitAt(e, p) == Slope(e) * p + Intercept(e)
  {
    ProfitWrittenOut(e, p);
    ProfitWrittenOut(e, 0.0);
    ProfitWrittenOut(e, 100.0);
    SlopeFromSamples(Coefficient(e), Constant(e));
  }

  // ─── The solver is an exact inverse ───────────────────────────────────

  /** What a target asks of a breakdown. */
  predicate MeetsIn(t: PriceTarget, b: ProfitBreakdown) {
    match t
    case ProfitTarget(v) => b.netProfit == v
    case MarginTarget(v) => b.saleMarginPct == Some(v)
    case MarkupTarget(v) => b.costMarkupPct == Some(v)
  }

  /** What the target asks of a price. */
  predicate Meets(e: UnitEconomics, t: PriceTarget, p: real) { MeetsIn(t, UnitProfit(e, p)) }

  lemma Cancel(x: real, d: real)
    requires d != 0.0
    ensures d * (x / d) == x && x / d * d == x
  {
  }

  lemma RatioOfMultiple(m: real, p: real)
    requires p != 0.0
    ensures m * p / p == m
  {
  }

  lemma PercentMeans(part: real, whole: real, v: real)
    requires whole != 0.0
    ensures Percent(part, whole) == Some(v) <==> part == v / 100.0 * whole
  {
    var m, ratio := v / 100.0, part / whole;
    Cancel(part, whole);
    assert ratio * whole == part;
    if ratio == m { assert part == m * whole; }
    if part == m * whole { RatioOfMultiple(m, whole); }
  }

  /** What a target asks of a net profit at a price; a margin needs a price different from zero. */
  predicate Hits(t: PriceTarget, costGross: real, netProfit: real, p: real) {
    match t
    case ProfitTarget(v) => netProfit == v
    case MarginTarget(v) => p != 0.0 && netProfit == v / 100.0 * p
    case MarkupTarget(v) => costGross != 0.0 && netProfit == MarkupProfit(costGross, v)
  }

  /** The margins of a breakdown are those of its net profit. */
  predicate Coherent(b: ProfitBreakdown, costGross: real, p: real) {
    b.saleMarginPct == Percent(b.netProfit, p) && b.costMarkupPct == Percent(b.netProfit, costGross)
  }

  lemma MeetsIsHit(t: PriceTarget, b: ProfitBreakdown, costGross: real, p: real)
    requires Coherent(b, costGross, p)
    ensures MeetsIn(t, b) <==> Hits(t, costGross, b.netProfit, p)
  {
    match t
    case ProfitTarget(_) =>
    case MarginTarget(v) => if p != 0.0 { PercentMeans(b.netProfit, p, v); }
    case MarkupTarget(v) => if costGross != 0.0 { PercentMeans(b.netProfit, costGross, v); }
  }

  lemma SolveLinear(a: real, b: real, v: real, p: real)
    requires a != 0.0
    ensures a * p + b == v <==> p == (v - b) / a
  {
    var p0 := (v - b) / a;
    assert p0 * a == v - b;
    if a * p + b == v {
      assert a * (p - p0) == 0.0;
    }
  }

  lemma SolveMargin(a: real, b: real, m: real, p: real)
    requires m - a != 0.0
    ensures a * p + b == m * p <==> p == b / (m - a)
  {
    SolveLinear(m - a, 0.0, b, p);
    assert (m - a) * p == m * p - a * p;
  }

  lemma InverseOnLine(t: PriceTarget, a: real, b: real, costGross: real, p: real, u: ProfitBreakdown)
    requires a > 0.0 && PriceOnLine(t, a, b, costGross).Price? && u.netProfit == a * p + b && Coherent(u, costGross, p)
    requires t.MarginTarget? ==> p != 0.0
    ensures MeetsIn(t, u) <==> PriceOnLine(t, a, b, costGross) == Price(p)
  {
    MeetsIsHit(t, u, costGross, p);
    match t
    case ProfitTarget(v) => SolveLinear(a, b, v, p);
    case MarginTarget(v) => SolveMargin(a, b, v / 100.0, p);
    case MarkupTarget(v) => SolveLinear(a, b, MarkupProfit(costGross, v), p);
  }

  /**
   The unrounded solution attains the target exactly (a margin target: unless it lies at
   price zero), and it is the only price that does.
   */
  lemma UnroundedPriceIsTheInverse(e: UnitEconomics, t: PriceTarget, p: real)
    requires Slope(e) > 0.0 && UnroundedPrice(e, t).Price?
    requires t.MarginTarget? ==> p != 0.0
    ensures Meets(e, t, p) <==> UnroundedPrice(e, t) == Price(p)
  {
    ProfitIsAffine(e, p);
    InverseOnLine(t, Slope(e), Intercept(e), e.cost.gross, p, UnitProfit(e, p));
  }

  // ─── Why there is no price ────────────────────────────────────────────

  /** No higher price ever earns more. */
  ghost predicate NeverPaysToRaise(e: UnitEconomics) { forall p, q :: p < q ==> ProfitAt(e, q) <= ProfitAt(e, p) }

  lemma LineFalls(a: real, b: real, p: real, q: real, atP: real, atQ: real)
    requires a <= 0.0 && p < q && atP == a * p + b && atQ == a * q + b
    ensures atQ <= atP
  {
    assert atQ - atP == a * (q - p) && a * (q - p) <= 0.0;
  }

  lemma ProfitFalls(e: UnitEconomics, p: real, q: real)
    requires Slope(e) <= 0.0 && p < q
    ensures ProfitAt(e, q) <= ProfitAt(e, p)
  {
    ProfitIsAffine(e, p);
    ProfitIsAffine(e, q);
    LineFalls(Slope(e), Intercept(e), p, q, ProfitAt(e, p), ProfitAt(e, q));
  }

  lemma FlatIffNeverPays(e: UnitEconomics)
    ensures Slope(e) <= 0.0 <==> NeverPaysToRaise(e)
  {
    if Slope(e) <= 0.0 {
      forall p, q | p < q ensures ProfitAt(e, q) <= ProfitAt(e, p) {
        ProfitFalls(e, p, q);
      }
    } else {
      assert ProfitAt(e, 100.0) > ProfitAt(e, 0.0);
    }
  }

  /**
   The reason given is the true one: the price does not matter exactly when no higher price
   ever earns more; there is no cost exactly when raising the price pays but the markup asked
   for is undefined at every price; and any other refusal is an unreachable target.
   */
  lemma ReasonsAreTrue(e: UnitEconomics, t: PriceTarget)
    ensures var r := SolvePriceForTarget(e, t);
            && (r == NotCalculable(NOT_PRICE_SENSITIVE) <==> NeverPaysToRaise(e))
            && (r == NotCalculable(NO_COST) <==>
                  !NeverPaysToRaise(e) && t.MarkupTarget? && UnitProfit(e, 0.0).costMarkupPct == None)
            && (forall p :: UnitProfit(e, p).costMarkupPct == None <==> UnitProfit(e, 0.0).costMarkupPct == None)
  {
    FlatIffNeverPays(e);
  }

  lemma LineMiss(a: real, b: real, v: real, p0: real, p: real)
    requires a > 0.0 && a * p0 + b == v && -0.005 <= p - p0 <= 0.005
    ensures -a * 0.005 <= a * p + b - v <= a * 0.005
  {
    var d := p - p0;
    assert a * p + b - v == a * d;
    assert a * d <= a * 0.005 && -a * 0.005 <= a * d;
  }

  lemma RoundedMiss(t: PriceTarget, a: real, b: real, costGross: real, p: real, netProfit: real)
    requires t.ProfitTarget? && a > 0.0
    requires p == Round2(PriceOnLine(t, a, b, costGross).price) && netProfit == a * p + b
    ensures -a * 0.005 <= netProfit - t.value <= a * 0.005
  {
    var p0 := (t.value - b) / a;
    SolveLinear(a, b, t.value, p0);
    RoundIsClose(p0);
    LineMiss(a, b, t.value, p0, p);
  }

  /** The returned, rounded price misses a profit target by at most slope times half a cent. */
  lemma RoundedPriceIsClose(e: UnitEconomics, t: PriceTarget)
    requires t.ProfitTarget? && SolvePriceForTarget(e, t).Solved?
    ensures var r := SolvePriceForTarget(e, t);
            && r.price > 0.0 && r.breakdown == UnitProfit(e, r.price)
            && -Slope(e) * 0.005 <= r.breakdown.netProfit - t.value <= Slope(e) * 0.005
  {
    var p := SolvePriceForTarget(e, t).price;
    ProfitIsAffine(e, p);
    RoundedMiss(t, Slope(e), Intercept(e), e.cost.gross, p, ProfitAt(e, p));
  }

  /** An unreachable verdict after solving means the only solution lies below half a cent. */
  lemma RejectedAfterRoundingIsUnsellable(e: UnitEconomics, t: PriceTarget, p: real)
    requires Slope(e) > 0.0 && UnroundedPrice(e, t).Price? && SolvePriceForTarget(e, t).NotCalculable?
    requires p >= 0.005
    ensures !Meets(e, t, p)
  {
    UnroundedPriceIsTheInverse(e, t, p);
    HalfCentRoundsUp(UnroundedPrice(e, t).price);
  }

  /**
   A margin at or above the slope is rejected outright. It really is out of reach exactly
   when the intercept is negative, or zero with a margin above the slope, or positive with
   a margin equal to it; with a positive intercept and a larger margin the rejected target
   is attained by a positive price.
   */
  lemma RejectedMarginReachableIff(e: UnitEconomics, v: real)
    requires Slope(e) > 0.0 && v / 100.0 >= Slope(e)
    ensures SolvePriceForTarget(e, MarginTarget(v)) == NotCalculable(UNREACHABLE_TARGET)
    ensures (exists p :: p > 0.0 && Meets(e, MarginTarget(v), p)) <==>
            (Intercept(e) > 0.0 && v / 100.0 > Slope(e)) || (Intercept(e) == 0.0 && v / 100.0 == Slope(e))
    ensures Intercept(e) < 0.0 ==> forall p :: p > 0.0 ==> !Meets(e, MarginTarget(v), p)
  {
    var quote := (p: real) => UnitProfit(e, p);
    forall p
      ensures quote(p).netProfit == Slope(e) * p + Intercept(e) && Coherent(quote(p), e.cost.gross, p)
    {
      ProfitIsAffine(e, p);
    }
    ReachableOnLine(quote, Slope(e), Intercept(e), e.cost.gross, v);
    assert forall p :: MeetsIn(MarginTarget(v), quote(p)) <==> Meets(e, MarginTarget(v), p);
  }

  lemma Gap(a: real, m: real, p: real)
    requires m >= a && p > 0.0
    ensures (m - a) * p == m * p - a * p && (m - a) * p >= 0.0 && (m - a > 0.0 <==> (m - a) * p > 0.0)
  {
  }

  lemma MarginGap(u: ProfitBreakdown, a: real, b: real, costGross: real, v: real, p: real)
    requires p > 0.0 && v / 100.0 >= a && u.netProfit == a * p + b && Coherent(u, costGross, p)
    ensures MeetsIn(MarginTarget(v), u) <==> (v / 100.0 - a) * p == b
    ensures MeetsIn(MarginTarget(v), u) ==> b >= 0.0 && (v / 100.0 - a > 0.0 <==> b > 0.0)
  {
    MeetsIsHit(MarginTarget(v), u, costGross, p);
    Gap(a, v / 100.0, p);
  }

  lemma PositiveQuotient(b: real, d: real)
    requires b > 0.0 && d > 0.0
    ensures b / d > 0.0
  {
  }

  /** When a line meets the line of a margin at or above its slope, at a positive price. */
  lemma ReachableOnLine(quote: real -> ProfitBreakdown, a: real, b: real, costGross: real, v: real)
    requires v / 100.0 >= a
    requires forall p :: quote(p).netProfit == a * p + b && Coherent(quote(p), costGross, p)
    ensures (exists p :: p > 0.0 && MeetsIn(MarginTarget(v), quote(p))) <==>
            (b > 0.0 && v / 100.0 > a) || (b == 0.0 && v / 100.0 == a)
    ensures b < 0.0 ==> forall p :: p > 0.0 ==> !MeetsIn(MarginTarget(v), quote(p))
  {
    var d := v / 100.0 - a;
    forall p | p > 0.0
      ensures MeetsIn(MarginTarget(v), quote(p)) <==> d * p == b
      ensures MeetsIn(MarginTarget(v), quote(p)) ==> b >= 0.0 && (d > 0.0 <==> b > 0.0)
    {
      MarginGap(quote(p), a, b, costGross, v, p);
    }
    if b > 0.0 && d > 0.0 {
      Cancel(b, d);
      PositiveQuotient(b, d);
      assert MeetsIn(MarginTarget(v), quote(b / d));
    } else if b == 0.0 && d == 0.0 {
      assert MeetsIn(MarginTarget(v), quote(1.0));
    }
  }

  // ─── Quote against realised profit ────────────────────────────────────

  /** The same unit as a realised order of a store that does not count a VAT credit. */
  function RealisedProfit(e: UnitEconomics, price: real): real {
    NetProfit(UnitInput(e, price).(includeNegativeNetVat := false))
  }

  /** The VAT owed per unit of price: that of the sale less that contained in the commission. */
  function VatPerPrice(e: UnitEconomics): real {
    VatShare(e.saleVatRate) - e.commissionRate / 100.0 * VatShare(e.commissionVatRate)
  }

  /** The VAT that cost and fixed fees carry at any price. */
  function InputVat(e: UnitEconomics): real { e.cost.vat + FeesVat(e.fixedFees) }

  lemma NetVatIsAffine(e: UnitEconomics, p: real)
    ensures UnitProfit(e, p).netVat == VatPerPrice(e) * p - InputVat(e)
  {
    var v, w, q := VatShare(e.saleVatRate), VatShare(e.commissionVatRate), e.commissionRate / 100.0;
    var i := UnitInput(e, p);
    VatIsAShare(p, e.saleVatRate);
    VatIsAShare(i.commission.gross, e.commissionVatRate);
    assert i.commission.gross == p * q;
    assert p * v - p * q * w == (v - q * w) * p;
  }

  /**
   The unclamped quote equals the realised profit exactly when the VAT owed at the price
   covers the VAT contained in cost and fixed fees, and it never undercuts it.
   */
  lemma QuoteIsRealisedIff(e: UnitEconomics, price: real)
    ensures ProfitAt(e, price) == RealisedProfit(e, price) <==> VatPerPrice(e) * price >= InputVat(e)
    ensures RealisedProfit(e, price) <= ProfitAt(e, price)
  {
    NetVatIsAffine(e, price);
  }

  /** The same condition on the rates, the costs and the target alone, for a line and its VAT line. */
  predicate CoversOnLine(t: PriceTarget, vatPerPrice: real, inputVat: real, slope: real, intercept: real, costGross: real) {
    match t
    case ProfitTarget(v) => vatPerPrice * (v - intercept) >= inputVat * slope
    case MarginTarget(v) => vatPerPrice * -intercept >= inputVat * (slope - v / 100.0)
    case MarkupTarget(v) => vatPerPrice * (MarkupProfit(costGross, v) - intercept) >= inputVat * slope
  }

  predicate TargetCoversInputVat(e: UnitEconomics, t: PriceTarget) {
    CoversOnLine(t, VatPerPrice(e), InputVat(e), Slope(e), Intercept(e), e.cost.gross)
  }

  lemma ProductSign(a: real, d: real)
    requires d > 0.0
    ensures a * d >= 0.0 <==> a >= 0.0
  {
  }

  /** Clearing a positive denominator. */
  lemma CoversAtQuotient(u: real, k: real, x: real, d: real, p: real)
    requires d > 0.0 && p == x / d
    ensures u * p >= k <==> u * x >= k * d
  {
    assert p * d == x;
    assert u * x - k * d == (u * p - k) * d;
    ProductSign(u * p - k, d);
  }

  lemma CoversAtMargin(u: real, k: real, b: real, m: real, a: real, p: real)
    requires m - a < 0.0 && p == b / (m - a)
    ensures u * p >= k <==> u * -b >= k * (a - m)
  {
    var d := a - m;
    assert p * (m - a) == b;
    assert p * d == -b;
    assert u * -b - k * d == (u * p - k) * d;
    ProductSign(u * p - k, d);
  }

  lemma CoversOnLineIff(t: PriceTarget, u: real, k: real, a: real, b: real, costGross: real, p: real)
    requires a > 0.0 && PriceOnLine(t, a, b, costGross) == Price(p)
    ensures u * p >= k <==> CoversOnLine(t, u, k, a, b, costGross)
  {
    match t
    case ProfitTarget(v) => CoversAtQuotient(u, k, v - b, a, p);
    case MarginTarget(v) => CoversAtMargin(u, k, b, v / 100.0, a, p);
    case MarkupTarget(v) => CoversAtQuotient(u, k, MarkupProfit(costGross, v) - b, a, p);
  }

  /** At the unrounded solution of any target, quote and realised profit agree exactly under that condition. */
  lemma SolutionIsRealisedIff(e: UnitEconomics, t: PriceTarget, p: real)
    requires Slope(e) > 0.0 && UnroundedPrice(e, t) == Price(p)
    ensures ProfitAt(e, p) == RealisedProfit(e, p) <==> TargetCoversInputVat(e, t)
  {
    QuoteIsRealisedIff(e, p);
    CoversOnLineIff(t, VatPerPrice(e), InputVat(e), Slope(e), Intercept(e), e.cost.gross, p);
  }

  /** The order realises the profit that was quoted. */
  predicate Realises(e: UnitEconomics, quote: ProfitBreakdown, price: real) { quote.netProfit == RealisedProfit(e, price) }

  /** The VAT the price brings covers the VAT contained in cost and fixed fees. */
  predicate CoversInputVat(e: UnitEconomics, price: real) { VatPerPrice(e) * price >= InputVat(e) }

  /** What the solver returns for a target with an unrounded solution that does not round to nothing. */
  lemma SolvedAtRounded(e: UnitEconomics, t: PriceTarget, p: real)
    requires Slope(e) > 0.0 && UnroundedPrice(e, t) == Price(p) && Round2(p) > 0.0
    ensures SolvePriceForTarget(e, t) == Solved(Round2(p), UnitProfit(e, Round2(p)))
  {
  }

  lemma BreakdownIsRealisedIff(e: UnitEconomics, b: ProfitBreakdown, price: real)
    requires b == UnitProfit(e, price)
    ensures Realises(e, b, price) <==> CoversInputVat(e, price)
  {
    QuoteIsRealisedIff(e, price);
  }

  /** The returned quote is realised exactly when the unrounded solution, rounded to cents, covers the input VAT. */
  lemma SolvedQuoteIsRealisedIff(e: UnitEconomics, t: PriceTarget, p: real)
    requires Slope(e) > 0.0 && UnroundedPrice(e, t) == Price(p) && Round2(p) > 0.0
    ensures var r := SolvePriceForTarget(e, t);
            r.Solved? && r.price == Round2(p) && (Realises(e, r.breakdown, r.price) <==> CoversInputVat(e, Round2(p)))
  {
    SolvedAtRounded(e, t, p);
    BreakdownIsRealisedIff(e, UnitProfit(e, Round2(p)), Round2(p));
  }

  // ─── When the remark does hold ────────────────────────────────────────

  /** Sale, commission, cost and the fixed fees together carry VAT at one rate. */
  predicate OneVatRate(e: UnitEconomics, rate: Rate) {
    && e.saleVatRate == rate && e.commissionVatRate == rate
    && e.cost.vat == GrossToVat(e.cost.gross, rate)
    && FeesVat(e.fixedFees) == GrossToVat(FeesGross(e.fixedFees), rate)
  }

  lemma ShareOfSum(x: real, y: real, v: real)
    ensures (x + y) * v == x * v + y * v
  {
  }

  /** Fees that each carry VAT at the rate do so together. */
  lemma {:induction false} FeesVatAtOneRate(fees: seq<InputFee>, rate: Rate)
    requires forall i :: 0 <= i < |fees| ==> fees[i].vat == GrossToVat(fees[i].gross, rate)
    ensures FeesVat(fees) == GrossToVat(FeesGross(fees), rate)
  {
    VatIsAShare(FeesGross(fees), rate);
    if fees == [] {
      assert FeesGross(fees) == 0.0;
    } else {
      var pre, f := fees[..|fees| - 1], fees[|fees| - 1];
      FeesVatAtOneRate(pre, rate);
      VatIsAShare(FeesGross(pre), rate);
      VatIsAShare(f.gross, rate);
      ShareOfSum(FeesGross(pre), f.gross, VatShare(rate));
      ShareOfSum(FeesGross(pre), -f.gross, VatShare(rate));
    }
  }

  lemma ShareOfRest(p: real, c: real, g: real, f: real, v: real)
    ensures p * v - c * v - g * v - f * v == (p - c - g - f) * v
  {
  }

  lemma NonNegativeProduct(x: real, y: real)
    requires x >= 0.0 && y >= 0.0
    ensures x * y >= 0.0
  {
  }

  /** What the engine has left before withholding and VAT. */
  function LeftBeforeTaxes(i: ProfitInput): real { i.sale.gross - i.cost.gross - i.commission.gross - FeesGross(i.fees) }

  /** Every term of the engine's input carries the same VAT share. */
  predicate OneShare(i: ProfitInput, v: real) {
    && i.sale.vat == i.sale.gross * v && i.cost.vat == i.cost.gross * v
    && i.commission.vat == i.commission.gross * v && FeesVat(i.fees) == FeesGross(i.fees) * v
  }

  lemma NetVatOfOneShare(i: ProfitInput, v: real)
    requires OneShare(i, v)
    ensures RawNetVat(i) == LeftBeforeTaxes(i) * v
  {
    ShareOfRest(i.sale.gross, i.cost.gross, i.commission.gross, FeesGross(i.fees), v);
  }

  lemma NoLossMeansSomethingLeft(left: real, v: real, withheld: real)
    requires 0.0 <= v < 1.0 && withheld >= 0.0 && left - withheld - left * v >= 0.0
    ensures left * v >= 0.0
  {
    assert left - left * v == left * (1.0 - v);
    ProductSign(left, 1.0 - v);
    NonNegativeProduct(left, v);
  }

  lemma NoLossNoCreditOfInput(i: ProfitInput, v: real)
    requires OneShare(i, v) && 0.0 <= v < 1.0 && i.stoppage >= 0.0 && i.includeNegativeNetVat && NetProfit(i) >= 0.0
    ensures NetVat(i) >= 0.0
  {
    NetVatOfOneShare(i, v);
    NoLossMeansSomethingLeft(LeftBeforeTaxes(i), v, i.stoppage);
  }

  lemma UnitHasOneShare(e: UnitEconomics, p: real, rate: Rate)
    requires OneVatRate(e, rate)
    ensures OneShare(UnitInput(e, p), VatShare(rate))
  {
    VatIsAShare(p, rate);
    VatIsAShare(p * e.commissionRate / 100.0, rate);
    VatIsAShare(e.cost.gross, rate);
    VatIsAShare(FeesGross(e.fixedFees), rate);
  }

  lemma WithholdingIsNonNegative(p: real, rate: Rate, s: real)
    requires p >= 0.0 && s >= 0.0
    ensures (p - GrossToVat(p, rate)) * s >= 0.0
  {
    VatIsAShare(p, rate);
    NonNegativeProduct(p, 1.0 - VatShare(rate));
    assert p - p * VatShare(rate) == p * (1.0 - VatShare(rate));
    NonNegativeProduct(p - GrossToVat(p, rate), s);
  }

  /**
   With one VAT rate throughout and no negative withholding, a price at which the unit does
   not lose money never has negative net VAT.
   */
  lemma NoLossNoCredit(e: UnitEconomics, price: real, rate: Rate)
    requires OneVatRate(e, rate) && e.stoppageRate >= 0.0 && price >= 0.0 && ProfitAt(e, price) >= 0.0
    ensures UnitProfit(e, price).netVat >= 0.0
  {
    UnitHasOneShare(e, price, rate);
    WithholdingIsNonNegative(price, rate, e.stoppageRate);
    VatIsAShare(price, rate);
    NoLossNoCreditOfInput(UnitInput(e, price), VatShare(rate));
  }

  /** A target that asks for no loss. */
  predicate NonNegativeTarget(e: UnitEconomics, t: PriceTarget) {
    t.value >= 0.0 && (t.MarkupTarget? ==> e.cost.gross >= 0.0)
  }

  lemma NoLossAtTarget(t: PriceTarget, b: ProfitBreakdown, costGross: real, p: real)
    requires Coherent(b, costGross, p) && MeetsIn(t, b)
    requires p > 0.0 && t.value >= 0.0 && (t.MarkupTarget? ==> costGross >= 0.0)
    ensures b.netProfit >= 0.0
  {
    MeetsIsHit(t, b, costGross, p);
  }

  /**
   Where net VAT is positive at the solution as remarked: with one VAT rate, a target and a
   withholding rate that are not negative, the positive solution never has negative net VAT,
   so quote and realised profit agree.
   */
  lemma RemarkHoldsAtOneRate(e: UnitEconomics, t: PriceTarget, p: real, rate: Rate)
    requires Slope(e) > 0.0 && UnroundedPrice(e, t) == Price(p) && p > 0.0
    requires OneVatRate(e, rate) && e.stoppageRate >= 0.0 && NonNegativeTarget(e, t)
    ensures UnitProfit(e, p).netVat >= 0.0 && ProfitAt(e, p) == RealisedProfit(e, p)
  {
    UnroundedPriceIsTheInverse(e, t, p);
    NoLossAtTarget(t, UnitProfit(e, p), e.cost.gross, p);
    NoLossNoCredit(e, p, rate);
  }

  /** Sold at 1% VAT, bought at 20%: cost 120 including 20 VAT, no other terms. */
  const MIXED_RATES: UnitEconomics := UnitEconomics(1.0, MoneyPair(120.0, 20.0), 0.0, 20.0, 0.0, [])

  lemma MixedRatesLine(p: real)
    ensures ProfitAt(MIXED_RATES, p) == 100.0 / 101.0 * p - 100.0
    ensures UnitProfit(MIXED_RATES, p).netVat == p / 101.0 - 20.0
  {
    ProfitWrittenOut(MIXED_RATES, p);
    VatIsAShare(p, 1.0);
  }

  lemma MixedRatesSlope()
    ensures Slope(MIXED_RATES) > 0.0
  {
    MixedRatesLine(0.0);
    MixedRatesLine(100.0);
  }

  /** A positive whole-cent price that meets the target is what the solver returns. */
  lemma WholeCentSolution(e: UnitEconomics, v: real, cents: int)
    requires Slope(e) > 0.0 && cents > 0 && ProfitAt(e, cents as real / 100.0) == v
    ensures var p := cents as real / 100.0;
            SolvePriceForTarget(e, ProfitTarget(v)) == Solved(p, UnitProfit(e, p))
  {
    UnroundedPriceIsTheInverse(e, ProfitTarget(v), cents as real / 100.0);
    CentsAreExact(cents);
  }

  /** A solved price whose net VAT is a credit: the quote meets the target, the order realises less. */
  lemma SolvedOnACredit(e: UnitEconomics, v: real, cents: int)
    requires Slope(e) > 0.0 && cents > 0 && ProfitAt(e, cents as real / 100.0) == v
    requires UnitProfit(e, cents as real / 100.0).netVat < 0.0
    ensures var r := SolvePriceForTarget(e, ProfitTarget(v));
            && r.Solved? && r.price > 0.0 && r.breakdown.netVat < 0.0 && RealisedProfit(e, r.price) < v
  {
    WholeCentSolution(e, v, cents);
    QuoteIsRealisedIff(e, cents as real / 100.0);
  }

  /** With mixed VAT rates such a price exists: net VAT is not always positive at the solution. */
  lemma SolvedPriceCanHaveNegativeNetVat()
    ensures var r := SolvePriceForTarget(MIXED_RATES, ProfitTarget(10.0));
            && r.Solved? && r.price > 0.0 && r.breakdown.netVat < 0.0 && RealisedProfit(MIXED_RATES, r.price) < 10.0
  {
    MixedRatesLine(11110 as real / 100.0);
    MixedRatesSlope();
    SolvedOnACredit(MIXED_RATES, 10.0, 11110);
  }
}
