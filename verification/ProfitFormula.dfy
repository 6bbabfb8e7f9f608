/** The canonical profit engine: gross and VAT terms in, net VAT and net profit out. */
module ProfitFormula {
  import opened Options
  import opened Money

  datatype Direction = DEBIT | CREDIT

  datatype FeeKind = SHIPPING | PLATFORM_SERVICE | INTERNATIONAL_SERVICE | OVERSEAS_RETURN_OPERATION

  datatype MoneyPair = MoneyPair(gross: real, vat: real)

  datatype InputFee = InputFee(kind: FeeKind, gross: real, vat: real, direction: Direction)

  datatype ProfitInput = ProfitInput(
    sale: MoneyPair,
    cost: MoneyPair,
    commission: MoneyPair,
    fees: seq<InputFee>,
    stoppage: real,
    includeNegativeNetVat: bool)

  datatype ProfitBreakdown = ProfitBreakdown(
    sale: MoneyPair,
    cost: MoneyPair,
    commission: MoneyPair,
    shipping: MoneyPair,
    platformService: MoneyPair,
    stoppage: real,
    netVat: real,
    netProfit: real,
    saleMarginPct: Option<real>,
    costMarkupPct: Option<real>)

  /** A debit counts up, a credit counts down. */
  function Directed(d: Direction, x: real): real { if d == DEBIT then x else -x }

  /** Debits minus credits. */
  function FeesGross(fees: seq<InputFee>): real {
    if fees == [] then 0.0 else FeesGross(fees[..|fees| - 1]) + Directed(fees[|fees| - 1].direction, fees[|fees| - 1].gross)
  }

  function FeesVat(fees: seq<InputFee>): real {
    if fees == [] then 0.0 else FeesVat(fees[..|fees| - 1]) + Directed(fees[|fees| - 1].direction, fees[|fees| - 1].vat)
  }

  /** The display bucket of one kind ignores direction. */
  function Bucket(fees: seq<InputFee>, kind: FeeKind): MoneyPair {
    if fees == [] then MoneyPair(0.0, 0.0)
    else
      var rest, f := Bucket(fees[..|fees| - 1], kind), fees[|fees| - 1];
      if f.kind == kind then MoneyPair(rest.gross + f.gross, rest.vat + f.vat) else rest
  }

  /** VAT owed: sale VAT less the VAT contained in cost, commission and fees; withholding carries none. */
  function RawNetVat(i: ProfitInput): real { i.sale.vat - i.cost.vat - i.commission.vat - FeesVat(i.fees) }

  function NetVat(i: ProfitInput): real {
    if i.includeNegativeNetVat || RawNetVat(i) >= 0.0 then RawNetVat(i) else 0.0
  }

  function NetProfit(i: ProfitInput): real {
    i.sale.gross - i.cost.gross - i.commission.gross - FeesGross(i.fees) - i.stoppage - NetVat(i)
  }

  function Percent(part: real, whole: real): Option<real> { if whole == 0.0 then None else Some(part / whole * 100.0) }

  function Profit(i: ProfitInput): ProfitBreakdown {
    ProfitBreakdown(i.sale, i.cost, i.commission, Bucket(i.fees, SHIPPING), Bucket(i.fees, PLATFORM_SERVICE),
                    i.stoppage, NetVat(i), NetProfit(i),
                    Percent(NetProfit(i), i.sale.gross), Percent(NetProfit(i), i.cost.gross))
  }

  /** One pass over the fees with a running total per direction and per bucket. */
  method ComputeProfit(i: ProfitInput) returns (b: ProfitBreakdown)
    ensures b == Profit(i)
  {
    var shipping, platformService := MoneyPair(0.0, 0.0), MoneyPair(0.0, 0.0);
    var debitGross, debitVat, creditGross, creditVat := 0.0, 0.0, 0.0, 0.0;
    for k := 0 to |i.fees|
      invariant shipping == Bucket(i.fees[..k], SHIPPING)
      invariant platformService == Bucket(i.fees[..k], PLATFORM_SERVICE)
      invariant debitGross - creditGross == FeesGross(i.fees[..k])
      invariant debitVat - creditVat == FeesVat(i.fees[..k])
    {
      var fee := i.fees[k];
      assert i.fees[..k + 1][..k] == i.fees[..k];
      if fee.kind == SHIPPING {
        shipping := MoneyPair(shipping.gross + fee.gross, shipping.vat + fee.vat);
      } else if fee.kind == PLATFORM_SERVICE {
        platformService := MoneyPair(platformService.gross + fee.gross, platformService.vat + fee.vat);
      }
      if fee.direction == DEBIT {
        debitGross, debitVat := debitGross + fee.gross, debitVat + fee.vat;
      } else {
        creditGross, creditVat := creditGross + fee.gross, creditVat + fee.vat;
      }
    }
    assert i.fees[..|i.fees|] == i.fees;
    var netVat := i.sale.vat - i.cost.vat - i.commission.vat - debitVat + creditVat;
    var effective := if i.includeNegativeNetVat then netVat else if netVat > 0.0 then netVat else 0.0;
    var netProfit := i.sale.gross - i.cost.gross - i.commission.gross - debitGross + creditGross - i.stoppage - effective;
    b := ProfitBreakdown(i.sale, i.cost, i.commission, shipping, platformService, i.stoppage, effective, netProfit,
                         Percent(netProfit, i.sale.gross), Percent(netProfit, i.cost.gross));
  }

  lemma {:induction false} FeesConcat(a: seq<InputFee>, b: seq<InputFee>)
    ensures FeesGross(a + b) == FeesGross(a) + FeesGross(b)
    ensures FeesVat(a + b) == FeesVat(a) + FeesVat(b)
  {
    if b == [] {
      assert a + b == a;
    } else {
      assert (a + b)[..|a + b| - 1] == a + b[..|b| - 1];
      FeesConcat(a, b[..|b| - 1]);
    }
  }
}
