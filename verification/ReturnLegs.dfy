/**
 Order-fee rows, the resolution of the five return legs (actual rows win over estimates,
 per leg), and the folding of those legs into the engine's input.
 */
module ReturnLegs {
  import opened Options
  import opened Money
  import opened ProfitFormula

  datatype ReturnLeg = REFUND_DEDUCTION | COMMISSION_REFUND | COST_RETURN | RETURN_SHIPPING | STOPPAGE_REFUND

  /** A fee is a forward charge, the withholding, a return leg, or a kind the engine ignores. */
  datatype FeeType = Forward(kind: FeeKind) | Stoppage | Return(leg: ReturnLeg) | OtherFee

  /** MANUAL stands for hand-entered and overridden rows alike: the engine counts neither. */
  datatype Source = ESTIMATE | SETTLEMENT | CARGO_INVOICE | MANUAL

  datatype FeeRow = FeeRow(
    feeType: FeeType,
    source: Source,
    direction: Direction,
    amountGross: real,
    vatRate: Rate,
    confirmed: bool)

  predicate Actual(s: Source) { s == SETTLEMENT || s == CARGO_INVOICE }

  predicate HasActual(rows: seq<FeeRow>, leg: ReturnLeg) {
    exists i :: 0 <= i < |rows| && rows[i].feeType == Return(leg) && Actual(rows[i].source)
  }

  /** The rows that count for a leg: the actual ones if there is any, else the estimates. */
  predicate Counts(r: FeeRow, leg: ReturnLeg, actual: bool) {
    r.feeType == Return(leg) && (if actual then Actual(r.source) else r.source == ESTIMATE)
  }

  function VatOf(r: FeeRow): real { GrossToVat(r.amountGross, r.vatRate) }

  function SumCounting(rows: seq<FeeRow>, leg: ReturnLeg, actual: bool): MoneyPair {
    if rows == [] then MoneyPair(0.0, 0.0)
    else
      var rest, r := SumCounting(rows[..|rows| - 1], leg, actual), rows[|rows| - 1];
      if Counts(r, leg, actual) then MoneyPair(rest.gross + r.amountGross, rest.vat + VatOf(r)) else rest
  }

  function LegOf(rows: seq<FeeRow>, leg: ReturnLeg): MoneyPair { SumCounting(rows, leg, HasActual(rows, leg)) }

  /** One leg, in two passes: is there an actual row, then sum the rows that count. */
  method ResolveLeg(rows: seq<FeeRow>, leg: ReturnLeg) returns (sum: MoneyPair)
    ensures sum == LegOf(rows, leg)
  {
    var hasActual := false;
    for i := 0 to |rows|
      invariant hasActual <==> exists j :: 0 <= j < i && rows[j].feeType == Return(leg) && Actual(rows[j].source)
    {
      if rows[i].feeType == Return(leg) && Actual(rows[i].source) { hasActual := true; }
    }
    sum := MoneyPair(0.0, 0.0);
    for i := 0 to |rows|
      invariant sum == SumCounting(rows[..i], leg, hasActual)
    {
      assert rows[..i + 1][..i] == rows[..i];
      if Counts(rows[i], leg, hasActual) {
        sum := MoneyPair(sum.gross + rows[i].amountGross, sum.vat + VatOf(rows[i]));
      }
    }
    assert rows[..|rows|] == rows;
  }

  /** Drop the estimates of one leg. */
  function WithoutEstimates(rows: seq<FeeRow>, leg: ReturnLeg): seq<FeeRow> {
    if rows == [] then []
    else
      var rest, r := WithoutEstimates(rows[..|rows| - 1], leg), rows[|rows| - 1];
      if r.feeType == Return(leg) && r.source == ESTIMATE then rest else rest + [r]
  }

  lemma {:induction false} ActualSumIgnoresEstimates(rows: seq<FeeRow>, leg: ReturnLeg)
    ensures SumCounting(rows, leg, true) == SumCounting(WithoutEstimates(rows, leg), leg, true)
  {
    if rows != [] {
      var pre, r := rows[..|rows| - 1], rows[|rows| - 1];
      var rest := WithoutEstimates(pre, leg);
      ActualSumIgnoresEstimates(pre, leg);
      assert (rest + [r])[..|rest|] == rest;
    }
  }

  lemma {:induction false} ActualRowsSurvive(rows: seq<FeeRow>, leg: ReturnLeg, r: FeeRow)
    requires r.source != ESTIMATE
    ensures r in WithoutEstimates(rows, leg) <==> r in rows
  {
    if rows != [] {
      var pre, last := rows[..|rows| - 1], rows[|rows| - 1];
      ActualRowsSurvive(pre, leg, r);
      assert rows == pre + [last];
    }
  }

  lemma HasActualIgnoresEstimates(rows: seq<FeeRow>, leg: ReturnLeg)
    ensures HasActual(rows, leg) <==> HasActual(WithoutEstimates(rows, leg), leg)
  {
    forall r: FeeRow | r.source != ESTIMATE
      ensures r in WithoutEstimates(rows, leg) <==> r in rows
    {
      ActualRowsSurvive(rows, leg, r);
    }
    var left := WithoutEstimates(rows, leg);
    if i :| 0 <= i < |rows| && rows[i].feeType == Return(leg) && Actual(rows[i].source) { assert rows[i] in left; }
    if i :| 0 <= i < |left| && left[i].feeType == Return(leg) && Actual(left[i].source) { assert left[i] in rows; }
  }

  /** Once a leg has an actual row, its estimate rows are irrelevant: rows that differ only in them resolve alike. */
  lemma ActualMakesEstimatesIrrelevant(rows: seq<FeeRow>, rows': seq<FeeRow>, leg: ReturnLeg)
    requires HasActual(rows, leg) && WithoutEstimates(rows, leg) == WithoutEstimates(rows', leg)
    ensures LegOf(rows, leg) == LegOf(rows', leg)
  {
    ActualSumIgnoresEstimates(rows, leg);
    ActualSumIgnoresEstimates(rows', leg);
    HasActualIgnoresEstimates(rows, leg);
    HasActualIgnoresEstimates(rows', leg);
  }

  function Less(a: MoneyPair, b: MoneyPair): MoneyPair { MoneyPair(a.gross - b.gross, a.vat - b.vat) }

  function StoppageLeft(stoppage: real, refund: real): real { if stoppage - refund > 0.0 then stoppage - refund else 0.0 }

  /** Plain subtraction, never clamped, except that withholding cannot turn negative. */
  function Fold(base: ProfitInput, rows: seq<FeeRow>): ProfitInput {
    var shipping := LegOf(rows, RETURN_SHIPPING);
    ProfitInput(
      Less(base.sale, LegOf(rows, REFUND_DEDUCTION)),
      Less(base.cost, LegOf(rows, COST_RETURN)),
      Less(base.commission, LegOf(rows, COMMISSION_REFUND)),
      if shipping.gross == 0.0 then base.fees else base.fees + [InputFee(SHIPPING, shipping.gross, shipping.vat, DEBIT)],
      StoppageLeft(base.stoppage, LegOf(rows, STOPPAGE_REFUND).gross),
      base.includeNegativeNetVat)
  }

  /** The lists read every row that is not actual as an estimate, hand-entered rows too. */
  function Listed(rows: seq<FeeRow>): (listed: seq<FeeRow>)
    ensures |listed| == |rows|
    ensures forall i :: 0 <= i < |rows| ==> listed[i] == if Actual(rows[i].source) then rows[i] else rows[i].(source := ESTIMATE)
  {
    if rows == [] then []
    else
      var r := rows[|rows| - 1];
      Listed(rows[..|rows| - 1]) + [if Actual(r.source) then r else r.(source := ESTIMATE)]
  }

  /** The net sale shown in lists: the sale less the resolved refund deduction. */
  function NetSaleGross(saleGross: real, rows: seq<FeeRow>): real {
    saleGross - LegOf(Listed(rows), REFUND_DEDUCTION).gross
  }

  /** Hand-entered rows of a leg, which the engine and the breakdown leave out. */
  function ManualGross(rows: seq<FeeRow>, leg: ReturnLeg): real {
    if rows == [] then 0.0
    else
      var r := rows[|rows| - 1];
      ManualGross(rows[..|rows| - 1], leg) + if r.feeType == Return(leg) && r.source == MANUAL then r.amountGross else 0.0
  }

  lemma {:induction false} ListedSum(rows: seq<FeeRow>, leg: ReturnLeg, actual: bool)
    ensures SumCounting(Listed(rows), leg, actual).gross
         == SumCounting(rows, leg, actual).gross + if actual then 0.0 else ManualGross(rows, leg)
  {
    if rows == [] {
      assert Listed(rows) == [];
    } else {
      ListedSum(rows[..|rows| - 1], leg, actual);
      assert Listed(rows)[..|rows| - 1] == Listed(rows[..|rows| - 1]);
    }
  }

  /** The listed leg exceeds the engine's by the hand-entered rows, unless an actual row settles the leg. */
  lemma ListedLeg(rows: seq<FeeRow>, leg: ReturnLeg)
    ensures LegOf(Listed(rows), leg).gross == LegOf(rows, leg).gross + if HasActual(rows, leg) then 0.0 else ManualGross(rows, leg)
  {
    ListedSum(rows, leg, HasActual(rows, leg));
    var listed := Listed(rows);
    if i :| 0 <= i < |rows| && rows[i].feeType == Return(leg) && Actual(rows[i].source) { assert listed[i] == rows[i]; }
    if i :| 0 <= i < |listed| && listed[i].feeType == Return(leg) && Actual(listed[i].source) { assert listed[i] == rows[i]; }
  }

  lemma {:induction false} NonNegativeLegs(rows: seq<FeeRow>, leg: ReturnLeg, actual: bool)
    requires forall i :: 0 <= i < |rows| ==> rows[i].amountGross >= 0.0
    ensures SumCounting(rows, leg, actual).gross >= 0.0
    ensures SumCounting(rows, leg, actual).gross == 0.0 ==> SumCounting(rows, leg, actual).vat == 0.0
  {
    if rows != [] { NonNegativeLegs(rows[..|rows| - 1], leg, actual); }
  }
}
