/** Exact decimal money: VAT contained in a gross amount, and half-up rounding to cents. */
module Money {
  /** A VAT percentage; the schema keeps it non-negative. */
  type Rate = r: real | r >= 0.0

  function GrossToVat(gross: real, ratePct: Rate): real { gross * ratePct / (100.0 + ratePct) }

  /** The share of a gross amount that is VAT. */
  function VatShare(ratePct: Rate): real { ratePct / (100.0 + ratePct) }

  lemma VatIsAShare(gross: real, ratePct: Rate)
    ensures GrossToVat(gross, ratePct) == gross * VatShare(ratePct)
    ensures 0.0 <= VatShare(ratePct) < 1.0
  {
  }

  /** The part of an amount that a rate, as a fraction, takes. */
  function Part(base: real, rate: real): real { base * rate }

  function HalfUp(x: real): real
    requires x >= 0.0
  {
    (x * 100.0 + 0.5).Floor as real / 100.0
  }

  /** toDecimalPlaces(2): half away from zero. */
  function Round2(x: real): real { if x >= 0.0 then HalfUp(x) else -HalfUp(-x) }

  lemma HalfUpIsClose(x: real)
    requires x >= 0.0
    ensures -0.005 <= HalfUp(x) - x <= 0.005
  {
    var f := (x * 100.0 + 0.5).Floor as real;
    assert f <= x * 100.0 + 0.5 < f + 1.0;
  }

  lemma RoundIsClose(x: real)
    ensures -0.005 <= Round2(x) - x <= 0.005
  {
    HalfUpIsClose(if x >= 0.0 then x else -x);
  }

  lemma FloorOfHalf(n: int)
    ensures (n as real + 0.5).Floor == n
  {
  }

  /** A whole number of cents is left alone. */
  lemma CentsAreExact(cents: int)
    ensures Round2(cents as real / 100.0) == cents as real / 100.0
  {
    FloorOfHalf(cents);
    FloorOfHalf(-cents);
    var x := cents as real / 100.0;
    assert x * 100.0 == cents as real && -x * 100.0 == (-cents) as real;
  }

  /** Half a cent and more never rounds to nothing. */
  lemma HalfCentRoundsUp(x: real)
    ensures x >= 0.005 ==> Round2(x) >= 0.01
  {
    if x >= 0.005 { assert (x * 100.0 + 0.5).Floor >= 1; }
  }
}
