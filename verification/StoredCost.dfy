/**
 What the two cost-snapshot implementations actually store. Both round the total to cents
 and the rate to two decimals; intake takes its rate from the rounded total, the API rounds
 every component first. This module compares the stored values.
 */
module StoredCost {
  import opened Options
  import opened Money
  import opened CostSnapshot

  // ─── Rounding ─────────────────────────────────────────────────────────

  predicate RoundsTo(x: real, cents: int) { cents as real - 0.5 <= x * 100.0 < cents as real + 0.5 }

  lemma FloorIs(x: real, n: int)
    requires n as real <= x < n as real + 1.0
    ensures x.Floor == n
  {
  }

  /** Which cents a non-negative amount is rounded to. */
  lemma RoundedIs(x: real, cents: int)
    requires x >= 0.0
    ensures Round2(x) == cents as real / 100.0 <==> RoundsTo(x, cents)
  {
    var f := (x * 100.0 + 0.5).Floor;
    assert f as real <= x * 100.0 + 0.5 < f as real + 1.0;
    if RoundsTo(x, cents) { FloorIs(x * 100.0 + 0.5, cents); }
  }

  lemma RoundIsMonotone(x: real, y: real)
    requires 0.0 <= x <= y
    ensures 0.0 <= Round2(x) <= Round2(y)
  {
    assert 0 <= (x * 100.0 + 0.5).Floor <= (y * 100.0 + 0.5).Floor;
  }

  predicate WholeCents(x: real) { (x * 100.0).Floor as real == x * 100.0 }

  lemma RoundedIsWhole(x: real)
    requires x >= 0.0
    ensures WholeCents(Round2(x))
  {
    var f := (x * 100.0 + 0.5).Floor;
    assert Round2(x) * 100.0 == f as real;
  }

  lemma WholeStays(x: real)
    requires WholeCents(x)
    ensures Round2(x) == x
  {
    CentsAreExact((x * 100.0).Floor);
  }

  lemma WholeSum(x: real, y: real)
    requires WholeCents(x) && WholeCents(y)
    ensures WholeCents(x + y)
  {
    FloorIs((x + y) * 100.0, (x * 100.0).Floor + (y * 100.0).Floor);
  }

  lemma {:induction false} WholeGross(cs: seq<Component>)
    requires forall i :: 0 <= i < |cs| ==> WholeCents(cs[i].gross)
    ensures WholeCents(Gross(cs))
  {
    if cs == [] {
      assert Gross(cs) == 0.0;
    } else {
      WholeGross(cs[..|cs| - 1]);
      WholeSum(Gross(cs[..|cs| - 1]), cs[|cs| - 1].gross);
    }
  }

  // ─── The two lists of components ──────────────────────────────────────

  /** The API's components are intake's, each rounded to cents. */
  predicate Rounded(raw: seq<Component>, rounded: seq<Component>) {
    && |rounded| == |raw|
    && forall i :: 0 <= i < |raw| ==> rounded[i].rate == raw[i].rate && rounded[i].gross == Round2(raw[i].gross)
  }

  lemma {:induction false} ApiRoundsComponents(ps: seq<Profile>)
    ensures Components(ps, false).Some? <==> Components(ps, true).Some?
    ensures Components(ps, false).Some? ==> Rounded(Components(ps, false).value, Components(ps, true).value)
  {
    if ps != [] { ApiRoundsComponents(ps[..|ps| - 1]); }
  }

  lemma {:induction false} GrossDrift(raw: seq<Component>, rounded: seq<Component>)
    requires Rounded(raw, rounded)
    ensures -0.005 * |raw| as real <= Gross(rounded) - Gross(raw) <= 0.005 * |raw| as real
  {
    if raw == [] {
      assert Gross(raw) == 0.0 && Gross(rounded) == 0.0;
    } else {
      var n := |raw| - 1;
      GrossDrift(raw[..n], rounded[..n]);
      RoundIsClose(raw[n].gross);
    }
  }

  lemma RoundedGrossIsWhole(raw: seq<Component>, rounded: seq<Component>)
    requires Rounded(raw, rounded)
    ensures Round2(Gross(rounded)) == Gross(rounded)
  {
    forall i | 0 <= i < |rounded|
      ensures WholeCents(rounded[i].gross)
    {
      RoundedIsWhole(raw[i].gross);
    }
    WholeGross(rounded);
    WholeStays(Gross(rounded));
  }

  /** The stored totals differ by at most half a cent for each component and one more. */
  lemma StoredTotalsAreClose(raw: seq<Component>, rounded: seq<Component>)
    requires Rounded(raw, rounded)
    ensures -0.005 * (|raw| + 1) as real <= MeanSnapshot(rounded).gross - BlendedSnapshot(raw).gross <= 0.005 * (|raw| + 1) as real
  {
    GrossDrift(raw, rounded);
    RoundedGrossIsWhole(raw, rounded);
    RoundIsClose(Gross(raw));
  }

  // ─── Intake's stored rate ─────────────────────────────────────────────

  lemma DriftOf(stored: real, g: real, n: real)
    requires n > 0.0 && -0.005 <= stored - g <= 0.005
    ensures -0.5 / n <= (stored - n) / n * 100.0 - (g - n) / n * 100.0 <= 0.5 / n
  {
    var x, y, z := (stored - n) / n, (g - n) / n, 0.5 / n;
    assert x * n == stored - n && y * n == g - n && z * n == 0.5;
    assert (z - (x - y) * 100.0) * n >= 0.0 && ((x - y) * 100.0 + z) * n >= 0.0;
    SignOf(z - (x - y) * 100.0, n);
    SignOf((x - y) * 100.0 + z, n);
  }

  lemma SignOf(x: real, n: real)
    requires n > 0.0
    ensures x * n >= 0.0 <==> x >= 0.0
  {
  }

  lemma AddBounds(stored: real, drifted: real, exact: real, drift: real)
    requires -drift <= drifted - exact <= drift && -0.005 <= stored - drifted <= 0.005
    ensures -(0.005 + drift) <= stored - exact <= 0.005 + drift
  {
  }

  lemma IntakeMiss(stored: real, g: real, n: real)
    requires n > 0.0 && -0.005 <= stored - g <= 0.005
    ensures -(0.005 + 0.5 / n) <= Round2((stored - n) / n * 100.0) - (g - n) / n * 100.0 <= 0.005 + 0.5 / n
  {
    DriftOf(stored, g, n);
    RoundIsClose((stored - n) / n * 100.0);
    AddBounds(Round2((stored - n) / n * 100.0), (stored - n) / n * 100.0, (g - n) / n * 100.0, 0.5 / n);
  }

  /** Rounding the total first moves intake's rate by at most 0.5 over the net, and rounding the rate by at most 0.005. */
  lemma IntakeRateIsNear(raw: seq<Component>)
    requires BlendedSnapshot(raw).vatRate.Some?
    ensures Net(raw) > 0.0
    ensures var miss := BlendedSnapshot(raw).vatRate.value - BlendedRate(raw);
            -(0.005 + 0.5 / Net(raw)) <= miss <= 0.005 + 0.5 / Net(raw)
  {
    TotalsSplit(raw);
    RoundIsClose(Gross(raw));
    IntakeMiss(Round2(Gross(raw)), Gross(raw), Net(raw));
  }

  lemma ScaleBound(n: real, d: real)
    requires n > 0.0 && -0.005 <= d <= 0.005
    ensures -0.005 * n <= n * d <= 0.005 * n
  {
  }

  lemma ErrorBound(n: real, s: real, e: real, z: real, d: real)
    requires n > 0.0 && s > 0.0 && e * s == n * d && z * s == 0.005 * n && -0.005 <= d <= 0.005
    ensures -z <= e <= z
  {
    ScaleBound(n, d);
    assert (z - e) * s == z * s - e * s;
    assert (z - e) * s >= 0.0;
    SignOf(z - e, s);
    assert (e + z) * s == e * s + z * s;
    assert (e + z) * s >= 0.0;
    SignOf(e + z, s);
  }

  lemma NetAtRate(g: real, n: real, s: real, x: real, z: real)
    requires n > 0.0 && s > 0.0 && -0.005 <= s - 100.0 - (g - n) / n * 100.0 <= 0.005
    requires x * s == g * 100.0 && z * s == 0.005 * n
    ensures -z <= x - n <= z
  {
    var q := (g - n) / n;
    var d := q * 100.0 + 100.0 - s;
    assert q * n == g - n;
    assert n * d == q * n * 100.0 + n * 100.0 - n * s;
    assert (x - n) * s == x * s - n * s;
    ErrorBound(n, s, x - n, z, d);
  }

  lemma QuotientTimes(x: real, s: real)
    requires s != 0.0
    ensures x / s * s == x
  {
  }

  /** How far a total split at a rate may be from a net. */
  predicate SplitsNear(g: real, n: real, rate: real)
    requires 100.0 + rate > 0.0
  {
    -(0.005 * n / (100.0 + rate)) <= g * 100.0 / (100.0 + rate) - n <= 0.005 * n / (100.0 + rate)
  }

  lemma RoundedRateSplitsNear(g: real, n: real, rate: real)
    requires n > 0.0 && 100.0 + rate > 0.0 && rate == Round2((g - n) / n * 100.0)
    ensures SplitsNear(g, n, rate)
  {
    var s := 100.0 + rate;
    RoundIsClose((g - n) / n * 100.0);
    QuotientTimes(g * 100.0, s);
    QuotientTimes(0.005 * n, s);
    NetAtRate(g, n, s, g * 100.0 / s, 0.005 * n / s);
  }

  lemma StoredRateIsAboveMinusHundred(stored: real, n: real)
    requires stored >= 0.01 && 0.0 < n <= stored + 0.005
    ensures 100.0 + Round2((stored - n) / n * 100.0) > 0.0
  {
    var q := (stored - n) / n;
    QuotientTimes(stored - n, n);
    assert (q + 0.5) * n >= 0.0;
    SignOf(q + 0.5, n);
    RoundIsClose(q * 100.0);
  }

  lemma StoredIsACent(x: real)
    requires x >= 0.0 && Round2(x) != 0.0
    ensures Round2(x) >= 0.01
  {
    assert (x * 100.0 + 0.5).Floor >= 1;
  }

  /** What the rate is for: the stored total split at the stored rate gives the components' net, up to the rate's rounding. */
  lemma IntakeKeepsTheNet(raw: seq<Component>)
    requires BlendedSnapshot(raw).vatRate.Some?
    ensures 100.0 + BlendedSnapshot(raw).vatRate.value > 0.0
    ensures SplitsNear(BlendedSnapshot(raw).gross, Net(raw), BlendedSnapshot(raw).vatRate.value)
  {
    TotalsSplit(raw);
    StoredIsACent(Gross(raw));
    RoundIsClose(Gross(raw));
    StoredRateIsAboveMinusHundred(Round2(Gross(raw)), Net(raw));
    RoundedRateSplitsNear(Round2(Gross(raw)), Net(raw), BlendedSnapshot(raw).vatRate.value);
  }

  // ─── Stored rates compared ────────────────────────────────────────────

  lemma {:induction false} WeightedBetween(cs: seq<Component>, low: Rate, high: Rate)
    requires forall i :: 0 <= i < |cs| ==> low <= cs[i].rate <= high
    ensures low * Gross(cs) <= Weighted(cs) <= high * Gross(cs)
  {
    if cs == [] {
      assert Gross(cs) == 0.0 && Weighted(cs) == 0.0;
    } else {
      var pre, c := cs[..|cs| - 1], cs[|cs| - 1];
      WeightedBetween(pre, low, high);
      BetweenProducts(c.gross, low, c.rate, high);
      Distribute(low, Gross(pre), c.gross);
      Distribute(high, Gross(pre), c.gross);
    }
  }

  lemma BetweenProducts(g: real, low: real, r: real, high: real)
    requires g >= 0.0 && low <= r <= high
    ensures low * g <= g * r <= high * g
  {
    assert g * (r - low) >= 0.0 && g * (high - r) >= 0.0;
  }

  lemma QuotientBetween(w: real, g: real, low: real, high: real)
    requires g > 0.0 && low * g <= w <= high * g
    ensures low <= w / g <= high
  {
    var q := w / g;
    assert q * g == w;
    SignOf(q - low, g);
    SignOf(high - q, g);
  }

  lemma MeanRateIsBetween(cs: seq<Component>, low: Rate, high: Rate)
    requires Gross(cs) > 0.0 && forall i :: 0 <= i < |cs| ==> low <= cs[i].rate <= high
    ensures low <= MeanRate(cs) <= high
  {
    WeightedBetween(cs, low, high);
    QuotientBetween(Weighted(cs), Gross(cs), low, high);
  }

  /** However the components are priced, the two stored rates differ by little more than the components' own rates do. */
  lemma StoredRatesAreClose(raw: seq<Component>, rounded: seq<Component>, low: Rate, high: Rate)
    requires Rounded(raw, rounded) && forall i :: 0 <= i < |raw| ==> low <= raw[i].rate <= high
    requires BlendedSnapshot(raw).vatRate.Some? && MeanSnapshot(rounded).vatRate.Some?
    ensures Net(raw) > 0.0
    ensures var apart := high - low + 0.01 + 0.5 / Net(raw);
            -apart <= MeanSnapshot(rounded).vatRate.value - BlendedSnapshot(raw).vatRate.value <= apart
  {
    TotalsSplit(raw);
    TotalsSplit(rounded);
    RoundedGrossIsWhole(raw, rounded);
    IntakeRateIsNear(raw);
    BlendedRateIsBetween(raw, low, high);
    MeanRateIsBetween(rounded, low, high);
    RoundIsClose(MeanRate(rounded));
  }

  // ─── One rate ─────────────────────────────────────────────────────────

  /** When a drift is rounded away from a rate kept at two decimals. */
  predicate DriftVanishes(rate: Rate, drift: real) {
    drift < 0.005 && (drift > -0.005 || (drift == -0.005 && rate > 0.0))
  }

  lemma RoundsBackIff(rate: Rate, drift: real)
    requires WholeCents(rate)
    ensures Round2(rate + drift) == rate <==> DriftVanishes(rate, drift)
  {
    var k, x := (rate * 100.0).Floor, rate + drift;
    if x >= 0.0 {
      RoundedIs(x, k);
    } else {
      RoundedIs(-x, 0);
      RoundIsMonotone(0.0, -x);
      if rate > 0.0 { assert k >= 1; }
    }
  }

  predicate AllAtRate(cs: seq<Component>, rate: Rate) { forall i :: 0 <= i < |cs| ==> cs[i].rate == rate }

  lemma {:induction false} NetAtOneRate(cs: seq<Component>, rate: Rate)
    requires AllAtRate(cs, rate)
    ensures Net(cs) * (100.0 + rate) == 100.0 * Gross(cs)
  {
    if cs == [] {
      assert Net(cs) == 0.0 && Gross(cs) == 0.0;
    } else {
      var pre, c := cs[..|cs| - 1], cs[|cs| - 1];
      NetAtOneRate(pre, rate);
      NetTimes(c);
      Distribute(100.0 + rate, Net(pre), NetOf(c));
    }
  }

  /** How far rounding the total drives intake's rate from the components' one rate. */
  function RateDrift(stored: real, g: real, rate: Rate): real
    requires g != 0.0
  {
    (100.0 + rate) * (stored - g) / g
  }

  lemma IntakeRateDrifts(stored: real, g: real, n: real, rate: Rate)
    requires n > 0.0 && g > 0.0 && n * (100.0 + rate) == 100.0 * g
    ensures (stored - n) / n * 100.0 == rate + RateDrift(stored, g, rate)
  {
    var x, d := (stored - n) / n, RateDrift(stored, g, rate);
    assert x * n == stored - n;
    assert d * g == (100.0 + rate) * (stored - g);
    var left := x * 100.0 - rate;
    assert left * n == 100.0 * stored - n * (100.0 + rate) == 100.0 * (stored - g);
    assert d * (n * (100.0 + rate)) == d * (100.0 * g) == 100.0 * (100.0 + rate) * (stored - g);
    assert (d * n) * (100.0 + rate) == (100.0 * (stored - g)) * (100.0 + rate);
    Cancel(d * n, 100.0 * (stored - g), 100.0 + rate);
    Cancel(left, d, n);
  }

  /**
   Components of one rate, kept at two decimals: the API stores that rate, and intake stores
   it exactly when the drift from rounding the total is small enough to be rounded away.
   */
  lemma OneRateStoredAlikeIff(raw: seq<Component>, rounded: seq<Component>, rate: Rate)
    requires Rounded(raw, rounded) && AllAtRate(raw, rate) && WholeCents(rate)
    requires BlendedSnapshot(raw).vatRate.Some? && MeanSnapshot(rounded).vatRate.Some?
    ensures MeanSnapshot(rounded).vatRate == Some(rate) && Gross(raw) > 0.0
    ensures BlendedSnapshot(raw).vatRate == MeanSnapshot(rounded).vatRate
       <==> DriftVanishes(rate, RateDrift(Round2(Gross(raw)), Gross(raw), rate))
  {
    TotalsSplit(raw);
    TotalsSplit(rounded);
    RoundedGrossIsWhole(raw, rounded);
    MeanRateIsBetween(rounded, rate, rate);
    WholeStays(rate);
    NetAtOneRate(raw, rate);
    IntakeRateDrifts(Round2(Gross(raw)), Gross(raw), Net(raw), rate);
    RoundsBackIff(rate, RateDrift(Round2(Gross(raw)), Gross(raw), rate));
  }

  // ─── Whole cents ──────────────────────────────────────────────────────

  predicate AllWhole(cs: seq<Component>) { forall i :: 0 <= i < |cs| ==> WholeCents(cs[i].gross) }

  lemma WholeComponentsAlike(raw: seq<Component>, rounded: seq<Component>)
    requires Rounded(raw, rounded) && AllWhole(raw)
    ensures rounded == raw && Round2(Gross(raw)) == Gross(raw)
  {
    forall i | 0 <= i < |raw|
      ensures rounded[i] == raw[i]
    {
      WholeStays(raw[i].gross);
    }
    WholeGross(raw);
    WholeStays(Gross(raw));
  }

  // ─── Any components ───────────────────────────────────────────────────

  /** `num / den` lies from `low`, or strictly above it, up to `high`. */
  predicate Within(num: real, den: real, low: real, high: real, strictly: bool) {
    (if strictly then low * den < num else low * den <= num) && num < high * den
  }

  /** A rate of `num / den` hundredths is stored as `h` hundredths. Rounding is half away from zero, so -0.5 is not stored as zero. */
  predicate StoredAs(num: real, den: real, h: nat) { Within(num, den, h as real - 0.5, h as real + 0.5, h == 0) }

  /** Intake's rate fits `h` hundredths: the VAT in the rounded total against the net. */
  predicate IntakeStores(raw: seq<Component>, h: nat) { StoredAs(10000.0 * (Round2(Gross(raw)) - Net(raw)), Net(raw), h) }

  /** The API's rate does: the weighted gross against the gross of the rounded components. */
  predicate ApiStores(rounded: seq<Component>, h: nat) { StoredAs(100.0 * Weighted(rounded), Gross(rounded), h) }

  lemma WithinIff(y: real, num: real, den: real, low: real, high: real, strictly: bool)
    requires den > 0.0 && y * den == num
    ensures Within(num, den, low, high, strictly) <==> (if strictly then low < y else low <= y) && y < high
  {
    CompareTimes(low, y, den);
    CompareTimes(y, high, den);
  }

  lemma CompareTimes(x: real, y: real, den: real)
    requires den > 0.0
    ensures x <= y <==> x * den <= y * den
    ensures x < y <==> x * den < y * den
  {
    SignOf(y - x, den);
    SignOf(x - y, den);
    assert (y - x) * den == y * den - x * den && (x - y) * den == x * den - y * den;
  }

  lemma NegativeRoundsToZero(x: real, h: nat)
    requires x < 0.0
    ensures Round2(x) == h as real / 100.0 <==> h == 0 && -0.5 < x * 100.0
  {
    RoundedIs(-x, 0);
    var f := (-x * 100.0 + 0.5).Floor;
    assert Round2(x) == -(f as real / 100.0) && f >= 0;
  }

  lemma HundredthIs(x: real, h: nat)
    ensures Round2(x) == h as real / 100.0
       <==> (if h == 0 then -0.5 < x * 100.0 else h as real - 0.5 <= x * 100.0) && x * 100.0 < h as real + 0.5
  {
    if x >= 0.0 {
      RoundedIs(x, h);
    } else {
      NegativeRoundsToZero(x, h);
    }
  }

  lemma StoredAsIff(x: real, num: real, den: real, h: nat)
    requires den > 0.0 && x * 100.0 * den == num
    ensures Round2(x) == h as real / 100.0 <==> StoredAs(num, den, h)
  {
    HundredthIs(x, h);
    WithinIff(x * 100.0, num, den, h as real - 0.5, h as real + 0.5, h == 0);
  }

  lemma IntakeRateIs(raw: seq<Component>, h: nat)
    requires BlendedSnapshot(raw).vatRate.Some?
    ensures Net(raw) > 0.0
    ensures BlendedSnapshot(raw).vatRate.value == h as real / 100.0 <==> IntakeStores(raw, h)
  {
    TotalsSplit(raw);
    var n, d := Net(raw), Round2(Gross(raw)) - Net(raw);
    QuotientTimes(d, n);
    assert d / n * 100.0 * 100.0 * n == 10000.0 * d by { assert d / n * n == d; }
    StoredAsIff(d / n * 100.0, 10000.0 * d, n, h);
  }

  lemma ApiRateIs(rounded: seq<Component>, h: nat)
    requires MeanSnapshot(rounded).vatRate.Some? && Round2(Gross(rounded)) == Gross(rounded) && Gross(rounded) > 0.0
    ensures MeanSnapshot(rounded).vatRate.value == h as real / 100.0 <==> ApiStores(rounded, h)
  {
    var w, g := Weighted(rounded), Gross(rounded);
    QuotientTimes(w, g);
    assert w / g * 100.0 * g == 100.0 * w by { assert w / g * g == w; }
    StoredAsIff(w / g, 100.0 * w, g, h);
  }

  lemma ApiHundredths(rounded: seq<Component>) returns (k: nat)
    requires MeanSnapshot(rounded).vatRate.Some? && Round2(Gross(rounded)) == Gross(rounded) && Gross(rounded) > 0.0
    ensures MeanSnapshot(rounded).vatRate.value == k as real / 100.0
  {
    var x := Weighted(rounded) / Gross(rounded);
    SumOfNonNegatives(WeightOf, rounded);
    NonNegativeQuotient(Weighted(rounded), Gross(rounded));
    k := (x * 100.0 + 0.5).Floor;
  }

  /**
   For any components, of any rates and with any exchange rates: the two stored rates agree
   exactly when one hundredth fits both, read off the sums of gross, net and weighted gross
   without dividing.
   */
  lemma StoredRatesAlikeIff(raw: seq<Component>, rounded: seq<Component>)
    requires Rounded(raw, rounded) && BlendedSnapshot(raw).vatRate.Some? && MeanSnapshot(rounded).vatRate.Some?
    ensures BlendedSnapshot(raw).vatRate == MeanSnapshot(rounded).vatRate
       <==> exists h: nat :: IntakeStores(raw, h) && ApiStores(rounded, h)
  {
    RoundedGrossIsWhole(raw, rounded);
    TotalsSplit(rounded);
    var k := ApiHundredths(rounded);
    IntakeRateIs(raw, k);
    ApiRateIs(rounded, k);
    if h: nat :| IntakeStores(raw, h) && ApiStores(rounded, h) {
      IntakeRateIs(raw, h);
      ApiRateIs(rounded, h);
    }
  }

  /**
   Components in whole cents, as costs in lira are: the stored totals agree, intake's stored
   rate is never above the API's, the snapshots agree exactly when one hundredth fits both
   sums, and one rate throughout is enough for that.
   */
  lemma WholeCentsStoredAlikeIff(raw: seq<Component>, rounded: seq<Component>)
    requires Rounded(raw, rounded) && AllWhole(raw) && Gross(raw) > 0.0
    ensures Net(raw) > 0.0 && BlendedSnapshot(raw).vatRate.Some? && MeanSnapshot(rounded).vatRate.Some?
    ensures BlendedSnapshot(raw).gross == MeanSnapshot(rounded).gross == Gross(raw)
    ensures BlendedSnapshot(raw).vatRate.value <= MeanSnapshot(rounded).vatRate.value
    ensures BlendedSnapshot(raw) == MeanSnapshot(rounded) <==> exists h: nat :: IntakeStores(raw, h) && ApiStores(raw, h)
    ensures OneRate(raw) ==> BlendedSnapshot(raw) == MeanSnapshot(rounded)
  {
    WholeComponentsAlike(raw, rounded);
    MeanRateExceedsBlendedRate(raw);
    BlendedRateKeepsTheVat(raw);
    RoundIsMonotone(BlendedRate(raw), MeanRate(raw));
    StoredRatesAlikeIff(raw, raw);
  }

  // ─── Witnesses, from profiles to stored snapshots ─────────────────────

  lemma SumOfOne(f: Component -> real, a: Component)
    ensures Sum(f, [a]) == f(a)
  {
    assert [a][..0] == [];
  }

  lemma SumOfTwo(f: Component -> real, a: Component, b: Component)
    ensures Sum(f, [a, b]) == f(a) + f(b)
  {
    assert [a, b][..1] == [a];
    SumOfOne(f, a);
  }

  lemma TotalsOfOne(a: Component)
    ensures Gross([a]) == a.gross && Net([a]) == NetOf(a) && Weighted([a]) == WeightOf(a)
  {
    SumOfOne(GrossOf, a);
    SumOfOne(NetOf, a);
    SumOfOne(WeightOf, a);
  }

  lemma TotalsOfTwo(a: Component, b: Component)
    ensures Gross([a, b]) == a.gross + b.gross && Net([a, b]) == NetOf(a) + NetOf(b)
    ensures Weighted([a, b]) == WeightOf(a) + WeightOf(b)
  {
    SumOfTwo(GrossOf, a, b);
    SumOfTwo(NetOf, a, b);
    SumOfTwo(WeightOf, a, b);
  }

  lemma ComponentsOfOne(a: Profile, rounds: bool)
    requires !a.archived && a.fxRate.Some?
    ensures Components([a], rounds) == Some([InLira(a, rounds)])
  {
    assert [a][..0] == [];
    assert [] + [InLira(a, rounds)] == [InLira(a, rounds)];
  }

  lemma ComponentsOfTwo(a: Profile, b: Profile, rounds: bool)
    requires !a.archived && !b.archived && a.fxRate.Some? && b.fxRate.Some?
    ensures Components([a, b], rounds) == Some([InLira(a, rounds), InLira(b, rounds)])
  {
    ComponentsOfOne(a, rounds);
    assert [a, b][..1] == [a];
    assert [InLira(a, rounds)] + [InLira(b, rounds)] == [InLira(a, rounds), InLira(b, rounds)];
  }

  /** A profile in whole lira cents is its own component, rounded or not. */
  lemma WholeProfile(cents: nat, rate: Rate, rounds: bool)
    ensures InLira(Profile(cents as real / 100.0, rate, false, Some(1.0)), rounds) == Component(cents as real / 100.0, rate)
  {
    CentsAreExact(cents);
  }

  /** The stored values of a whole-cent total, from the sums. */
  lemma StoredFromSums(cs: seq<Component>, g: real, n: real, w: real, intake: nat, api: nat)
    requires Gross(cs) == g && Net(cs) == n && Weighted(cs) == w
    requires g >= n > 0.0 && w >= 0.0 && Round2(g) == g
    requires RoundsTo((g - n) / n * 100.0, intake) && RoundsTo(w / g, api)
    ensures BlendedSnapshot(cs) == Snapshot(g, Some(intake as real / 100.0))
    ensures MeanSnapshot(cs) == Snapshot(g, Some(api as real / 100.0))
  {
    NonNegativeQuotient(g - n, n);
    NonNegativeQuotient(w, g);
    RoundedIs((g - n) / n * 100.0, intake);
    RoundedIs(w / g, api);
  }

  lemma NonNegativeQuotient(x: real, y: real)
    requires x >= 0.0 && y > 0.0
    ensures x / y >= 0.0
  {
  }

  /** Two whole-cent lira profiles are their own components on both sides. */
  lemma TwoWholeProfiles(x: nat, rx: Rate, y: nat, ry: Rate)
    ensures var a := Profile(x as real / 100.0, rx, false, Some(1.0));
            var b := Profile(y as real / 100.0, ry, false, Some(1.0));
            var p, q := Component(x as real / 100.0, rx), Component(y as real / 100.0, ry);
            Components([a, b], false) == Components([a, b], true) == Some([p, q])
  {
    var a, b := Profile(x as real / 100.0, rx, false, Some(1.0)), Profile(y as real / 100.0, ry, false, Some(1.0));
    WholeProfile(x, rx, false);
    WholeProfile(x, rx, true);
    WholeProfile(y, ry, false);
    WholeProfile(y, ry, true);
    ComponentsOfTwo(a, b, false);
    ComponentsOfTwo(a, b, true);
  }

  /** Two lira components of different rates that are stored with the same total and the same rate. */
  lemma DifferentRatesStoredAlike()
    ensures var a, b := Profile(100000 as real / 100.0, 20.0, false, Some(1.0)), Profile(1 as real / 100.0, 10.0, false, Some(1.0));
            var raw, rounded := Components([a, b], false), Components([a, b], true);
            && raw.Some? && rounded.Some? && !OneRate(raw.value)
            && BlendedSnapshot(raw.value) == MeanSnapshot(rounded.value)
  {
    TwoWholeProfiles(100000, 20.0, 1, 10.0);
    var p, q := Component(100000 as real / 100.0, 20.0), Component(1 as real / 100.0, 10.0);
    TotalsOfTwo(p, q);
    CentsAreExact(100001);
    StoredFromSums([p, q], 1000.01, NetOf(p) + NetOf(q), WeightOf(p) + WeightOf(q), 2000, 2000);
    assert [p, q][0].rate != [p, q][1].rate;
  }

  /** Two lira components of different rates that are stored with different rates, 9.09 and 10. */
  lemma DifferentRatesStoredApart()
    ensures var a, b := Profile(10000 as real / 100.0, 0.0, false, Some(1.0)), Profile(10000 as real / 100.0, 20.0, false, Some(1.0));
            var raw, rounded := Components([a, b], false), Components([a, b], true);
            && raw.Some? && rounded.Some?
            && BlendedSnapshot(raw.value).vatRate == Some(909 as real / 100.0)
            && MeanSnapshot(rounded.value).vatRate == Some(1000 as real / 100.0)
  {
    TwoWholeProfiles(10000, 0.0, 10000, 20.0);
    var p, q := Component(10000 as real / 100.0, 0.0), Component(10000 as real / 100.0, 20.0);
    TotalsOfTwo(p, q);
    CentsAreExact(20000);
    StoredFromSums([p, q], 200.0, NetOf(p) + NetOf(q), WeightOf(p) + WeightOf(q), 909, 1000);
  }

  /** One converted component whose rate of 20 intake stores as 19.99 and the API keeps. */
  lemma OneRateStoredApart()
    ensures var p := Profile(1.0, 20.0, false, Some(34.1234));
            var raw, rounded := Components([p], false), Components([p], true);
            && raw.Some? && rounded.Some? && OneRate(raw.value)
            && BlendedSnapshot(raw.value) == Snapshot(34.12, Some(19.99)) && MeanSnapshot(rounded.value) == Snapshot(34.12, Some(20.0))
  {
    var p := Profile(1.0, 20.0, false, Some(34.1234));
    ComponentsOfOne(p, false);
    ComponentsOfOne(p, true);
    RoundedIs(34.1234, 3412);
    CentsAreExact(3412);
    CentsAreExact(2000);
    var x, y := Component(34.1234, 20.0), Component(34.12, 20.0);
    assert InLira(p, false) == x && InLira(p, true) == y;
    TotalsOfOne(x);
    TotalsOfOne(y);
    RoundedIs((34.12 - NetOf(x)) / NetOf(x) * 100.0, 1999);
  }
}
