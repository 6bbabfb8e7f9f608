/**
 The cost snapshot of an order item: component costs in lira, their sum, and one VAT rate
 that stands for all of them. Intake stores the rate that reproduces the components' net;
 the API's copy stores the gross-weighted mean.
 */
module CostSnapshot {
  import opened Options
  import opened Money

  type Amount = x: real | x >= 0.0

  datatype Component = Component(gross: Amount, rate: Rate)

  function Sum(f: Component -> real, cs: seq<Component>): real {
    if cs == [] then 0.0 else Sum(f, cs[..|cs| - 1]) + f(cs[|cs| - 1])
  }

  function GrossOf(c: Component): real { c.gross }
  function NetOf(c: Component): real { c.gross * 100.0 / (100.0 + c.rate) }
  function VatOf(c: Component): real { GrossToVat(c.gross, c.rate) }
  function WeightOf(c: Component): real { c.gross * c.rate }
  function ScaledOf(c: Component): real { c.gross * (100.0 + c.rate) }

  function Gross(cs: seq<Component>): real { Sum(GrossOf, cs) }
  function Net(cs: seq<Component>): real { Sum(NetOf, cs) }
  function VatSum(cs: seq<Component>): real { Sum(VatOf, cs) }
  function Weighted(cs: seq<Component>): real { Sum(WeightOf, cs) }

  /** Intake's rate, before rounding. */
  function BlendedRate(cs: seq<Component>): real
    requires Net(cs) != 0.0
  {
    (Gross(cs) - Net(cs)) / Net(cs) * 100.0
  }

  /** The API's rate, before rounding. */
  function MeanRate(cs: seq<Component>): real
    requires Gross(cs) != 0.0
  {
    Weighted(cs) / Gross(cs)
  }

  // ─── Capture ──────────────────────────────────────────────────────────

  /** A cost profile linked to the item's variant; no exchange rate when today's is unavailable. */
  datatype Profile = Profile(amountGross: Amount, vatRate: Rate, archived: bool, fxRate: Option<Amount>)

  function InLira(p: Profile, rounds: bool): Component
    requires p.fxRate.Some?
  {
    LiraIsAnAmount(p.amountGross * p.fxRate.value);
    Component(if rounds then Round2(p.amountGross * p.fxRate.value) else p.amountGross * p.fxRate.value, p.vatRate)
  }

  lemma LiraIsAnAmount(x: real)
    ensures x >= 0.0 ==> Round2(x) >= 0.0
  {
    if x >= 0.0 { assert (x * 100.0 + 0.5).Floor >= 0; }
  }

  /** The active profiles in lira, or None as soon as one has no exchange rate. */
  function Components(ps: seq<Profile>, rounds: bool): Option<seq<Component>> {
    if ps == [] then Some([])
    else
      var p := ps[|ps| - 1];
      match Components(ps[..|ps| - 1], rounds)
      case None => None
      case Some(cs) => if p.archived then Some(cs) else if p.fxRate.None? then None else Some(cs + [InLira(p, rounds)])
  }

  predicate AnyActive(ps: seq<Profile>) { exists i :: 0 <= i < |ps| && !ps[i].archived }

  datatype Snapshot = Snapshot(gross: real, vatRate: Option<real>)

  function BlendedSnapshot(cs: seq<Component>): Snapshot {
    var gross := Round2(Gross(cs));
    Snapshot(gross, if gross == 0.0 || Net(cs) == 0.0 then None else Some(Round2((gross - Net(cs)) / Net(cs) * 100.0)))
  }

  function MeanSnapshot(cs: seq<Component>): Snapshot {
    var gross := Round2(Gross(cs));
    Snapshot(gross, if gross == 0.0 then None else Some(Round2(Weighted(cs) / gross)))
  }

  method Convert(ps: seq<Profile>, rounds: bool) returns (cs: Option<seq<Component>>)
    ensures cs == Components(ps, rounds)
  {
    cs := Some([]);
    for k := 0 to |ps|
      invariant cs == Components(ps[..k], rounds)
    {
      assert ps[..k + 1][..k] == ps[..k];
      if cs.Some? && !ps[k].archived {
        cs := if ps[k].fxRate.None? then None else Some(cs.value + [InLira(ps[k], rounds)]);
      }
    }
    assert ps[..|ps|] == ps;
  }

  method Totals(cs: seq<Component>) returns (gross: real, net: real, weighted: real)
    ensures gross == Gross(cs) && net == Net(cs) && weighted == Weighted(cs)
  {
    gross, net, weighted := 0.0, 0.0, 0.0;
    for k := 0 to |cs|
      invariant gross == Gross(cs[..k]) && net == Net(cs[..k]) && weighted == Weighted(cs[..k])
    {
      assert cs[..k + 1][..k] == cs[..k];
      gross, net, weighted := gross + cs[k].gross, net + NetOf(cs[k]), weighted + WeightOf(cs[k]);
    }
    assert cs[..|cs|] == cs;
  }

  datatype Outcome = Captured | Skipped | AlreadyCaptured

  class ItemCost {
    var unitCostGross: Option<real>
    var unitCostVatRate: Option<real>

    constructor ()
      ensures unitCostGross == None && unitCostVatRate == None
    {
      unitCostGross, unitCostVatRate := None, None;
    }

    method Store(s: Snapshot)
      modifies this
      ensures unitCostGross == Some(s.gross) && unitCostVatRate == s.vatRate
    {
      unitCostGross, unitCostVatRate := Some(s.gross), s.vatRate;
    }

    /** Intake: write-once, and silent when the item cannot be priced yet. */
    method CaptureCostSnapshot(hasVariant: bool, excluded: bool, ps: seq<Profile>) returns (outcome: Outcome)
      modifies this
      ensures outcome == Captured <==>
                old(unitCostGross).None? && hasVariant && !excluded && AnyActive(ps) && Components(ps, false).Some?
      ensures outcome == Captured ==>
                var s := BlendedSnapshot(Components(ps, false).value); unitCostGross == Some(s.gross) && unitCostVatRate == s.vatRate
      ensures outcome != Captured ==>
                outcome == Skipped && unitCostGross == old(unitCostGross) && unitCostVatRate == old(unitCostVatRate)
    {
      if unitCostGross.Some? || !hasVariant || excluded || !AnyActive(ps) { return Skipped; }
      var cs := Convert(ps, false);
      if cs.None? { return Skipped; }
      var total, net, _ := Totals(cs.value);
      var gross := Round2(total);
      Store(Snapshot(gross, if gross == 0.0 || net == 0.0 then None else Some(Round2((gross - net) / net * 100.0))));
      return Captured;
    }

    /** The API's copy: it refuses a captured item, rounds each component, and stores the weighted mean. */
    method CaptureByApi(hasVariant: bool, ps: seq<Profile>) returns (outcome: Outcome)
      modifies this
      ensures outcome == AlreadyCaptured <==> old(unitCostGross).Some?
      ensures outcome == Captured <==>
                old(unitCostGross).None? && hasVariant && AnyActive(ps) && Components(ps, true).Some?
      ensures outcome == Captured ==>
                var s := MeanSnapshot(Components(ps, true).value); unitCostGross == Some(s.gross) && unitCostVatRate == s.vatRate
      ensures outcome != Captured ==> unitCostGross == old(unitCostGross) && unitCostVatRate == old(unitCostVatRate)
    {
      if unitCostGross.Some? { return AlreadyCaptured; }
      if !hasVariant || !AnyActive(ps) { return Skipped; }
      var cs := Convert(ps, true);
      if cs.None? { return Skipped; }
      var total, _, weighted := Totals(cs.value);
      var gross := Round2(total);
      Store(Snapshot(gross, if gross == 0.0 then None else Some(Round2(weighted / gross))));
      return Captured;
    }
  }

  // ─── Archived profiles ────────────────────────────────────────────────

  /** The profiles that are not archived, in order. */
  function ActiveOf(ps: seq<Profile>): seq<Profile> {
    if ps == [] then []
    else ActiveOf(ps[..|ps| - 1]) + if ps[|ps| - 1].archived then [] else [ps[|ps| - 1]]
  }

  lemma {:induction false} ActiveAreKept(ps: seq<Profile>, p: Profile)
    ensures p in ActiveOf(ps) <==> p in ps && !p.archived
  {
    if ps != [] {
      ActiveAreKept(ps[..|ps| - 1], p);
      assert ps == ps[..|ps| - 1] + [ps[|ps| - 1]];
    }
  }

  lemma OneMoreProfile(ps: seq<Profile>, more: seq<Profile>, p: Profile, rounds: bool)
    requires more == ps + [p]
    ensures Components(more, rounds)
         == if Components(ps, rounds).None? || p.archived then Components(ps, rounds)
            else if p.fxRate.None? then None
            else Some(Components(ps, rounds).value + [InLira(p, rounds)])
  {
    assert more[..|ps|] == ps && more[|more| - 1] == p;
  }

  lemma ActiveGrows(ps: seq<Profile>)
    requires ps != []
    ensures AnyActive(ps) <==> AnyActive(ps[..|ps| - 1]) || !ps[|ps| - 1].archived
  {
    var pre := ps[..|ps| - 1];
    if i :| 0 <= i < |pre| && !pre[i].archived { assert !ps[i].archived; }
    if i :| 0 <= i < |ps| && !ps[i].archived && i < |pre| { assert !pre[i].archived; }
  }

  /** Archived profiles do not count, whatever they are priced in: there is something to capture only if one is active. */
  lemma {:induction false} ArchivedProfilesDoNotCount(ps: seq<Profile>, rounds: bool)
    ensures AnyActive(ps) <==> ActiveOf(ps) != []
    ensures Components(ps, rounds) == Components(ActiveOf(ps), rounds)
  {
    if ps != [] {
      var pre, p := ps[..|ps| - 1], ps[|ps| - 1];
      ArchivedProfilesDoNotCount(pre, rounds);
      ActiveGrows(ps);
      if p.archived {
        assert ActiveOf(ps) == ActiveOf(pre);
      } else {
        OneMoreProfile(ActiveOf(pre), ActiveOf(ps), p, rounds);
      }
    }
  }

  /** Each active profile gives one component, in lira at the day's rate and its own VAT rate, if all of them have a rate. */
  lemma {:induction false} EachActiveProfileCounts(ps: seq<Profile>, rounds: bool)
    requires forall i :: 0 <= i < |ps| ==> !ps[i].archived
    ensures Components(ps, rounds).Some? <==> forall i :: 0 <= i < |ps| ==> ps[i].fxRate.Some?
    ensures Components(ps, rounds).Some? ==> |Components(ps, rounds).value| == |ps|
  {
    if ps != [] {
      var pre := ps[..|ps| - 1];
      EachActiveProfileCounts(pre, rounds);
      assert forall i :: 0 <= i < |ps| ==> ps[i] == if i < |pre| then pre[i] else ps[|ps| - 1];
    }
  }

  lemma {:induction false} ComponentAt(ps: seq<Profile>, rounds: bool, k: nat)
    requires k < |ps| && (forall i :: 0 <= i < |ps| ==> !ps[i].archived) && Components(ps, rounds).Some?
    ensures |Components(ps, rounds).value| == |ps| && ps[k].fxRate.Some?
    ensures Components(ps, rounds).value[k] == InLira(ps[k], rounds)
  {
    EachActiveProfileCounts(ps, rounds);
    var pre := ps[..|ps| - 1];
    EachActiveProfileCounts(pre, rounds);
    OneMoreProfile(pre, ps, ps[|ps| - 1], rounds);
    if k < |pre| { ComponentAt(pre, rounds, k); }
  }

  // ─── Sums and small steps of real arithmetic ──────────────────────────

  lemma {:induction false} SumIsLinear(t: Component -> real, f: Component -> real, g: Component -> real, h: Component -> real,
                                       a: real, b: real, k: real, cs: seq<Component>)
    requires forall i :: 0 <= i < |cs| ==> t(cs[i]) == a * f(cs[i]) + b * g(cs[i]) + k * h(cs[i])
    ensures Sum(t, cs) == a * Sum(f, cs) + b * Sum(g, cs) + k * Sum(h, cs)
  {
    if cs == [] {
    } else {
      var pre, c := cs[..|cs| - 1], cs[|cs| - 1];
      SumIsLinear(t, f, g, h, a, b, k, pre);
      assert t(c) == a * f(c) + b * g(c) + k * h(c);
      Distribute(a, Sum(f, pre), f(c));
      Distribute(b, Sum(g, pre), g(c));
      Distribute(k, Sum(h, pre), h(c));
    }
  }

  function Combined(a: real, f: Component -> real, b: real, g: Component -> real, k: real, h: Component -> real): Component -> real {
    (c: Component) => a * f(c) + b * g(c) + k * h(c)
  }

  lemma CombinedAt(a: real, f: Component -> real, b: real, g: Component -> real, k: real, h: Component -> real,
                   c: Component, x: real, y: real, z: real)
    requires f(c) == x && g(c) == y && h(c) == z
    ensures Combined(a, f, b, g, k, h)(c) == a * x + b * y + k * z
  {
  }

  lemma SumOfCombined(a: real, f: Component -> real, b: real, g: Component -> real, k: real, h: Component -> real,
                      cs: seq<Component>)
    ensures Sum(Combined(a, f, b, g, k, h), cs) == a * Sum(f, cs) + b * Sum(g, cs) + k * Sum(h, cs)
  {
    SumIsLinear(Combined(a, f, b, g, k, h), f, g, h, a, b, k, cs);
  }

  lemma {:induction false} SumOfNonNegatives(f: Component -> real, cs: seq<Component>)
    requires forall i :: 0 <= i < |cs| ==> f(cs[i]) >= 0.0
    ensures Sum(f, cs) >= 0.0
    ensures Sum(f, cs) == 0.0 <==> forall i :: 0 <= i < |cs| ==> f(cs[i]) == 0.0
  {
    if cs == [] {
    } else {
      var pre, c := cs[..|cs| - 1], cs[|cs| - 1];
      SumOfNonNegatives(f, pre);
      assert forall i :: 0 <= i < |pre| ==> pre[i] == cs[i];
      assert f(cs[|cs| - 1]) >= 0.0;
      if forall i :: 0 <= i < |pre| ==> f(pre[i]) == 0.0 {
        assert forall i :: 0 <= i < |pre| ==> f(cs[i]) == f(pre[i]);
      }
    }
  }

  lemma Distribute(a: real, x: real, y: real)
    ensures a * (x + y) == a * x + a * y
  {
  }

  lemma Cancel(x: real, y: real, n: real)
    requires n != 0.0 && x * n == y * n
    ensures x == y
  {
    assert (x - y) * n == 0.0;
  }

  lemma ProductSign(a: real, b: real)
    requires a > 0.0
    ensures (a * b >= 0.0 <==> b >= 0.0) && (a * b == 0.0 <==> b == 0.0)
  {
  }

  lemma DivideProduct(x: real, t: real, s: real)
    requires s != 0.0
    ensures (x * t) / s == x * (t / s)
  {
    var q := t / s;
    assert q * s == t;
    assert (x * q) * s == x * t;
    Cancel((x * t) / s, x * q, s);
  }

  // ─── The blended rate ─────────────────────────────────────────────────

  lemma NetTimes(c: Component)
    ensures NetOf(c) * (100.0 + c.rate) == 100.0 * c.gross
    ensures NetOf(c) >= 0.0 && (NetOf(c) == 0.0 <==> c.gross == 0.0)
    ensures c.gross == NetOf(c) + VatOf(c) && VatOf(c) >= 0.0
  {
    var s := 100.0 + c.rate;
    assert c.gross * 100.0 / s + c.gross * c.rate / s == c.gross * s / s;
  }

  /** The total splits into net and VAT, and a positive total has a positive net. */
  lemma TotalsSplit(cs: seq<Component>)
    ensures Gross(cs) == Net(cs) + VatSum(cs) && VatSum(cs) >= 0.0 && Net(cs) >= 0.0
    ensures Gross(cs) > 0.0 ==> Net(cs) > 0.0
  {
    forall i | 0 <= i < |cs|
      ensures NetOf(cs[i]) >= 0.0 && VatOf(cs[i]) >= 0.0 && (NetOf(cs[i]) == 0.0 <==> GrossOf(cs[i]) == 0.0)
      ensures GrossOf(cs[i]) == 1.0 * NetOf(cs[i]) + 1.0 * VatOf(cs[i]) + 0.0 * VatOf(cs[i])
    {
      NetTimes(cs[i]);
    }
    SumIsLinear(GrossOf, NetOf, VatOf, VatOf, 1.0, 1.0, 0.0, cs);
    SumOfNonNegatives(NetOf, cs);
    SumOfNonNegatives(VatOf, cs);
    SumOfNonNegatives(GrossOf, cs);
  }

  lemma VatAtTheImpliedRate(g: real, n: real)
    requires g >= n > 0.0
    ensures (g - n) / n * 100.0 >= 0.0
    ensures GrossToVat(g, (g - n) / n * 100.0) == g - n
  {
    var q := (g - n) / n;
    assert q * n == g - n && q >= 0.0;
    var r := q * 100.0;
    assert (g - n) * (100.0 + r) == g * r by {
      assert (g - n) * (100.0 + r) == (q * n) * (100.0 + r) == (q * 100.0) * (n + q * n);
    }
    Cancel(GrossToVat(g, r), g - n, 100.0 + r);
  }

  /** Splitting VAT off the total at the blended rate gives the sum of the components' own VAT. */
  lemma BlendedRateKeepsTheVat(cs: seq<Component>)
    requires Gross(cs) > 0.0
    ensures Net(cs) > 0.0 && BlendedRate(cs) >= 0.0
    ensures GrossToVat(Gross(cs), BlendedRate(cs)) == VatSum(cs)
  {
    TotalsSplit(cs);
    VatAtTheImpliedRate(Gross(cs), Net(cs));
  }

  lemma RateOf(g: real, n: real, r: real)
    requires n > 0.0
    ensures (g - n) / n * 100.0 <= r <==> n * (100.0 + r) - 100.0 * g >= 0.0
    ensures (g - n) / n * 100.0 >= r <==> 100.0 * g - n * (100.0 + r) >= 0.0
  {
    var q := (g - n) / n;
    assert q * n == g - n;
    assert n * (100.0 + r) - 100.0 * g == n * (r - q * 100.0);
    ProductSign(n, r - q * 100.0);
    ProductSign(n, q * 100.0 - r);
  }

  /** How far a component's net at rate r overshoots its gross, in the direction of the sign. */
  function OvershootOf(r: real, sign: real): Component -> real {
    Combined(sign * (100.0 + r), NetOf, -sign * 100.0, GrossOf, 0.0, GrossOf)
  }

  lemma OvershootSign(c: Component, r: real, sign: real)
    requires sign * (r - c.rate) >= 0.0
    ensures OvershootOf(r, sign)(c) >= 0.0
  {
    NetTimes(c);
    CombinedAt(sign * (100.0 + r), NetOf, -sign * 100.0, GrossOf, 0.0, GrossOf, c, NetOf(c), c.gross, c.gross);
    var n, d := NetOf(c), sign * (r - c.rate);
    assert (sign * (100.0 + r)) * n + (-sign * 100.0) * c.gross == n * d by {
      assert sign * (100.0 * c.gross) == sign * (n * (100.0 + c.rate));
    }
    assert n * d >= 0.0;
  }

  lemma OvershootTotal(cs: seq<Component>, r: real, sign: real)
    ensures Sum(OvershootOf(r, sign), cs) == (sign * (100.0 + r)) * Net(cs) + (-sign * 100.0) * Gross(cs)
  {
    SumOfCombined(sign * (100.0 + r), NetOf, -sign * 100.0, GrossOf, 0.0, GrossOf, cs);
  }

  lemma NetAgainst(cs: seq<Component>, r: real, sign: real)
    requires forall i :: 0 <= i < |cs| ==> sign * (r - cs[i].rate) >= 0.0
    ensures (sign * (100.0 + r)) * Net(cs) + (-sign * 100.0) * Gross(cs) >= 0.0
  {
    var t := OvershootOf(r, sign);
    forall i | 0 <= i < |cs|
      ensures t(cs[i]) >= 0.0
    {
      OvershootSign(cs[i], r, sign);
    }
    OvershootTotal(cs, r, sign);
    SumOfNonNegatives(t, cs);
  }

  /** The blended rate lies between the smallest and the largest component rate. */
  lemma BlendedRateIsBetween(cs: seq<Component>, low: Rate, high: Rate)
    requires Gross(cs) > 0.0 && forall i :: 0 <= i < |cs| ==> low <= cs[i].rate <= high
    ensures Net(cs) > 0.0 && low <= BlendedRate(cs) <= high
  {
    TotalsSplit(cs);
    NetAgainst(cs, high, 1.0);
    NetAgainst(cs, low, -1.0);
    RateOf(Gross(cs), Net(cs), low);
    RateOf(Gross(cs), Net(cs), high);
  }

  // ─── The two copies compared ──────────────────────────────────────────

  function Scaled(cs: seq<Component>): real { Sum(ScaledOf, cs) }

  /** What one component adds to the spread of rates around 100 + rate == s. */
  function SpreadOf(s: real): Component -> real
    requires s > 0.0
  {
    Combined(100.0 / s, ScaledOf, s, NetOf, -200.0, GrossOf)
  }

  /** What keeps the two rates apart. */
  function Defect(cs: seq<Component>): real { Net(cs) * Scaled(cs) - 100.0 * Gross(cs) * Gross(cs) }

  /** Every component that costs anything has this rate. */
  ghost predicate AllAt(cs: seq<Component>, rate: Rate) {
    forall i :: 0 <= i < |cs| && cs[i].gross > 0.0 ==> cs[i].rate == rate
  }

  /** All components that cost anything share one rate. */
  ghost predicate OneRate(cs: seq<Component>) {
    forall i, j :: 0 <= i < j < |cs| && cs[i].gross > 0.0 && cs[j].gross > 0.0 ==> cs[i].rate == cs[j].rate
  }

  lemma SquareSign(x: real)
    ensures x * x >= 0.0 && (x * x == 0.0 <==> x == 0.0)
  {
    if x > 0.0 {
      ProductSign(x, x);
    } else if x < 0.0 {
      ProductSign(-x, -x);
      assert -x * -x == x * x;
    }
  }

  lemma RatioSpread(u: real, v: real)
    requires u > 0.0 && u * v == 1.0
    ensures u + v - 2.0 >= 0.0 && (u + v - 2.0 == 0.0 <==> u == 1.0)
  {
    var w := u + v - 2.0;
    assert u * w == u * u + u * v - 2.0 * u;
    assert u * w == (u - 1.0) * (u - 1.0);
    SquareSign(u - 1.0);
    ProductSign(u, w);
  }

  lemma Ratios(t: real, s: real)
    requires t > 0.0 && s > 0.0
    ensures t / s > 0.0 && (t / s) * (s / t) == 1.0 && (t / s == 1.0 <==> t == s)
  {
    var u, v := t / s, s / t;
    assert u * s == t && v * t == s;
    ProductSign(s, u);
    assert (u * v) * t == u * s;
    Cancel(u * v, 1.0, t);
    if t == s { Cancel(u, 1.0, s); }
  }

  lemma TermSpread(g: Amount, t: real, s: real)
    requires t > 0.0 && s > 0.0
    ensures var x := (100.0 / s) * (g * t) + s * (g * 100.0 / t) + (-200.0) * g;
            x >= 0.0 && (x == 0.0 <==> g == 0.0 || t == s)
  {
    var u, v, h := t / s, s / t, 100.0 * g;
    Ratios(t, s);
    RatioSpread(u, v);
    assert (100.0 / s) * (g * t) == h * u by {
      DivideProduct(g * t, 100.0, s);
      assert (g * t) * 100.0 == h * t;
      DivideProduct(h, t, s);
    }
    assert s * (g * 100.0 / t) == h * v by {
      DivideProduct(s, h, t);
      assert s * h == h * s;
      DivideProduct(h, s, t);
    }
    assert h * u + h * v - 2.0 * h == h * (u + v - 2.0);
    if h > 0.0 { ProductSign(h, u + v - 2.0); }
  }

  lemma SpreadSign(c: Component, rate: Rate)
    ensures var x := SpreadOf(100.0 + rate)(c); x >= 0.0 && (x == 0.0 <==> c.gross == 0.0 || c.rate == rate)
  {
    var g, t, s := c.gross, 100.0 + c.rate, 100.0 + rate;
    CombinedAt(100.0 / s, ScaledOf, s, NetOf, -200.0, GrossOf, c, g * t, g * 100.0 / t, g);
    TermSpread(g, t, s);
  }

  lemma SpreadTotal(cs: seq<Component>, s: real)
    requires s > 0.0
    ensures Sum(SpreadOf(s), cs) == (100.0 / s) * Scaled(cs) + s * Net(cs) + (-200.0) * Gross(cs)
  {
    SumOfCombined(100.0 / s, ScaledOf, s, NetOf, -200.0, GrossOf, cs);
  }

  /** The spread around a rate is never negative, and vanishes exactly when every costing component has that rate. */
  lemma SpreadIsNonNegative(cs: seq<Component>, rate: Rate)
    ensures Sum(SpreadOf(100.0 + rate), cs) >= 0.0
    ensures Sum(SpreadOf(100.0 + rate), cs) == 0.0 <==> AllAt(cs, rate)
  {
    var t := SpreadOf(100.0 + rate);
    forall i | 0 <= i < |cs|
      ensures t(cs[i]) >= 0.0 && (t(cs[i]) == 0.0 <==> cs[i].gross == 0.0 || cs[i].rate == rate)
    {
      SpreadSign(cs[i], rate);
    }
    SumOfNonNegatives(t, cs);
  }

  lemma DefectGrows(n: real, w: real, t: real, g: Amount, s: real, x: real)
    requires s > 0.0 && x * s == 100.0 * g
    ensures (n + x) * (w + g * s) - 100.0 * (t + g) * (t + g)
         == (n * w - 100.0 * t * t) + g * ((100.0 / s) * w + s * n + (-200.0) * t)
  {
    assert x == g * (100.0 / s) by { DivideProduct(g, 100.0, s); Cancel(x, g * (100.0 / s), s); }
    assert x * w == g * ((100.0 / s) * w);
    assert (n + x) * (w + g * s) == n * w + g * (s * n) + x * w + g * (x * s);
    assert g * (x * s) == 100.0 * g * g;
    assert 100.0 * (t + g) * (t + g) == 100.0 * t * t + g * (200.0 * t) + 100.0 * g * g;
    Distribute(g, (100.0 / s) * w + s * n, (-200.0) * t);
    Distribute(g, (100.0 / s) * w, s * n);
  }

  lemma DefectStep(cs: seq<Component>)
    requires cs != []
    ensures var pre, c := cs[..|cs| - 1], cs[|cs| - 1];
            Defect(cs) == Defect(pre) + c.gross * Sum(SpreadOf(100.0 + c.rate), pre)
  {
    var pre, c := cs[..|cs| - 1], cs[|cs| - 1];
    var s := 100.0 + c.rate;
    NetTimes(c);
    SpreadTotal(pre, s);
    DefectGrows(Net(pre), Scaled(pre), Gross(pre), c.gross, s, NetOf(c));
  }

  lemma {:induction false} DefectIsNonNegative(cs: seq<Component>)
    ensures Defect(cs) >= 0.0 && (Defect(cs) == 0.0 <==> OneRate(cs))
  {
    if cs == [] {
    } else {
      var pre, c := cs[..|cs| - 1], cs[|cs| - 1];
      DefectIsNonNegative(pre);
      DefectStep(cs);
      SpreadIsNonNegative(pre, c.rate);
      if c.gross > 0.0 { ProductSign(c.gross, Sum(SpreadOf(100.0 + c.rate), pre)); }
      assert OneRate(cs) <==> OneRate(pre) && (c.gross == 0.0 || AllAt(pre, c.rate));
    }
  }

  lemma ScaledTotal(cs: seq<Component>)
    ensures Scaled(cs) == 100.0 * Gross(cs) + Weighted(cs)
  {
    SumIsLinear(ScaledOf, GrossOf, WeightOf, WeightOf, 100.0, 1.0, 0.0, cs);
  }

  lemma RatesCompare(g: real, n: real, w: real, defect: real)
    requires g > 0.0 && n > 0.0
    requires defect == n * (100.0 * g + w) - 100.0 * g * g && defect >= 0.0
    ensures (g - n) / n * 100.0 <= w / g
    ensures (g - n) / n * 100.0 == w / g <==> defect == 0.0
  {
    var m := w / g;
    assert m * g == w;
    var d := n * (100.0 + m) - 100.0 * g;
    assert defect == g * d by { assert n * (100.0 * g + w) == g * (n * (100.0 + m)); }
    ProductSign(g, d);
    RateOf(g, n, m);
  }

  /**
   The API's weighted mean is never below intake's blended rate, and the two agree, before
   rounding, exactly when all components that cost anything share one VAT rate.
   */
  lemma MeanRateExceedsBlendedRate(cs: seq<Component>)
    requires Gross(cs) > 0.0
    ensures Net(cs) > 0.0 && BlendedRate(cs) <= MeanRate(cs)
    ensures BlendedRate(cs) == MeanRate(cs) <==> OneRate(cs)
  {
    TotalsSplit(cs);
    DefectIsNonNegative(cs);
    ScaledTotal(cs);
    RatesCompare(Gross(cs), Net(cs), Weighted(cs), Defect(cs));
  }
}
