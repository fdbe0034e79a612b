/**
 What bonding curves charge: the price of each curve kind, the integral of any
 price, and the answers of the entrypoints, each said without naming how it is
 computed.
 */
module PricingLaw {
  import opened Host
  import opened Arithmetic
  import opened BondingCurve

  // --------------------------------------------------------------------------- prices

  /** The price of a linear curve: the base price plus slope times supply, cut to an integer. */
  lemma LinearLaw(c: Pricing, s: int)
    requires c.kind.Linear?
    ensures IsCut(SpotPrice(c, s) - c.basePrice, c.slope * s, 10_000_000)
  {
  }

  /** The price of an exponential curve: the base price times the exponential of the scaled supply. */
  lemma ExponentialLaw(c: Pricing, s: int, x: int)
    requires c.kind.Exponential? && IsCut(x, c.slope * s, 10_000_000)
    ensures IsCut(SpotPrice(c, s), c.basePrice * ExpApprox(x), 10_000_000)
  {
    CutUnique(x, c.slope * s, 10_000_000);
  }

  /** The price of a sigmoid curve: the maximum times e^z / (1 + e^z), around the midpoint. */
  lemma SigmoidLaw(c: Pricing, s: int, z: int, share: int)
    requires c.kind.Sigmoid?
    ensures IsCut(z, c.k * (s - c.midpoint), 10_000_000)
            && IsCut(share, ExpApprox(z) * 10_000_000, 10_000_000 + ExpApprox(z)) ==>
              IsCut(SpotPrice(c, s), c.maxPrice * share, 10_000_000)
  {
    if IsCut(z, c.k * (s - c.midpoint), 10_000_000)
       && IsCut(share, ExpApprox(z) * 10_000_000, 10_000_000 + ExpApprox(z))
    {
      CutUnique(z, c.k * (s - c.midpoint), 10_000_000);
      CutUnique(share, ExpApprox(z) * 10_000_000, 10_000_000 + ExpApprox(z));
    }
  }

  // ---------------------------------------------------------------------- exponential

  /** 120 * 10^28: what the Taylor polynomial is scaled by, so that no quotient is left. */
  const UNIT: int := 1200000000000000000000000000000

  /** The fifth Taylor polynomial of e^x, in units of 10^-7, times UNIT. */
  function Taylor(x: int): int {
    12000000000000000000000000000000000000 + 1200000000000000000000000000000 * x + 60000000000000000000000 * (x * x)
    + 2000000000000000 * (x * x * x) + 50000000 * (x * x * x * x) + x * x * x * x * x
  }

  /** The sum of the series as it is computed, every quotient cut to an integer. */
  function Series(x: int): int {
    var x2 := TruncDiv(x * x, PRECISION);
    var x3 := TruncDiv(x2 * x, PRECISION);
    var x4 := TruncDiv(x3 * x, PRECISION);
    PRECISION + x + TruncDiv(x * x, 2 * PRECISION) + TruncDiv(x2 * x, 6 * PRECISION)
    + TruncDiv(x3 * x, 24 * PRECISION) + TruncDiv(x4 * x, 120 * PRECISION)
  }

  lemma ExpIsSeries(arg: int)
    ensures var x := if arg < -200_000_000 then -200_000_000 else if arg > 200_000_000 then 200_000_000 else arg;
            ExpApprox(arg) == if Series(x) < 1 then 1 else Series(x)
  {
  }

  lemma CutRest(a: int, d: int)
    requires d > 0
    ensures -d < a - TruncDiv(a, d) * d < d
    ensures a >= 0 ==> 0 <= a - TruncDiv(a, d) * d
  {
    AddOne(TruncDiv(a, d), d);
    AddOne(TruncDiv(a, d) - 1, d);
  }

  lemma AbsMul(a: int, b: int, most: int, more: int)
    requires -most <= a <= most && -more <= b <= more
    ensures -(most * more) <= a * b <= most * more
  {
    MulNonNegative(most - a, more + b);
    MulNonNegative(most + a, more + b);
    MulNonNegative(most - a, more - b);
    MulNonNegative(most + a, more - b);
    assert (most - a) * (more + b) == most * more + most * b - a * more - a * b;
    assert (most + a) * (more + b) == most * more + most * b + a * more + a * b;
    assert (most - a) * (more - b) == most * more - most * b - a * more + a * b;
    assert (most + a) * (more - b) == most * more - most * b + a * more - a * b;
  }

  lemma TimesX(y: int, a: int, r: int, x: int)
    requires y == a * PRECISION + r
    ensures y * x == (a * x) * PRECISION + r * x
  {
  }

  /** What the cuts leave of the third, fourth and fifth powers. */
  lemma PowersSplit(x: int, a: int, b: int, c: int, ra: int, rb: int, rc: int)
    requires x * x == a * PRECISION + ra && a * x == b * PRECISION + rb && b * x == c * PRECISION + rc
    ensures x * x * x == (a * x) * PRECISION + ra * x
    ensures x * x * x * x == (b * x) * (PRECISION * PRECISION) + (rb * x) * PRECISION + ra * x * x
    ensures x * x * x * x * x == (c * x) * (PRECISION * PRECISION * PRECISION) + (rc * x) * (PRECISION * PRECISION)
                                 + rb * x * x * PRECISION + ra * x * x * x
  {
    TimesX(x * x, a, ra, x);
    var third := b * (PRECISION * PRECISION) + rb * PRECISION + ra * x;
    assert x * x * x == third;
    assert third * x == (b * x) * (PRECISION * PRECISION) + (rb * x) * PRECISION + ra * x * x;
    var fourth := c * (PRECISION * PRECISION * PRECISION) + rc * (PRECISION * PRECISION)
                  + (rb * x) * PRECISION + ra * x * x;
    assert x * x * x * x == fourth;
    assert fourth * x == (c * x) * (PRECISION * PRECISION * PRECISION) + (rc * x) * (PRECISION * PRECISION)
                         + (rb * x) * x * PRECISION + ra * x * x * x;
  }

  /** What the cuts dropped: remainders `r` of the terms, `a`, `b`, `c` of the powers. */
  datatype Rests = Rests(r2: int, r3: int, r4: int, r5: int, a1: int, a2: int, a3: int, b1: int, b2: int, c1: int)

  function Error(e: Rests): int {
    60000000000000000000000 * e.r2 + 20000000000000000000000 * e.r3
    + 5000000000000000000000 * e.r4 + 1000000000000000000000 * e.r5
    + 2000000000000000 * e.a1 + 50000000 * e.a2 + e.a3
    + 500000000000000 * e.b1 + 10000000 * e.b2 + 100000000000000 * e.c1
  }

  /** `x` is at least -`most` and at most `most`. */
  predicate Near(x: int, most: int) {
    -most <= x <= most
  }

  predicate Small(e: Rests) {
    && Near(e.r2, 20000000) && Near(e.r3, 60000000) && Near(e.r4, 240000000) && Near(e.r5, 1200000000)
    && Near(e.a1, 2000000000000000) && Near(e.a2, 400000000000000000000000)
    && Near(e.a3, 80000000000000000000000000000000)
    && Near(e.b1, 2000000000000000) && Near(e.b2, 400000000000000000000000) && Near(e.c1, 2000000000000000)
  }

  lemma ErrorWithin(e: Rests)
    requires Small(e)
    ensures Near(Error(e), 95 * UNIT)
  {
  }

  /** The series and the polynomial in terms of the same monomials. */
  lemma ErrorIs(x: int, square: int, ax: int, bx: int, cx: int, cube: int, fourth: int, fifth: int,
                t2: int, t3: int, t4: int, t5: int, e: Rests)
    requires square == 2 * PRECISION * t2 + e.r2 && ax == 6 * PRECISION * t3 + e.r3
    requires bx == 24 * PRECISION * t4 + e.r4 && cx == 120 * PRECISION * t5 + e.r5
    requires cube == ax * PRECISION + e.a1
    requires fourth == bx * (PRECISION * PRECISION) + e.b1 * PRECISION + e.a2
    requires fifth == cx * (PRECISION * PRECISION * PRECISION) + e.c1 * (PRECISION * PRECISION)
                      + e.b2 * PRECISION + e.a3
    ensures 12000000000000000000000000000000000000 + 1200000000000000000000000000000 * x
            + 60000000000000000000000 * square + 2000000000000000 * cube + 50000000 * fourth + fifth
            == UNIT * (PRECISION + x + t2 + t3 + t4 + t5) + Error(e)
  {
  }

  lemma RestsSmall(x: int, ra: int, rb: int, rc: int)
    requires Near(x, 20 * PRECISION) && Near(ra, PRECISION) && Near(rb, PRECISION) && Near(rc, PRECISION)
    ensures Near(ra * x, 2000000000000000) && Near(ra * x * x, 400000000000000000000000)
    ensures Near(ra * x * x * x, 80000000000000000000000000000000)
    ensures Near(rb * x, 2000000000000000) && Near(rb * x * x, 400000000000000000000000)
    ensures Near(rc * x, 2000000000000000)
  {
    AbsMul(ra, x, PRECISION, 20 * PRECISION);
    AbsMul(ra * x, x, 2000000000000000, 20 * PRECISION);
    AbsMul(ra * x * x, x, 400000000000000000000000, 20 * PRECISION);
    AbsMul(rb, x, PRECISION, 20 * PRECISION);
    AbsMul(rb * x, x, 2000000000000000, 20 * PRECISION);
    AbsMul(rc, x, PRECISION, 20 * PRECISION);
  }

  /** Within 20 of zero, the series is the polynomial less a small error. */
  lemma SeriesSplits(x: int) returns (e: Rests)
    requires Near(x, 200_000_000)
    ensures Small(e) && Taylor(x) == UNIT * Series(x) + Error(e)
  {
    var a := TruncDiv(x * x, PRECISION);
    var b := TruncDiv(a * x, PRECISION);
    var c := TruncDiv(b * x, PRECISION);
    var ra, rb, rc := x * x - a * PRECISION, a * x - b * PRECISION, b * x - c * PRECISION;
    var t2, t3 := TruncDiv(x * x, 2 * PRECISION), TruncDiv(a * x, 6 * PRECISION);
    var t4, t5 := TruncDiv(b * x, 24 * PRECISION), TruncDiv(c * x, 120 * PRECISION);
    CutRest(x * x, PRECISION);
    CutRest(a * x, PRECISION);
    CutRest(b * x, PRECISION);
    CutRest(x * x, 2 * PRECISION);
    CutRest(a * x, 6 * PRECISION);
    CutRest(b * x, 24 * PRECISION);
    CutRest(c * x, 120 * PRECISION);
    RestsSmall(x, ra, rb, rc);
    PowersSplit(x, a, b, c, ra, rb, rc);
    e := Rests(x * x - t2 * (2 * PRECISION), a * x - t3 * (6 * PRECISION), b * x - t4 * (24 * PRECISION),
               c * x - t5 * (120 * PRECISION), ra * x, ra * x * x, ra * x * x * x, rb * x, rb * x * x, rc * x);
    ErrorIs(x, x * x, a * x, b * x, c * x, x * x * x, x * x * x * x, x * x * x * x * x, t2, t3, t4, t5, e);
  }

  /** It is within 95 units of it. */
  lemma SeriesError(x: int)
    requires Near(x, 200_000_000)
    ensures Taylor(x) - 95 * UNIT <= UNIT * Series(x) <= Taylor(x) + 95 * UNIT
  {
    var e := SeriesSplits(x);
    ErrorWithin(e);
  }

  /** The exponential: exact at 0, at least one unit, and within 95 units of the polynomial inside its clamp. */
  lemma ExponentialWithin(arg: int)
    ensures ExpApprox(0) == 10_000_000 && 1 <= ExpApprox(arg)
    ensures var x := if arg < -200_000_000 then -200_000_000 else if arg > 200_000_000 then 200_000_000 else arg;
            if ExpApprox(arg) == 1 then Taylor(x) <= 96 * UNIT
            else Taylor(x) - 95 * UNIT <= UNIT * ExpApprox(arg) <= Taylor(x) + 95 * UNIT
  {
    var x := if arg < -200_000_000 then -200_000_000 else if arg > 200_000_000 then 200_000_000 else arg;
    ExpIsSeries(arg);
    ExpIsSeries(0);
    SeriesError(x);
  }

  // ------------------------------------------------------------------------ integrals

  /** ps[1] + ... + ps[n]. */
  ghost function Inner(ps: seq<int>, n: nat): int
    requires n < |ps|
  {
    if n == 0 then 0 else Inner(ps, n - 1) + ps[n]
  }

  /** `ps` are the prices at the start, at every step, and at the end. */
  ghost predicate ArePrices(ps: seq<int>, price: Price, start: int, end: int, delta: int) {
    && |ps| >= 2 && ps[|ps| - 1] == price(end)
    && forall k :: 0 <= k < |ps| - 1 ==> ps[k] == price(start + k * delta)
  }

  lemma {:induction false} InteriorIsInner(ps: seq<int>, price: Price, start: int, end: int, delta: int, n: nat)
    requires ArePrices(ps, price, start, end, delta) && n < |ps| - 1
    ensures Interior(price, start, delta, n) == Inner(ps, n) * delta
  {
    if n > 0 {
      InteriorIsInner(ps, price, start, end, delta, n - 1);
      Distribute(Inner(ps, n - 1), ps[n], delta);
    }
  }

  lemma DoubleTimes(x: int, d: int)
    ensures 2 * x * d == 2 * (x * d)
  {
  }

  /**
   The integral of any price over at least one token per step is the trapezoid sum,
   the two end prices counted half, up to two half units.
   */
  lemma TrapezoidLaw(price: Price, start: int, end: int, steps: nat, delta: int, ps: seq<int>)
    requires 0 < steps == |ps| - 1 && 0 < delta && delta * steps <= end - start < (delta + 1) * steps
    requires ArePrices(ps, price, start, end, delta)
    ensures var twice := (ps[0] + 2 * Inner(ps, steps - 1) + ps[steps]) * delta;
            twice - 2 <= 2 * Integrate(price, start, end, steps) <= twice + 2
  {
    QuotientIs(end - start, steps, delta);
    MulNonNegative(delta, steps);
    InteriorIsInner(ps, price, start, end, delta, steps - 1);
    assert price(start + 0 * delta) == ps[0];
    Distribute(ps[0] + 2 * Inner(ps, steps - 1), ps[steps], delta);
    Distribute(ps[0], 2 * Inner(ps, steps - 1), delta);
    DoubleTimes(Inner(ps, steps - 1), delta);
    assert delta * steps > 0;
  }

  /** Over fewer tokens than steps it is one trapezoid. */
  lemma ShortLaw(price: Price, start: int, end: int, steps: nat)
    requires start < end < start + steps
    ensures IsCut(Integrate(price, start, end, steps), (price(start) + price(end)) * (end - start), 2)
  {
    QuotientIs(end - start, steps, 0);
  }

  // -------------------------------------------------------------- linear curves in full

  /** What `n` inner steps of a linear curve add up to, twice and times 10^7, before the prices are cut. */
  function LinearInner(base: int, slope: int, start: int, delta: int, n: int): int {
    (20_000_000 * n * base + slope * (2 * n * start + n * (n + 1) * delta)) * delta
  }

  lemma LinearInnerStep(base: int, slope: int, start: int, delta: int, n: int)
    ensures LinearInner(base, slope, start, delta, n) ==
            LinearInner(base, slope, start, delta, n - 1)
            + (20_000_000 * base + slope * (2 * (start + n * delta))) * delta
  {
    var m := n - 1;
    assert n * (n + 1) == m * (m + 1) + 2 * n;
    assert n * (n + 1) * delta == m * (m + 1) * delta + 2 * n * delta;
    var u, v := 2 * m * start + m * (m + 1) * delta, 2 * (start + n * delta);
    assert 2 * n * start + n * (n + 1) * delta == u + v;
    Distribute(u, v, slope);
    Distribute(20_000_000 * m * base + slope * u, 20_000_000 * base + slope * v, delta);
  }

  lemma PriceTimes(base: int, slope: int, s: int, p: int, delta: int)
    requires IsCut(p - base, slope * s, 10_000_000) && 0 <= slope * s && 0 < delta
    ensures (20_000_000 * base + slope * (2 * s)) * delta - 20_000_000 * delta <= 20_000_000 * (p * delta)
    ensures 20_000_000 * (p * delta) <= (20_000_000 * base + slope * (2 * s)) * delta
  {
    var exact := 20_000_000 * base + slope * (2 * s);
    assert slope * (2 * s) == 2 * (slope * s);
    assert exact - 20_000_000 <= 20_000_000 * p <= exact;
    MulLe(exact - 20_000_000, 20_000_000 * p, delta);
    MulLe(20_000_000 * p, exact, delta);
    assert 20_000_000 * p * delta == 20_000_000 * (p * delta);
    assert (exact - 20_000_000) * delta == exact * delta - 20_000_000 * delta;
  }

  lemma {:induction false} LinearInterior(c: Pricing, price: Price, start: int, delta: int, n: nat)
    requires c.kind.Linear? && ValidPricing(c) && price == PriceOf(c) && 0 <= start && 0 < delta
    ensures var exact := LinearInner(c.basePrice, c.slope, start, delta, n);
            exact - 20_000_000 * (n * delta) <= 20_000_000 * Interior(price, start, delta, n) <= exact
  {
    if n > 0 {
      LinearInterior(c, price, start, delta, n - 1);
      LinearInnerStep(c.basePrice, c.slope, start, delta, n);
      var s := start + n * delta;
      MulNonNegative(n, delta);
      MulNonNegative(c.slope, s);
      LinearLaw(c, s);
      PriceTimes(c.basePrice, c.slope, s, price(s), delta);
      AddOne(n - 1, delta);
    }
  }

  /** Twice the exact trapezoid sum of a linear curve, times 10^7, over `a` tokens in 20 steps of `delta`. */
  function LinearExact(base: int, slope: int, start: int, delta: int, a: int): int {
    (400_000_000 * base + slope * (40 * start + 380 * delta + a)) * delta
  }

  lemma LinearExactIs(base: int, slope: int, start: int, delta: int, a: int)
    ensures 2 * LinearExact(base, slope, start, delta, a) ==
            2 * LinearInner(base, slope, start, delta, 19)
            + (20_000_000 * base + slope * (2 * start)) * delta
            + (20_000_000 * base + slope * (2 * (start + a))) * delta
  {
    var u, v, w := 38 * start + 380 * delta, 2 * start, 2 * (start + a);
    assert slope * (2 * u) + slope * v + slope * w == slope * (2 * u + v + w) by {
      Distribute(2 * u, v, slope);
      Distribute(2 * u + v, w, slope);
    }
    assert 2 * u + v + w == 2 * (40 * start + 380 * delta + a);
  }

  lemma HalfTimes(x: int)
    requires 0 <= x
    ensures 20_000_000 * x - 20_000_000 <= 40_000_000 * TruncDiv(x, 2) <= 20_000_000 * x
  {
  }

  /** The integral of a linear curve over at least one token per step. */
  lemma LinearIntegral(c: Pricing, price: Price, start: int, a: int, delta: int, steps: nat)
    requires c.kind.Linear? && ValidPricing(c) && price == PriceOf(c) && 0 <= start
    requires 0 < delta && delta * steps <= a < (delta + 1) * steps && steps == INTEGRATION_STEPS
    ensures var exact := LinearExact(c.basePrice, c.slope, start, delta, a);
            var total := Integrate(price, start, start + a, steps);
            exact - 20_000_000 * (20 * delta + 1) <= 20_000_000 * total <= exact
  {
    QuotientIs(a, steps, delta);
    var p, q := price(start), price(start + a);
    MulNonNegative(c.slope, start);
    MulNonNegative(c.slope, start + a);
    LinearLaw(c, start);
    LinearLaw(c, start + a);
    PriceTimes(c.basePrice, c.slope, start, p, delta);
    PriceTimes(c.basePrice, c.slope, start + a, q, delta);
    MulNonNegative(p, delta);
    MulNonNegative(q, delta);
    HalfTimes(p * delta);
    HalfTimes(q * delta);
    LinearInterior(c, price, start, delta, 19);
    LinearExactIs(c.basePrice, c.slope, start, delta, a);
  }

  lemma ShortExactIs(base: int, slope: int, start: int, a: int)
    ensures 2 * ((20_000_000 * base + slope * (2 * start + a)) * a) ==
            (20_000_000 * base + slope * (2 * start)) * a + (20_000_000 * base + slope * (2 * (start + a))) * a
  {
    Distribute(2 * start, 2 * (start + a), slope);
    Distribute(20_000_000 * base + slope * (2 * start), 20_000_000 * base + slope * (2 * (start + a)), a);
    assert slope * (2 * (2 * start + a)) == 2 * (slope * (2 * start + a));
  }

  /** The integral of a linear curve over fewer tokens than steps. */
  lemma ShortLinearIntegral(c: Pricing, price: Price, start: int, a: int, steps: nat)
    requires c.kind.Linear? && ValidPricing(c) && price == PriceOf(c) && 0 <= start && 0 < a < steps
    ensures var exact := (20_000_000 * c.basePrice + c.slope * (2 * start + a)) * a;
            var total := Integrate(price, start, start + a, steps);
            exact - 20_000_000 * (a + 1) <= 20_000_000 * total <= exact
  {
    var p, q := price(start), price(start + a);
    MulNonNegative(c.slope, start);
    MulNonNegative(c.slope, start + a);
    LinearLaw(c, start);
    LinearLaw(c, start + a);
    PriceTimes(c.basePrice, c.slope, start, p, a);
    PriceTimes(c.basePrice, c.slope, start + a, q, a);
    MulNonNegative(p, a);
    MulNonNegative(q, a);
    Distribute(p, q, a);
    HalfTimes((p + q) * a);
    ShortLaw(price, start, start + a, steps);
    CutUnique(Integrate(price, start, start + a, steps), (p + q) * a, 2);
    ShortExactIs(c.basePrice, c.slope, start, a);
  }

  /** `cost` is 1 / (2 * 10^14) of `exact`, cut to an integer, up to the cuts of the prices and half steps. */
  predicate Costs(cost: int, exact: int, cuts: int) {
    200_000_000_000_000 * cost <= exact < 200_000_000_000_000 * (cost + 1) + 20_000_000 * cuts
  }

  lemma CostFrom(total: int, exact: int, cuts: int)
    requires 0 <= total && exact - 20_000_000 * cuts <= 20_000_000 * total <= exact
    ensures Costs(TruncDiv(total, PRECISION), exact, cuts)
  {
  }

  /** No rising curve integrates to a negative amount. */
  lemma IntegralNonNegative(price: Price, start: int, end: int, steps: nat)
    requires Rising(price) && 0 <= start < end && 0 < steps
    ensures 0 <= Integrate(price, start, end, steps)
  {
    var p, q, delta := price(start), price(end), TruncDiv(end - start, steps);
    if steps <= end - start {
      StepWidth(end - start, steps);
      InteriorBounds(price, start, end, delta, steps - 1);
      MulNonNegative(p, delta);
      MulNonNegative(q, delta);
      MulNonNegative(steps - 1, p * delta);
    } else {
      ShortRangeBound(price, start, end, steps);
      MulNonNegative(p, end - start);
    }
  }

  /**
   What a linear curve charges for `a` tokens, and pays for them when they are sold
   back, in base price, slope, supply and amount alone.
   */
  lemma LinearCost(c: Curve, a: int, delta: int)
    requires c.pricing.kind.Linear? && ValidPricing(c.pricing) && 0 <= c.supply && 0 < a
    requires 20 * delta <= a < 20 * (delta + 1)
    ensures var p := c.pricing;
            if a < 20
            then Costs(CostToBuy(c, a), (20_000_000 * p.basePrice + p.slope * (2 * c.supply + a)) * a, a + 1)
            else Costs(CostToBuy(c, a), LinearExact(p.basePrice, p.slope, c.supply, delta, a), 20 * delta + 1)
  {
    var price, steps := PriceOf(c.pricing), INTEGRATION_STEPS;
    CurvesRise(c.pricing);
    IntegralNonNegative(price, c.supply, c.supply + a, steps);
    if a < 20 {
      ShortLinearIntegral(c.pricing, price, c.supply, a, steps);
      CostFrom(Integrate(price, c.supply, c.supply + a, steps),
               (20_000_000 * c.pricing.basePrice + c.pricing.slope * (2 * c.supply + a)) * a, a + 1);
    } else {
      LinearIntegral(c.pricing, price, c.supply, a, delta, steps);
      CostFrom(Integrate(price, c.supply, c.supply + a, steps),
               LinearExact(c.pricing.basePrice, c.pricing.slope, c.supply, delta, a), 20 * delta + 1);
    }
  }

  /** A sale of what a purchase brought the supply to is priced by the same law. */
  lemma SaleCost(c: Curve, a: int)
    ensures ReturnOnSell(c, a) == CostToBuy(c.(supply := c.supply - a), a)
  {
  }

  // -------------------------------------------------------------------------- answers

  /** What the contract holds of the tip token once the collateral is paid in. */
  function Available(l: Ledger, c: Curve, paidIn: int): int {
    Get(l.held, c.tipToken, 0) + if c.tipToken == c.reserveToken then paidIn else 0
  }

  lemma SettleBuyDecides(l: Ledger, id: nat, amount: int, base: int, fee: int)
    requires id in l.curves
    ensures var r := SettleBuy(l, id, amount, base, fee);
            if Available(l, l.curves[id], base + fee) < amount then r == Err(TransferFailed)
            else r.Ok? && r.value.collateral == base + fee && r.value.fee == fee
  {
  }

  /** The answer of `buy`: the first condition that fails, or collateral and fee, with the fee cut to an integer. */
  lemma BuyDecides(l: Ledger, id: nat, amount: int, maxCollateral: int, tokenOk: bool, base: int, fee: int)
    requires id in l.curves ==>
               base == CostToBuy(l.curves[id], amount) && IsCut(fee, base * l.curves[id].buyFeeBps, 10_000)
    ensures var r := Buy(l, id, amount, maxCollateral, tokenOk);
            if amount < 1 then r == Err(InvalidAmount)
            else if id !in l.curves then r == Err(NotFound)
            else if !l.curves[id].active then r == Err(Inactive)
            else if base <= 0 then r == Err(PriceCalculationFailed)
            else if base + fee > maxCollateral then r == Err(SlippageExceeded)
            else if !tokenOk || Available(l, l.curves[id], base + fee) < amount then r == Err(TransferFailed)
            else r.Ok? && r.value.collateral == base + fee && r.value.fee == fee
  {
    if id in l.curves {
      CutUnique(fee, base * l.curves[id].buyFeeBps, 10_000);
      if amount >= 1 && l.curves[id].active && base > 0 && base + fee <= maxCollateral && tokenOk {
        SettleBuyDecides(l, id, amount, base, fee);
      }
    }
  }

  /** The answer of `sell` on a ledger that covers its curves. */
  lemma SellDecides(l: Ledger, id: nat, amount: int, minCollateral: int, tokenOk: bool, base: int, fee: int)
    requires Good(l)
    requires id in l.curves ==>
               base == ReturnOnSell(l.curves[id], amount) && IsCut(fee, base * l.curves[id].sellFeeBps, 10_000)
    ensures var r := Sell(l, id, amount, minCollateral, tokenOk);
            if amount < 1 then r == Err(InvalidAmount)
            else if id !in l.curves then r == Err(NotFound)
            else if !l.curves[id].active then r == Err(Inactive)
            else if amount > l.curves[id].supply then r == Err(InsufficientSupply)
            else if base <= 0 then r == Err(PriceCalculationFailed)
            else if base - fee < minCollateral then r == Err(SlippageExceeded)
            else if base > l.curves[id].reserve then r == Err(InsufficientReserve)
            else if !tokenOk then r == Err(TransferFailed)
            else r.Ok? && r.value.collateral == base - fee && r.value.fee == fee
  {
    SellKeeps(l, id, amount, minCollateral, tokenOk);
    if id in l.curves {
      CutUnique(fee, base * l.curves[id].sellFeeBps, 10_000);
    }
  }

  /** The ledger with one curve's fees replaced. */
  function WithFees(l: Ledger, id: nat, buyFeeBps: nat, sellFeeBps: nat): Ledger
    requires id in l.curves
  {
    l.(curves := l.curves[id := l.curves[id].(buyFeeBps := buyFeeBps, sellFeeBps := sellFeeBps)])
  }

  /** Fees change for the creator alone, within 10%, and nothing else does. */
  lemma UpdateFeesDecides(l: Ledger, caller: Address, id: nat, buyFeeBps: nat, sellFeeBps: nat)
    ensures var r := UpdateFees(l, caller, id, buyFeeBps, sellFeeBps);
            if buyFeeBps > 1000 || sellFeeBps > 1000 then r == Err(FeeTooHigh)
            else if id !in l.curves then r == Err(NotFound)
            else if l.curves[id].creator != caller then r == Err(Unauthorized)
            else r.Ok? && r.value == WithFees(l, id, buyFeeBps, sellFeeBps)
  {
  }

  /** The creator takes all collected fees, once, and nothing when there are none. */
  lemma WithdrawFeesDecides(l: Ledger, caller: Address, id: nat)
    requires Good(l)
    ensures var r := WithdrawFees(l, caller, id);
            if id !in l.curves then r == Err(NotFound)
            else if l.curves[id].creator != caller then r == Err(Unauthorized)
            else if l.curves[id].fees <= 0 then r == Err(NoFees)
            else
              && r.Ok? && r.value.collateral == l.curves[id].fees
              && r.value.ledger.curves == l.curves[id := l.curves[id].(fees := 0)]
              && Get(r.value.ledger.held, l.curves[id].reserveToken, 0) ==
                 Get(l.held, l.curves[id].reserveToken, 0) - l.curves[id].fees
  {
    WithdrawFeesKeeps(l, caller, id);
  }

  /** An active curve is deactivated by its creator, and then neither bought from nor sold to. */
  lemma DeactivateDecides(l: Ledger, caller: Address, id: nat, amount: int, limit: int, tokenOk: bool)
    requires 1 <= amount
    ensures var r := Deactivate(l, caller, id);
            && (r.Ok? <==> id in l.curves && l.curves[id].creator == caller && l.curves[id].active)
            && (r.Ok? ==>
                  && Buy(r.value, id, amount, limit, tokenOk) == Err(Inactive)
                  && Sell(r.value, id, amount, limit, tokenOk) == Err(Inactive))
  {
  }

  /** A new curve needs positive and consistent parameters, fees within 10% and a deposit that is not negative. */
  lemma CreateDecides(l: Ledger, id: nat, c: Curve, initialReserve: int)
    ensures var r, p := Create(l, id, c, initialReserve), c.pricing;
            && (r.Ok? <==>
                  && p.basePrice > 0 && c.buyFeeBps <= 1000 && c.sellFeeBps <= 1000 && initialReserve >= 0
                  && (p.kind.Linear? ==> p.slope >= 0) && (p.kind.Exponential? ==> p.slope > 0)
                  && (p.kind.Sigmoid? ==> p.k > 0 && p.maxPrice > 0 && p.midpoint >= 0))
            && (r.Ok? ==>
                  && id in r.value.curves
                  && r.value.curves[id] == Curve(c.creator, c.tipToken, c.reserveToken, p, 0, initialReserve,
                                                 c.buyFeeBps, c.sellFeeBps, 0, true)
                  && (forall j :: j in l.curves && j != id ==> j in r.value.curves && r.value.curves[j] == l.curves[j]))
  {
  }
}
