/**
 Bonding curves: integer pricing formulas, a trapezoid integral of the price, and
 the reserve ledger that buys and sells move along the curve.
 */
module BondingCurve {
  import opened Host
  import opened Arithmetic

  const PRECISION: int := 10_000_000
  const MAX_FEE_BPS: nat := 1000
  const INTEGRATION_STEPS: nat := 20

  datatype CurveType = Linear | Exponential | Sigmoid

  /** The parameters of the pricing formula; they never change. */
  datatype Pricing = Pricing(
    kind: CurveType,
    basePrice: int,
    slope: int,
    k: int,
    midpoint: int,
    maxPrice: int)

  datatype Curve = Curve(
    creator: Address,
    tipToken: Address,
    reserveToken: Address,
    pricing: Pricing,
    supply: int,
    reserve: int,
    buyFeeBps: nat,
    sellFeeBps: nat,
    fees: int,
    active: bool)

  /** `validate_params`, but for the fee caps. */
  predicate ValidPricing(c: Pricing) {
    && c.basePrice > 0
    && (match c.kind
        case Linear => c.slope >= 0
        case Exponential => c.slope > 0
        case Sigmoid => c.k > 0 && c.maxPrice > 0 && c.midpoint >= 0)
  }

  // ----------------------------------------------------------------------- pricing

  function Clamp(x: int): int {
    if x < -20 * PRECISION then -20 * PRECISION else if x > 20 * PRECISION then 20 * PRECISION else x
  }

  /** A five-term Taylor series for e^x in fixed point, at least 1. */
  function ExpApprox(arg: int): (e: int)
    ensures e >= 1
  {
    var x := Clamp(arg);
    var x2 := TruncDiv(x * x, PRECISION);
    var x3 := TruncDiv(x2 * x, PRECISION);
    var x4 := TruncDiv(x3 * x, PRECISION);
    var result := PRECISION + x + TruncDiv(x * x, 2 * PRECISION) + TruncDiv(x2 * x, 6 * PRECISION)
                  + TruncDiv(x3 * x, 24 * PRECISION) + TruncDiv(x4 * x, 120 * PRECISION);
    if result < 1 then 1 else result
  }

  function SigmoidApprox(x: int): int {
    TruncDiv(ExpApprox(x) * PRECISION, PRECISION + ExpApprox(x))
  }

  function SpotPrice(c: Pricing, supply: int): int {
    match c.kind
    case Linear => c.basePrice + TruncDiv(c.slope * supply, PRECISION)
    case Exponential => TruncDiv(c.basePrice * ExpApprox(TruncDiv(c.slope * supply, PRECISION)), PRECISION)
    case Sigmoid => TruncDiv(c.maxPrice * SigmoidApprox(TruncDiv(c.k * (supply - c.midpoint), PRECISION)), PRECISION)
  }

  /** A quotient of products of non-negative factors grows with the factors. */
  lemma TermMonotone(a: int, b: int, x: int, y: int, d: int)
    requires 0 <= a <= b && 0 <= x <= y && 0 < d
    ensures 0 <= TruncDiv(a * x, d) <= TruncDiv(b * y, d)
  {
    MulLeBoth(a, b, x, y);
    DivNonNegative(a * x, d);
    DivLe(a * x, b * y, d);
  }

  lemma ExpMonotone(x: int, y: int)
    requires 0 <= x <= y
    ensures PRECISION <= ExpApprox(x) <= ExpApprox(y)
  {
    var u, v := Clamp(x), Clamp(y);
    TermMonotone(u, v, u, v, PRECISION);
    TermMonotone(u, v, u, v, 2 * PRECISION);
    var u2, v2 := TruncDiv(u * u, PRECISION), TruncDiv(v * v, PRECISION);
    TermMonotone(u2, v2, u, v, PRECISION);
    TermMonotone(u2, v2, u, v, 6 * PRECISION);
    var u3, v3 := TruncDiv(u2 * u, PRECISION), TruncDiv(v2 * v, PRECISION);
    TermMonotone(u3, v3, u, v, PRECISION);
    TermMonotone(u3, v3, u, v, 24 * PRECISION);
    var u4, v4 := TruncDiv(u3 * u, PRECISION), TruncDiv(v3 * v, PRECISION);
    TermMonotone(u4, v4, u, v, 120 * PRECISION);
  }

  /** Linear and exponential prices are positive and never fall as supply grows. */
  lemma PriceMonotone(c: Pricing, s: int, t: int)
    requires ValidPricing(c) && !c.kind.Sigmoid? && 0 <= s <= t
    ensures 0 < SpotPrice(c, s) <= SpotPrice(c, t)
  {
    TermMonotone(c.slope, c.slope, s, t, PRECISION);
    if c.kind.Exponential? {
      var x, y := TruncDiv(c.slope * s, PRECISION), TruncDiv(c.slope * t, PRECISION);
      ExpMonotone(x, y);
      TermMonotone(c.basePrice, c.basePrice, ExpApprox(x), ExpApprox(y), PRECISION);
      TermMonotone(c.basePrice, c.basePrice, PRECISION, ExpApprox(x), PRECISION);
      DivAddMultiple(0, c.basePrice, PRECISION);
      assert TruncDiv(c.basePrice * PRECISION, PRECISION) == c.basePrice;
    }
  }

  /** Sigmoid prices stay within [0, max_price]. */
  lemma SigmoidWithin(c: Pricing, supply: int)
    requires ValidPricing(c) && c.kind.Sigmoid?
    ensures 0 <= SpotPrice(c, supply) <= c.maxPrice
  {
    var z := TruncDiv(c.k * (supply - c.midpoint), PRECISION);
    var e := ExpApprox(z);
    assert e * PRECISION == PRECISION * e;
    ShareAtMost(PRECISION, e, PRECISION + e);
    MulNonNegative(PRECISION, e);
    ShareAtMost(c.maxPrice, SigmoidApprox(z), PRECISION);
    MulNonNegative(c.maxPrice, SigmoidApprox(z));
  }

  /** Every valid curve prices every non-negative supply at 0 or more. */
  lemma PriceNonNegative(c: Pricing, s: int)
    requires ValidPricing(c) && 0 <= s
    ensures 0 <= SpotPrice(c, s)
  {
    if c.kind.Sigmoid? {
      SigmoidWithin(c, s);
    } else {
      PriceMonotone(c, s, s);
    }
  }

  // -------------------------------------------------------------------- integration

  type Price = int -> int

  /** The interior points of the trapezoid rule. */
  function Interior(price: Price, start: int, delta: int, n: nat): int {
    if n == 0 then 0 else Interior(price, start, delta, n - 1) + price(start + n * delta) * delta
  }

  function Integrate(price: Price, start: int, end: int, steps: nat): int {
    if start >= end || steps == 0 then 0 else
      var delta := TruncDiv(end - start, steps);
      if delta == 0 then TruncDiv((price(start) + price(end)) * (end - start), 2) else
        TruncDiv(price(start) * delta, 2) + Interior(price, start, delta, steps - 1) + TruncDiv(price(end) * delta, 2)
  }

  lemma AddOne(n: int, x: int)
    ensures (n + 1) * x == n * x + x
  {
  }

  method IntegratePrice(price: Price, start: int, end: int, steps: nat) returns (total: int)
    ensures total == Integrate(price, start, end, steps)
  {
    if start >= end || steps == 0 {
      return 0;
    }
    var delta := TruncDiv(end - start, steps);
    if delta == 0 {
      var p0, p1 := price(start), price(end);
      return TruncDiv((p0 + p1) * (end - start), 2);
    }
    var first := TruncDiv(price(start) * delta, 2);
    total := first;
    var s := start;
    for i := 1 to steps
      invariant s == start + (i - 1) * delta
      invariant total == first + Interior(price, start, delta, i - 1)
    {
      AddOne(i - 1, delta);
      s := s + delta;
      total := total + price(s) * delta;
    }
    total := total + TruncDiv(price(end) * delta, 2);
  }

  /** Prices at non-negative supplies are non-negative and never fall. */
  ghost predicate Rising(price: Price) {
    forall s, t :: 0 <= s <= t ==> 0 <= price(s) <= price(t)
  }

  lemma {:induction false} InteriorBounds(price: Price, start: int, end: int, delta: int, n: nat)
    requires Rising(price) && 0 <= start && 0 < delta && start + n * delta <= end
    ensures n * (price(start) * delta) <= Interior(price, start, delta, n) <= n * (price(end) * delta)
  {
    if n > 0 {
      AddOne(n - 1, delta);
      MulNonNegative(n, delta);
      InteriorBounds(price, start, end, delta, n - 1);
      var s := start + n * delta;
      assert price(start) <= price(s) <= price(end);
      MulLe(price(start), price(s), delta);
      MulLe(price(s), price(end), delta);
      AddOne(n - 1, price(start) * delta);
      AddOne(n - 1, price(end) * delta);
    }
  }

  lemma HalfBounds(x: int)
    requires 0 <= x
    ensures x - 1 <= 2 * TruncDiv(x, 2) <= x
  {
  }

  lemma Regroup(p: int, n: int, d: int)
    ensures n * (p * d) == p * (n * d)
  {
  }

  /** At least one token per step: the step width, and how much of the range it covers. */
  lemma StepWidth(range: int, steps: nat)
    requires 0 < steps <= range
    ensures var delta := TruncDiv(range, steps); 0 < delta && 0 <= (steps - 1) * delta && steps * delta <= range
                                                 && (steps - 1) * delta + delta == steps * delta
  {
    var delta := TruncDiv(range, steps);
    assert delta > 0 by {
      if delta <= 0 {
        MulLe(delta + 1, 1, steps);
      }
    }
    AddOne(steps - 1, delta);
    MulNonNegative(steps - 1, delta);
    assert steps * delta == delta * steps;
  }

  lemma HalvesAddUp(p: int, q: int, steps: nat, delta: int, interior: int)
    requires 0 <= p <= q && 0 < delta && 0 < steps
    requires (steps - 1) * (p * delta) <= interior <= (steps - 1) * (q * delta)
    ensures var total := TruncDiv(p * delta, 2) + interior + TruncDiv(q * delta, 2);
            p * (steps * delta) - 1 <= total <= q * (steps * delta)
  {
    MulLe(p, q, delta);
    MulNonNegative(p, delta);
    HalfBounds(p * delta);
    HalfBounds(q * delta);
    AddOne(steps - 1, p * delta);
    AddOne(steps - 1, q * delta);
    Regroup(p, steps, delta);
    Regroup(q, steps, delta);
  }

  /**
   The trapezoid bound: with at least one token per step, the integral is, up to
   one unit, at least the starting price times the range covered by whole steps,
   and at most the final price times the whole range.
   */
  lemma TrapezoidBound(price: Price, start: int, end: int, steps: nat)
    requires Rising(price) && 0 <= start && 0 < steps <= end - start
    ensures var delta := TruncDiv(end - start, steps);
            && price(start) * (steps * delta) - 1 <= Integrate(price, start, end, steps)
            && Integrate(price, start, end, steps) <= price(end) * (end - start)
  {
    var delta := TruncDiv(end - start, steps);
    var p, q := price(start), price(end);
    StepWidth(end - start, steps);
    InteriorBounds(price, start, end, delta, steps - 1);
    HalvesAddUp(p, q, steps, delta, Interior(price, start, delta, steps - 1));
    assert q * (steps * delta) == (steps * delta) * q && q * (end - start) == (end - start) * q;
    MulLe(steps * delta, end - start, q);
  }

  /** A range shorter than the number of steps is one trapezoid, between the two end prices. */
  lemma ShortRangeBound(price: Price, start: int, end: int, steps: nat)
    requires Rising(price) && 0 <= start < end < start + steps
    ensures price(start) * (end - start) <= Integrate(price, start, end, steps) <= price(end) * (end - start)
  {
    var a, p, q := end - start, price(start), price(end);
    QuotientIs(a, steps, 0);
    MulLe(p, q, a);
    MulNonNegative(p, a);
    assert (p + q) * a == p * a + q * a;
    DivLe(2 * (p * a), (p + q) * a, 2);
    DivLe((p + q) * a, 2 * (q * a), 2);
  }

  function PriceOf(c: Pricing): Price {
    (s: int) => SpotPrice(c, s)
  }

  /** The bounds apply to every valid linear and exponential curve. */
  lemma CurvesRise(c: Pricing)
    requires ValidPricing(c) && !c.kind.Sigmoid?
    ensures Rising(PriceOf(c))
  {
    forall s, t | 0 <= s <= t ensures 0 <= PriceOf(c)(s) <= PriceOf(c)(t) {
      PriceMonotone(c, s, t);
    }
  }

  /** The trapezoid bound of every such curve, between its two spot prices. */
  lemma CurveIntegralBounds(c: Pricing, price: Price, start: int, end: int, steps: nat)
    requires ValidPricing(c) && !c.kind.Sigmoid? && price == PriceOf(c)
    requires 0 <= start && 0 < steps <= end - start
    ensures SpotPrice(c, start) * (steps * TruncDiv(end - start, steps)) - 1 <= Integrate(price, start, end, steps)
    ensures Integrate(price, start, end, steps) <= SpotPrice(c, end) * (end - start)
  {
    CurvesRise(c);
    TrapezoidBound(price, start, end, steps);
    assert price(start) == SpotPrice(c, start) && price(end) == SpotPrice(c, end);
  }

  // ------------------------------------------------------------------ 128-bit range

  /** Each product that forms the price at `s` fits. */
  predicate PriceFits(c: Pricing, s: int) {
    match c.kind
    case Linear => FitsI128(c.slope * s) && FitsI128(SpotPrice(c, s))
    case Exponential => FitsI128(c.slope * s) && FitsI128(c.basePrice * ExpApprox(TruncDiv(c.slope * s, PRECISION)))
    case Sigmoid =>
      var z := c.k * (s - c.midpoint);
      FitsI128(s - c.midpoint) && FitsI128(z) && FitsI128(c.maxPrice * SigmoidApprox(TruncDiv(z, PRECISION)))
  }

  /** Every price between the two supplies fits, and so does twice the dearest of them for the whole range. */
  ghost predicate TradeFits(c: Pricing, from: int, to: int) {
    && to <= I128_MAX
    && forall s {:trigger PriceFits(c, s)} {:trigger SpotPrice(c, s)} :: from <= s <= to ==>
         PriceFits(c, s) && SpotPrice(c, s) * (2 * (to - from)) <= I128_MAX
  }

  /** Prices at the supplies of a range of `range` tokens are non-negative and at most MAX / (2 * range). */
  ghost predicate Cheap(price: Price, start: int, end: int, range: int) {
    forall s :: start <= s <= end ==> 0 <= price(s) && price(s) * (2 * range) <= I128_MAX
  }

  lemma TermFits(p: int, delta: int, range: int)
    requires 0 <= p && p * (2 * range) <= I128_MAX && 0 <= delta <= range
    ensures 0 <= p * delta && p * delta * (2 * range) <= delta * I128_MAX && 2 * (p * delta) <= I128_MAX
  {
    MulNonNegative(p, delta);
    MulLe(p * (2 * range), I128_MAX, delta);
    assert p * delta * (2 * range) == p * (2 * range) * delta;
    assert p * delta == delta * p && p * range == range * p && p * (2 * range) == 2 * (p * range);
    MulLe(delta, range, p);
  }

  lemma {:induction false} InteriorFits(price: Price, start: int, end: int, delta: int, n: nat, range: int)
    requires Cheap(price, start, end, range) && 0 < delta <= range && start + n * delta <= end
    ensures 0 <= Interior(price, start, delta, n)
    ensures Interior(price, start, delta, n) * (2 * range) <= n * delta * I128_MAX
  {
    if n > 0 {
      AddOne(n - 1, delta);
      MulNonNegative(n, delta);
      MulNonNegative(n - 1, delta);
      InteriorFits(price, start, end, delta, n - 1, range);
      var p := price(start + n * delta);
      TermFits(p, delta, range);
      Distribute(Interior(price, start, delta, n - 1), p * delta, 2 * range);
      Distribute((n - 1) * delta, delta, I128_MAX);
    }
  }

  lemma HalfOf(x: int, covered: int, range: int, most: int)
    requires 0 < range && 0 <= most && covered <= range && x * (2 * range) <= covered * most
    ensures 2 * x <= most
  {
    MulLe(covered, range, most);
    assert x * (2 * range) == (2 * x) * range && range * most == most * range;
    if 2 * x > most {
      MulLe(most + 1, 2 * x, range);
      AddOne(most, range);
    }
  }

  /** Within range, no sum the loop forms leaves 128 bits, from the first half step to the last. */
  lemma LoopFits(price: Price, start: int, end: int, steps: nat, n: nat)
    requires n < steps <= end - start && Cheap(price, start, end, end - start)
    ensures var delta := TruncDiv(end - start, steps);
            var sum := TruncDiv(price(start) * delta, 2) + Interior(price, start, delta, n);
            0 <= sum && sum + TruncDiv(price(end) * delta, 2) <= I128_MAX
  {
    var range, delta := end - start, TruncDiv(end - start, steps);
    StepWidth(range, steps);
    MulLe(n, steps - 1, delta);
    MulLe(1, steps, delta);
    InteriorFits(price, start, end, delta, n, range);
    HalfOf(Interior(price, start, delta, n), n * delta, range, I128_MAX);
    TermFits(price(start), delta, range);
    TermFits(price(end), delta, range);
  }

  lemma IntegralFits(price: Price, start: int, end: int, steps: nat)
    requires start < end && 0 < steps && Cheap(price, start, end, end - start)
    ensures 0 <= Integrate(price, start, end, steps) <= I128_MAX
  {
    var range := end - start;
    if steps <= range {
      StepWidth(range, steps);
      LoopFits(price, start, end, steps, steps - 1);
      TermFits(price(end), TruncDiv(range, steps), range);
    } else {
      QuotientIs(range, steps, 0);
      TermFits(price(start), range, range);
      TermFits(price(end), range, range);
      Distribute(price(start), price(end), range);
    }
  }

  lemma PricesCheap(c: Pricing, price: Price, from: int, to: int)
    requires ValidPricing(c) && price == PriceOf(c) && 0 <= from < to && TradeFits(c, from, to)
    ensures Cheap(price, from, to, to - from)
  {
    forall s | from <= s <= to ensures 0 <= price(s) && price(s) * (2 * (to - from)) <= I128_MAX {
      PriceNonNegative(c, s);
      assert PriceFits(c, s) && price(s) == SpotPrice(c, s);
    }
  }

  lemma FeeFits(total: int, bps: nat)
    requires 0 <= total <= I128_MAX && bps <= MAX_FEE_BPS
    ensures 0 <= TruncDiv(total, PRECISION) * bps <= I128_MAX
  {
    var base := TruncDiv(total, PRECISION);
    MulLeBoth(base, base, bps, MAX_FEE_BPS);
    MulNonNegative(base, bps);
  }

  /**
   Within range, a whole trade is priced and charged without leaving 128 bits:
   the source computes what is modelled.
   */
  lemma TradeFitsExactly(c: Pricing, price: Price, from: int, to: int, steps: nat, bps: nat)
    requires ValidPricing(c) && price == PriceOf(c) && 0 <= from < to && 0 < steps && bps <= MAX_FEE_BPS
    requires TradeFits(c, from, to)
    ensures 0 <= Integrate(price, from, to, steps) <= I128_MAX
    ensures 0 <= TruncDiv(Integrate(price, from, to, steps), PRECISION) * bps <= I128_MAX
  {
    PricesCheap(c, price, from, to);
    IntegralFits(price, from, to, steps);
    FeeFits(Integrate(price, from, to, steps), bps);
  }

  // -------------------------------------------------------------------------- trades

  function CostToBuy(c: Curve, amount: int): int {
    TruncDiv(Integrate(PriceOf(c.pricing), c.supply, c.supply + amount, INTEGRATION_STEPS), PRECISION)
  }

  function ReturnOnSell(c: Curve, amount: int): int {
    TruncDiv(Integrate(PriceOf(c.pricing), c.supply - amount, c.supply, INTEGRATION_STEPS), PRECISION)
  }

  function Fee(base: int, bps: nat): int {
    TruncDiv(base * bps, 10_000)
  }

  lemma FeeWithin(base: int, bps: nat)
    requires 0 <= base && bps <= MAX_FEE_BPS
    ensures 0 <= Fee(base, bps) <= base
  {
    MulNonNegative(base, bps);
    ShareAtMost(base, bps, 10_000);
  }

  /** `held` is what the contract holds per token. */
  datatype Ledger = Ledger(curves: map<nat, Curve>, held: map<Address, int>)

  datatype Error = InvalidAmount | NotFound | Inactive | PriceCalculationFailed | SlippageExceeded
                 | InsufficientSupply | InsufficientReserve | FeeTooHigh | Unauthorized | NoFees | TransferFailed

  type Result<T> = Outcome<T, Error>

  datatype Trade = Trade(ledger: Ledger, collateral: int, fee: int)

  /** Collateral in, tip tokens out, and the curve moved up. */
  function SettleBuy(l: Ledger, id: nat, amount: int, base: int, fee: int): Result<Trade>
    requires id in l.curves
  {
    var c := l.curves[id];
    var held :- TransferOut(TransferIn(l.held, c.reserveToken, base + fee), c.tipToken, amount, TransferFailed);
    var next := c.(supply := c.supply + amount, reserve := c.reserve + base, fees := c.fees + fee);
    Ok(Trade(Ledger(l.curves[id := next], held), base + fee, fee))
  }

  /** `tokenOk`: the token contract accepts the transfer from the trader. */
  function Buy(l: Ledger, id: nat, amount: int, maxCollateral: int, tokenOk: bool): Result<Trade> {
    if amount < 1 then Err(InvalidAmount) else
    :- Need(id in l.curves, NotFound);
    var c := l.curves[id];
    :- Need(c.active, Inactive);
    var base := CostToBuy(c, amount);
    :- Need(base > 0, PriceCalculationFailed);
    var fee := Fee(base, c.buyFeeBps);
    :- Need(base + fee <= maxCollateral, SlippageExceeded);
    :- Need(tokenOk, TransferFailed);
    SettleBuy(l, id, amount, base, fee)
  }

  /** Tip tokens in, collateral out, and the curve moved down. */
  function SettleSell(l: Ledger, id: nat, amount: int, base: int, fee: int): Result<Trade>
    requires id in l.curves
  {
    var c := l.curves[id];
    var held :- TransferOut(TransferIn(l.held, c.tipToken, amount), c.reserveToken, base - fee, TransferFailed);
    var next := c.(supply := c.supply - amount, reserve := c.reserve - base, fees := c.fees + fee);
    Ok(Trade(Ledger(l.curves[id := next], held), base - fee, fee))
  }

  function Sell(l: Ledger, id: nat, amount: int, minCollateral: int, tokenOk: bool): Result<Trade> {
    if amount < 1 then Err(InvalidAmount) else
    :- Need(id in l.curves, NotFound);
    var c := l.curves[id];
    :- Need(c.active, Inactive);
    :- Need(amount <= c.supply, InsufficientSupply);
    var base := ReturnOnSell(c, amount);
    :- Need(base > 0, PriceCalculationFailed);
    var fee := Fee(base, c.sellFeeBps);
    :- Need(base - fee >= minCollateral, SlippageExceeded);
    :- Need(base <= c.reserve, InsufficientReserve);
    :- Need(tokenOk, TransferFailed);
    SettleSell(l, id, amount, base, fee)
  }

  function UpdateFees(l: Ledger, caller: Address, id: nat, buyFeeBps: nat, sellFeeBps: nat): Result<Ledger> {
    if buyFeeBps > MAX_FEE_BPS || sellFeeBps > MAX_FEE_BPS then Err(FeeTooHigh) else
    :- Need(id in l.curves, NotFound);
    var c := l.curves[id];
    :- Need(c.creator == caller, Unauthorized);
    Ok(l.(curves := l.curves[id := c.(buyFeeBps := buyFeeBps, sellFeeBps := sellFeeBps)]))
  }

  function WithdrawFees(l: Ledger, caller: Address, id: nat): Result<Trade> {
    if id !in l.curves then Err(NotFound) else
    var c := l.curves[id];
    :- Need(c.creator == caller, Unauthorized);
    :- Need(c.fees > 0, NoFees);
    var held :- TransferOut(l.held, c.reserveToken, c.fees, TransferFailed);
    Ok(Trade(Ledger(l.curves[id := c.(fees := 0)], held), c.fees, 0))
  }

  function Deactivate(l: Ledger, caller: Address, id: nat): Result<Ledger> {
    if id !in l.curves then Err(NotFound) else
    var c := l.curves[id];
    :- Need(c.creator == caller, Unauthorized);
    :- Need(c.active, Inactive);
    Ok(l.(curves := l.curves[id := c.(active := false)]))
  }

  // ----------------------------------------------------------------------- invariant

  function Backing(c: Curve): int {
    c.reserve + c.fees
  }

  ghost function BackingMap(curves: map<nat, Curve>, token: Address): map<nat, int> {
    map id | id in curves && curves[id].reserveToken == token :: Backing(curves[id])
  }

  ghost function Owed(curves: map<nat, Curve>, token: Address): int {
    Sum(BackingMap(curves, token))
  }

  /** What is held in a token beyond the reserves and fees of the curves that use it as reserve token. */
  ghost function Slack(l: Ledger, token: Address): int {
    Get(l.held, token, 0) - Owed(l.curves, token)
  }

  predicate CurveGood(c: Curve) {
    && ValidPricing(c.pricing) && c.buyFeeBps <= MAX_FEE_BPS && c.sellFeeBps <= MAX_FEE_BPS
    && 0 <= c.supply && 0 <= c.reserve && 0 <= c.fees
  }

  ghost predicate IsReserveToken(curves: map<nat, Curve>, token: Address) {
    exists id :: id in curves && curves[id].reserveToken == token
  }

  /** Holdings cover reserves and fees in every reserve token. */
  ghost predicate Backed(l: Ledger) {
    forall t :: IsReserveToken(l.curves, t) ==> 0 <= Slack(l, t)
  }

  ghost predicate Good(l: Ledger) {
    (forall id :: id in l.curves ==> CurveGood(l.curves[id])) && Backed(l)
  }

  /** One curve's backing is covered by what its reserve token owes. */
  lemma BackingCovered(l: Ledger, id: nat)
    requires Good(l) && id in l.curves
    ensures Backing(l.curves[id]) <= Get(l.held, l.curves[id].reserveToken, 0)
  {
    var t := l.curves[id].reserveToken;
    SumAtLeast(BackingMap(l.curves, t), id);
    assert IsReserveToken(l.curves, t);
  }

  /** Replacing a curve moves what is owed in its reserve token by its backing. */
  lemma OwedUpdate(curves: map<nat, Curve>, id: nat, c: Curve, t: Address)
    requires id in curves && curves[id].reserveToken == c.reserveToken
    ensures Owed(curves[id := c], t) ==
            Owed(curves, t) + if t == c.reserveToken then Backing(c) - Backing(curves[id]) else 0
    ensures IsReserveToken(curves[id := c], t) <==> IsReserveToken(curves, t)
  {
    var before, after := BackingMap(curves, t), BackingMap(curves[id := c], t);
    if t == c.reserveToken {
      SumUpdate(before, id, Backing(c));
      assert after == before[id := Backing(c)];
      assert curves[id := c][id].reserveToken == t && curves[id].reserveToken == t;
    } else {
      assert after == before;
      var next := curves[id := c];
      forall j | j in curves && curves[j].reserveToken == t ensures j in next && next[j].reserveToken == t {
      }
    }
  }

  /** From `l` to `m` one curve is replaced, and the slack of `token` alone moves, by `d`. */
  ghost predicate Moves(l: Ledger, m: Ledger, id: nat, token: Address, d: int) {
    && id in l.curves && id in m.curves && m.curves == l.curves[id := m.curves[id]] && CurveGood(m.curves[id])
    && (forall t :: Slack(m, t) == Slack(l, t) + if t == token then d else 0)
    && (forall t :: IsReserveToken(m.curves, t) <==> IsReserveToken(l.curves, t))
  }

  /** From `l` to `m`, the holding of `t` moves with the backing of curve `id`, and that of `token` by `d` more. */
  predicate HeldFollows(l: Ledger, m: Ledger, was: Curve, c: Curve, token: Address, d: int, t: Address) {
    Get(m.held, t, 0) ==
    Get(l.held, t, 0) + (if t == c.reserveToken then Backing(c) - Backing(was) else 0) + (if t == token then d else 0)
  }

  lemma TradeMoves(l: Ledger, m: Ledger, id: nat, c: Curve, token: Address, d: int)
    requires id in l.curves && m.curves == l.curves[id := c] && CurveGood(c)
    requires c.reserveToken == l.curves[id].reserveToken
    requires forall t :: HeldFollows(l, m, l.curves[id], c, token, d, t)
    ensures Moves(l, m, id, token, d)
  {
    forall t
      ensures Slack(m, t) == Slack(l, t) + if t == token then d else 0
      ensures IsReserveToken(m.curves, t) <==> IsReserveToken(l.curves, t)
    {
      OwedUpdate(l.curves, id, c, t);
      assert HeldFollows(l, m, l.curves[id], c, token, d, t);
    }
  }

  /** A step that moves no slack down keeps the ledger good; one that does keeps it exactly when the slack allows. */
  lemma MovesKeeps(l: Ledger, m: Ledger, id: nat, token: Address, d: int)
    requires Good(l) && Moves(l, m, id, token, d)
    ensures Good(m) <==> (IsReserveToken(l.curves, token) ==> 0 <= Slack(l, token) + d)
  {
    assert IsReserveToken(m.curves, token) <==> IsReserveToken(l.curves, token);
  }

  // -------------------------------------------------------------- what each call moves

  lemma SettleBuyMoves(l: Ledger, id: nat, amount: int, base: int, fee: int)
    requires id in l.curves && CurveGood(l.curves[id]) && 0 <= amount && 0 <= base && 0 <= fee
    ensures var r := SettleBuy(l, id, amount, base, fee);
            r.Ok? ==> Moves(l, r.value.ledger, id, l.curves[id].tipToken, -amount)
  {
    var r := SettleBuy(l, id, amount, base, fee);
    if r.Ok? {
      var c := l.curves[id];
      TradeMoves(l, r.value.ledger, id, r.value.ledger.curves[id], c.tipToken, -amount);
    }
  }

  /** A purchase takes tip tokens out of what is held and owes nobody less for them. */
  lemma BuyMoves(l: Ledger, id: nat, amount: int, maxCollateral: int, tokenOk: bool)
    requires id in l.curves ==> CurveGood(l.curves[id])
    ensures var r := Buy(l, id, amount, maxCollateral, tokenOk);
            r.Ok? ==> Moves(l, r.value.ledger, id, l.curves[id].tipToken, -amount)
  {
    var r := Buy(l, id, amount, maxCollateral, tokenOk);
    if r.Ok? {
      var c, base := l.curves[id], CostToBuy(l.curves[id], amount);
      FeeWithin(base, c.buyFeeBps);
      SettleBuyMoves(l, id, amount, base, Fee(base, c.buyFeeBps));
    }
  }

  /** Taking `amount` of the token leaves every reserve kept in it covered. */
  ghost predicate SparesReserves(l: Ledger, token: Address, amount: int) {
    IsReserveToken(l.curves, token) ==> amount <= Slack(l, token)
  }

  /** A purchase keeps the backing exactly when its tip tokens are not needed to back a reserve. */
  lemma BuyBackedExact(l: Ledger, id: nat, amount: int, maxCollateral: int, tokenOk: bool)
    requires Good(l)
    ensures var r := Buy(l, id, amount, maxCollateral, tokenOk);
            r.Ok? ==> (Good(r.value.ledger) <==> SparesReserves(l, l.curves[id].tipToken, amount))
  {
    var r := Buy(l, id, amount, maxCollateral, tokenOk);
    if r.Ok? {
      BuyMoves(l, id, amount, maxCollateral, tokenOk);
      MovesKeeps(l, r.value.ledger, id, l.curves[id].tipToken, -amount);
    }
  }

  lemma SettleSellMoves(l: Ledger, id: nat, amount: int, base: int, fee: int)
    requires id in l.curves && CurveGood(l.curves[id]) && 0 <= amount <= l.curves[id].supply && 0 <= fee
    requires 0 <= base <= l.curves[id].reserve
    ensures var r := SettleSell(l, id, amount, base, fee);
            r.Ok? ==> Moves(l, r.value.ledger, id, l.curves[id].tipToken, amount)
  {
    var r := SettleSell(l, id, amount, base, fee);
    if r.Ok? {
      var c := l.curves[id];
      TradeMoves(l, r.value.ledger, id, r.value.ledger.curves[id], c.tipToken, amount);
    }
  }

  /** A sale that passes the curve's own checks never fails for lack of reserve tokens, and keeps the backing. */
  lemma SellKeeps(l: Ledger, id: nat, amount: int, minCollateral: int, tokenOk: bool)
    requires Good(l)
    ensures var r := Sell(l, id, amount, minCollateral, tokenOk);
            && (r == Err(TransferFailed) ==> !tokenOk)
            && (r.Ok? ==> Good(r.value.ledger))
  {
    var r := Sell(l, id, amount, minCollateral, tokenOk);
    if id in l.curves && 1 <= amount <= l.curves[id].supply {
      var c := l.curves[id];
      var base := ReturnOnSell(c, amount);
      if 0 < base <= c.reserve {
        var fee := Fee(base, c.sellFeeBps);
        FeeWithin(base, c.sellFeeBps);
        BackingCovered(l, id);
        assert SettleSell(l, id, amount, base, fee).Ok?;
        if r.Ok? {
          SettleSellMoves(l, id, amount, base, fee);
          MovesKeeps(l, r.value.ledger, id, c.tipToken, amount);
        }
      }
    }
  }

  lemma UpdateFeesKeeps(l: Ledger, caller: Address, id: nat, buyFeeBps: nat, sellFeeBps: nat)
    requires Good(l)
    ensures var r := UpdateFees(l, caller, id, buyFeeBps, sellFeeBps); r.Ok? ==> Good(r.value)
  {
    var r := UpdateFees(l, caller, id, buyFeeBps, sellFeeBps);
    if r.Ok? {
      var t := l.curves[id].tipToken;
      TradeMoves(l, r.value, id, r.value.curves[id], t, 0);
      MovesKeeps(l, r.value, id, t, 0);
    }
  }

  lemma DeactivateKeeps(l: Ledger, caller: Address, id: nat)
    requires Good(l)
    ensures var r := Deactivate(l, caller, id); r.Ok? ==> Good(r.value)
  {
    var r := Deactivate(l, caller, id);
    if r.Ok? {
      var t := l.curves[id].tipToken;
      TradeMoves(l, r.value, id, r.value.curves[id], t, 0);
      MovesKeeps(l, r.value, id, t, 0);
    }
  }

  /** Fee withdrawals never fail for lack of tokens and leave every reserve untouched. */
  lemma WithdrawFeesKeeps(l: Ledger, caller: Address, id: nat)
    requires Good(l)
    ensures var r := WithdrawFees(l, caller, id);
            && r != Err(TransferFailed)
            && (r.Ok? ==> Good(r.value.ledger) && r.value.ledger.curves[id].reserve == l.curves[id].reserve)
  {
    var r := WithdrawFees(l, caller, id);
    if id in l.curves {
      BackingCovered(l, id);
      if r.Ok? {
        var c := l.curves[id];
        TradeMoves(l, r.value.ledger, id, r.value.ledger.curves[id], c.tipToken, 0);
        MovesKeeps(l, r.value.ledger, id, c.tipToken, 0);
      }
    }
  }

  // -------------------------------------------------------------------------- runs

  datatype Op =
    | Creating(id: nat, curve: Curve, initialReserve: int)
    | Buying(id: nat, amount: int, maxCollateral: int, tokenOk: bool)
    | Selling(id: nat, amount: int, minCollateral: int, tokenOk: bool)
    | Refeeing(caller: Address, id: nat, buyFeeBps: nat, sellFeeBps: nat)
    | Collecting(caller: Address, id: nat)
    | Deactivating(caller: Address, id: nat)

  /** `create_curve` under a new id: no supply, no fees, and the initial reserve paid in. */
  function Create(l: Ledger, id: nat, c: Curve, initialReserve: int): Result<Ledger> {
    if !ValidPricing(c.pricing) then Err(InvalidAmount) else
    :- Need(c.buyFeeBps <= MAX_FEE_BPS && c.sellFeeBps <= MAX_FEE_BPS, FeeTooHigh);
    :- Need(initialReserve >= 0, InvalidAmount);
    var seeded := c.(supply := 0, reserve := initialReserve, fees := 0, active := true);
    Ok(Ledger(l.curves[id := seeded], TransferIn(l.held, c.reserveToken, initialReserve)))
  }

  function Next(l: Ledger, op: Op): Ledger {
    match op
    case Creating(id, c, initialReserve) => (match Create(l, id, c, initialReserve) case Ok(m) => m case Err(_) => l)
    case Buying(id, amount, max, tokenOk) =>
      (match Buy(l, id, amount, max, tokenOk) case Ok(t) => t.ledger case Err(_) => l)
    case Selling(id, amount, min, tokenOk) =>
      (match Sell(l, id, amount, min, tokenOk) case Ok(t) => t.ledger case Err(_) => l)
    case Refeeing(caller, id, b, s) => (match UpdateFees(l, caller, id, b, s) case Ok(m) => m case Err(_) => l)
    case Collecting(caller, id) => (match WithdrawFees(l, caller, id) case Ok(t) => t.ledger case Err(_) => l)
    case Deactivating(caller, id) => (match Deactivate(l, caller, id) case Ok(m) => m case Err(_) => l)
  }

  /** New ids are unused and no holding is negative; a purchase takes no tip token that backs a reserve. */
  ghost predicate Allowed(l: Ledger, op: Op) {
    && (op.Creating? ==> op.id !in l.curves && 0 <= Get(l.held, op.curve.reserveToken, 0))
    && (op.Buying? && op.id in l.curves ==> SparesReserves(l, l.curves[op.id].tipToken, op.amount))
  }

  /** No curve's tip token is any curve's reserve token. */
  ghost predicate TokensApart(curves: map<nat, Curve>) {
    forall i, j :: i in curves && j in curves ==> curves[i].tipToken != curves[j].reserveToken
  }

  /** Curves that keep tip and reserve tokens apart allow every purchase. */
  lemma ApartAllows(l: Ledger, op: Op)
    requires TokensApart(l.curves) && !op.Creating?
    ensures Allowed(l, op)
  {
  }

  lemma OwedNew(curves: map<nat, Curve>, id: nat, c: Curve, t: Address)
    requires id !in curves
    ensures Owed(curves[id := c], t) == Owed(curves, t) + if t == c.reserveToken then Backing(c) else 0
  {
    var before, after := BackingMap(curves, t), BackingMap(curves[id := c], t);
    if t == c.reserveToken {
      SumUpdate(before, id, Backing(c));
      assert after == before[id := Backing(c)];
    } else {
      assert after == before;
    }
  }

  lemma NothingOwed(curves: map<nat, Curve>, t: Address)
    requires !IsReserveToken(curves, t)
    ensures Owed(curves, t) == 0
  {
    assert BackingMap(curves, t) == map[];
  }

  lemma CreateKeeps(l: Ledger, id: nat, c: Curve, initialReserve: int)
    requires Good(l) && Allowed(l, Creating(id, c, initialReserve))
    ensures var r := Create(l, id, c, initialReserve); r.Ok? ==> Good(r.value)
  {
    var r := Create(l, id, c, initialReserve);
    if r.Ok? {
      var m, seeded := r.value, r.value.curves[id];
      forall t | IsReserveToken(m.curves, t) ensures 0 <= Slack(m, t) {
        OwedNew(l.curves, id, seeded, t);
        if !IsReserveToken(l.curves, t) {
          NothingOwed(l.curves, t);
        }
      }
    }
  }

  lemma StepKeeps(l: Ledger, op: Op)
    requires Good(l) && Allowed(l, op)
    ensures Good(Next(l, op))
  {
    match op
    case Creating(id, c, initialReserve) => CreateKeeps(l, id, c, initialReserve);
    case Buying(id, amount, max, tokenOk) => BuyBackedExact(l, id, amount, max, tokenOk);
    case Selling(id, amount, min, tokenOk) => SellKeeps(l, id, amount, min, tokenOk);
    case Refeeing(caller, id, b, s) => UpdateFeesKeeps(l, caller, id, b, s);
    case Collecting(caller, id) => WithdrawFeesKeeps(l, caller, id);
    case Deactivating(caller, id) => DeactivateKeeps(l, caller, id);
  }

  /** An operation keeps a good ledger good exactly when it is not a purchase of tokens that back a reserve. */
  lemma StepBackedExact(l: Ledger, op: Op)
    requires Good(l) && (op.Creating? ==> Allowed(l, op))
    ensures Good(Next(l, op)) <==> (Next(l, op) == l || Allowed(l, op))
  {
    if op.Buying? {
      BuyBackedExact(l, op.id, op.amount, op.maxCollateral, op.tokenOk);
    } else {
      StepKeeps(l, op);
    }
  }

  /** No stored amount leaves 128 bits, and no trade forms a product that does: `i128` arithmetic would wrap. */
  ghost predicate InRange(l: Ledger, op: Op) {
    && (op.Buying? && op.id in l.curves && op.amount > 0 ==>
          var c := l.curves[op.id]; TradeFits(c.pricing, c.supply, c.supply + op.amount))
    && (op.Selling? && op.id in l.curves && 0 < op.amount <= l.curves[op.id].supply ==>
          var c := l.curves[op.id]; TradeFits(c.pricing, c.supply - op.amount, c.supply))
    && (forall id :: id in Next(l, op).curves ==> Backing(Next(l, op).curves[id]) <= I128_MAX)
  }

  ghost predicate Reaches(l: Ledger, ops: seq<Op>, m: Ledger)
    decreases |ops|
  {
    if ops == [] then m == l else
      Allowed(l, ops[0]) && InRange(l, ops[0]) && Reaches(Next(l, ops[0]), ops[1..], m)
  }

  /** Over every run, holdings cover reserves and fees, and no supply, reserve or fee counter is negative. */
  lemma {:induction false} RunGood(l: Ledger, ops: seq<Op>, m: Ledger)
    requires Good(l) && Reaches(l, ops, m)
    ensures Good(m)
    decreases |ops|
  {
    if ops != [] {
      StepKeeps(l, ops[0]);
      RunGood(Next(l, ops[0]), ops[1..], m);
    }
  }

  // --------------------------------------------------------------------- round trip

  /** Selling back what was just bought is priced exactly like the purchase. */
  lemma SamePriceBack(c: Curve, d: Curve, amount: int)
    requires d.pricing == c.pricing && d.supply == c.supply + amount
    ensures ReturnOnSell(d, amount) == CostToBuy(c, amount)
  {
  }

  lemma BuyFacts(l: Ledger, id: nat, amount: int, maxCollateral: int, tokenOk: bool)
    requires Good(l)
    ensures var r := Buy(l, id, amount, maxCollateral, tokenOk); r.Ok? ==>
              var bought, c, base := r.value, l.curves[id], CostToBuy(l.curves[id], amount);
              && 1 <= amount && 0 < base <= bought.collateral && id in bought.ledger.curves
              && bought.ledger.curves[id] ==
                 c.(supply := c.supply + amount, reserve := c.reserve + base, fees := c.fees + bought.fee)
              && c.active
  {
    var r := Buy(l, id, amount, maxCollateral, tokenOk);
    if r.Ok? {
      FeeWithin(CostToBuy(l.curves[id], amount), l.curves[id].buyFeeBps);
    }
  }

  /** A sale within the supply of an active curve, and within the seller's own price limit. */
  predicate SaleInOrder(c: Curve, amount: int, minCollateral: int) {
    && c.active && 1 <= amount <= c.supply
    && minCollateral <= ReturnOnSell(c, amount) - Fee(ReturnOnSell(c, amount), c.sellFeeBps)
  }

  /**
   When a holder can sell back: a sale in order goes through exactly when its price
   does not truncate to 0 and the curve's own reserve covers it. A seller who sets
   no limit is in order at any price.
   */
  lemma SellBackExact(l: Ledger, id: nat, amount: int, minCollateral: int)
    requires Good(l) && id in l.curves
    ensures var r, c := Sell(l, id, amount, minCollateral, true), l.curves[id];
            SaleInOrder(c, amount, minCollateral) ==>
            && (r.Ok? <==> 0 < ReturnOnSell(c, amount) <= c.reserve)
            && (r == Err(PriceCalculationFailed) <==> ReturnOnSell(c, amount) <= 0)
            && (r == Err(InsufficientReserve) <==> ReturnOnSell(c, amount) > c.reserve)
    ensures var c := l.curves[id];
            c.active && 1 <= amount <= c.supply && minCollateral <= 0 && 0 <= ReturnOnSell(c, amount) ==>
              SaleInOrder(c, amount, minCollateral)
  {
    SellKeeps(l, id, amount, minCollateral, true);
    var base := ReturnOnSell(l.curves[id], amount);
    if 0 <= base {
      FeeWithin(base, l.curves[id].sellFeeBps);
    }
  }

  lemma SellFacts(l: Ledger, id: nat, amount: int, minCollateral: int, base: int)
    requires Good(l) && id in l.curves && l.curves[id].active && 1 <= amount <= l.curves[id].supply
    ensures var r, c := Sell(l, id, amount, minCollateral, true), l.curves[id];
            base == ReturnOnSell(c, amount) && 0 < base <= c.reserve ==>
              && (r.Err? ==> r == Err(SlippageExceeded))
              && (r.Ok? ==>
                    && id in r.value.ledger.curves && r.value.collateral <= base
                    && r.value.ledger.curves[id].supply == c.supply - amount
                    && r.value.ledger.curves[id].reserve == c.reserve - base)
  {
    if base == ReturnOnSell(l.curves[id], amount) && 0 < base <= l.curves[id].reserve {
      SellKeeps(l, id, amount, minCollateral, true);
      FeeWithin(base, l.curves[id].sellFeeBps);
    }
  }

  /** The sale `back` takes back what `bought` bought on `l`: it can only miss its own price limit. */
  ghost predicate Undoes(l: Ledger, id: nat, bought: Trade, back: Result<Trade>) {
    && id in l.curves
    && (back.Err? ==> back == Err(SlippageExceeded))
    && (back.Ok? ==>
          && id in back.value.ledger.curves
          && back.value.ledger.curves[id].supply == l.curves[id].supply
          && back.value.ledger.curves[id].reserve == l.curves[id].reserve
          && back.value.collateral <= bought.collateral)
  }

  lemma SellBack(l: Ledger, bought: Trade, m: Ledger, id: nat, amount: int, minCollateral: int)
    requires Good(l) && Good(m) && id in l.curves && id in m.curves && m.curves[id].active && 1 <= amount
    requires var c, d := l.curves[id], m.curves[id]; d.pricing == c.pricing && d.supply == c.supply + amount
    ensures var c, d, base := l.curves[id], m.curves[id], CostToBuy(l.curves[id], amount);
            d.reserve == c.reserve + base && 0 < base <= bought.collateral ==>
              Undoes(l, id, bought, Sell(m, id, amount, minCollateral, true))
  {
    SamePriceBack(l.curves[id], m.curves[id], amount);
    SellFacts(m, id, amount, minCollateral, CostToBuy(l.curves[id], amount));
  }

  /** An operation that neither trades on the curve nor deactivates it. */
  predicate LeavesAlone(op: Op, id: nat) {
    op.Buying? || op.Selling? || op.Deactivating? ==> op.id != id
  }

  /** What pricing and payment of a sale depend on is the same in both curves. */
  predicate SameStanding(c: Curve, d: Curve) {
    d.pricing == c.pricing && d.supply == c.supply && d.reserve == c.reserve && d.active == c.active
  }

  lemma StepLeavesAlone(l: Ledger, op: Op, id: nat)
    requires id in l.curves && Allowed(l, op) && LeavesAlone(op, id)
    ensures id in Next(l, op).curves && SameStanding(l.curves[id], Next(l, op).curves[id])
  {
  }

  lemma {:induction false} RunLeavesAlone(l: Ledger, ops: seq<Op>, m: Ledger, id: nat)
    requires id in l.curves && Reaches(l, ops, m) && forall op :: op in ops ==> LeavesAlone(op, id)
    ensures id in m.curves && SameStanding(l.curves[id], m.curves[id])
    decreases |ops|
  {
    if ops != [] {
      StepLeavesAlone(l, ops[0], id);
      RunLeavesAlone(Next(l, ops[0]), ops[1..], m, id);
    }
  }

  /**
   Buying and later selling the same amount, with no other trade on the curve in
   between: whatever else happens meanwhile, fees, fee withdrawals, new curves
   and trades on curves that share the reserve token included, the sale never
   fails for lack of reserve, restores supply and reserve, and returns at most
   what was paid.
   */
  lemma RoundTrip(l: Ledger, id: nat, amount: int, maxCollateral: int, tokenOk: bool,
                  ops: seq<Op>, m: Ledger, minCollateral: int)
    requires Good(l) && Allowed(l, Buying(id, amount, maxCollateral, tokenOk))
    requires InRange(l, Buying(id, amount, maxCollateral, tokenOk))
    ensures var r := Buy(l, id, amount, maxCollateral, tokenOk);
            r.Ok? && Reaches(r.value.ledger, ops, m) && (forall op :: op in ops ==> LeavesAlone(op, id)) ==>
              Undoes(l, id, r.value, Sell(m, id, amount, minCollateral, true))
  {
    var r := Buy(l, id, amount, maxCollateral, tokenOk);
    if r.Ok? && Reaches(r.value.ledger, ops, m) && forall op :: op in ops ==> LeavesAlone(op, id) {
      BuyFacts(l, id, amount, maxCollateral, tokenOk);
      BuyBackedExact(l, id, amount, maxCollateral, tokenOk);
      RunGood(r.value.ledger, ops, m);
      RunLeavesAlone(r.value.ledger, ops, m, id);
      SellBack(l, r.value, m, id, amount, minCollateral);
    }
  }

  // ---------------------------------------------------------- where it does not hold

  function Flat(price: int): Pricing {
    Pricing(Linear, price, 0, 0, 0, 0)
  }

  /** A flat price of one reserve token per tip token. */
  const FLAT: Pricing := Flat(PRECISION)

  function FlatCurve(tipToken: Address, reserveToken: Address, supply: int, reserve: int): Curve {
    Curve(Address(0), tipToken, reserveToken, FLAT, supply, reserve, 0, 0, 0, true)
  }

  lemma {:induction false} FlatInterior(p: int, start: int, delta: int, n: nat)
    ensures Interior(PriceOf(Flat(p)), start, delta, n) == n * (p * delta)
  {
    if n > 0 {
      FlatInterior(p, start, delta, n - 1);
      AddOne(n - 1, p * delta);
    }
  }

  /** Up to 19 tokens are priced in full; beyond, only whole steps of 20 are. */
  function FlatCost(a: int): int {
    if a < 20 then a else 20 * TruncDiv(a, 20)
  }

  lemma HalfOfDouble(x: int)
    ensures TruncDiv(2 * x, 2) == x
  {
  }

  lemma FlatIntegral(start: int, a: int, steps: nat)
    requires 0 < a && 0 < steps
    ensures Integrate(PriceOf(FLAT), start, start + a, steps) ==
            PRECISION * if a < steps then a else steps * TruncDiv(a, steps)
  {
    var price, half := PriceOf(FLAT), PRECISION / 2;
    assert price(start) == PRECISION && price(start + a) == PRECISION;
    if a < steps {
      QuotientIs(a, steps, 0);
      HalfOfDouble(PRECISION * a);
    } else {
      var delta := TruncDiv(a, steps);
      StepWidth(a, steps);
      FlatInterior(PRECISION, start, delta, steps - 1);
      HalfOfDouble(half * delta);
      AddOne(steps - 1, PRECISION * delta);
      Regroup(PRECISION, steps, delta);
    }
  }

  lemma FlatCosts(c: Curve, a: int)
    requires c.pricing == FLAT && 0 < a
    ensures CostToBuy(c, a) == ReturnOnSell(c, a) == FlatCost(a)
  {
    FlatIntegral(c.supply, a, INTEGRATION_STEPS);
    FlatIntegral(c.supply - a, a, INTEGRATION_STEPS);
  }

  lemma FlatBuy(l: Ledger, amount: int)
    requires 0 in l.curves && l.curves[0].pricing == FLAT && l.curves[0].active && l.curves[0].buyFeeBps == 0
    requires 0 < amount
    ensures Buy(l, 0, amount, FlatCost(amount), true) == SettleBuy(l, 0, amount, FlatCost(amount), 0)
  {
    FlatCosts(l.curves[0], amount);
  }

  lemma FlatSell(l: Ledger, amount: int)
    requires 0 in l.curves && l.curves[0].pricing == FLAT && l.curves[0].active && l.curves[0].sellFeeBps == 0
    requires 0 < amount <= l.curves[0].supply
    ensures Sell(l, 0, amount, 0, true) ==
            if FlatCost(amount) > l.curves[0].reserve then Err(InsufficientReserve)
            else SettleSell(l, 0, amount, FlatCost(amount), 0)
  {
    FlatCosts(l.curves[0], amount);
  }

  lemma FlatStart(t: Address, u: Address, held: map<Address, int>)
    requires 0 <= Get(held, u, 0)
    ensures var l := Ledger(map[0 := FlatCurve(t, u, 0, 0)], held); Good(l) && Slack(l, u) == Get(held, u, 0)
  {
    var l := Ledger(map[0 := FlatCurve(t, u, 0, 0)], held);
    assert BackingMap(l.curves, u) == map[0 := 0];
    SumRemove(BackingMap(l.curves, u), 0);
    assert BackingMap(l.curves, u) - {0} == map[];
  }

  lemma FlatBought(t: Address, u: Address)
    requires t != u
    ensures var l := Ledger(map[0 := FlatCurve(t, u, 0, 0)], map[t := 39]);
            var r := Buy(l, 0, 39, 20, true);
            Good(l) && r.Ok? && Good(r.value.ledger) && 0 in r.value.ledger.curves
            && r.value.ledger.curves[0] == FlatCurve(t, u, 39, 20)
  {
    var l := Ledger(map[0 := FlatCurve(t, u, 0, 0)], map[t := 39]);
    FlatStart(t, u, l.held);
    FlatBuy(l, 39);
    assert FlatCost(39) == 20;
    assert !IsReserveToken(l.curves, t);
    BuyBackedExact(l, 0, 39, 20, true);
  }

  lemma FlatSoldTwice(t: Address, u: Address, bought: Ledger)
    requires Good(bought) && 0 in bought.curves && bought.curves[0] == FlatCurve(t, u, 39, 20)
    ensures var r := Sell(bought, 0, 20, 0, true);
            r.Ok? && Good(r.value.ledger) && 0 in r.value.ledger.curves
            && r.value.ledger.curves[0] == FlatCurve(t, u, 19, 0)
            && Sell(r.value.ledger, 0, 19, 0, true) == Err(InsufficientReserve)
  {
    FlatSell(bought, 20);
    SellKeeps(bought, 0, 20, 0, true);
    assert FlatCost(20) == 20;
    FlatSell(Sell(bought, 0, 20, 0, true).value.ledger, 19);
  }

  /**
   The step width truncates, so 39 tokens cost as much as 20. Sold back in two
   parts, the first empties the reserve and the second finds nothing.
   */
  lemma SellBackCanFail(t: Address, u: Address) returns (l: Ledger, bought: Ledger, sold: Ledger)
    requires t != u
    ensures Good(l) && l.curves == map[0 := FlatCurve(t, u, 0, 0)]
    ensures Buy(l, 0, 39, 20, true).Ok? && bought == Buy(l, 0, 39, 20, true).value.ledger
    ensures Sell(bought, 0, 20, 0, true).Ok? && sold == Sell(bought, 0, 20, 0, true).value.ledger
    ensures 0 in sold.curves && sold.curves[0].supply == 19 && Sell(sold, 0, 19, 0, true) == Err(InsufficientReserve)
  {
    l := Ledger(map[0 := FlatCurve(t, u, 0, 0)], map[t := 39]);
    FlatBought(t, u);
    bought := Buy(l, 0, 39, 20, true).value.ledger;
    FlatSoldTwice(t, u, bought);
    sold := Sell(bought, 0, 20, 0, true).value.ledger;
  }

  /** At a price of 1 per PRECISION, single tokens are worth nothing. */
  lemma DustPrices(c: Curve, steps: nat)
    requires c.pricing == Flat(1) && steps == INTEGRATION_STEPS
    ensures Integrate(PriceOf(Flat(1)), c.supply, c.supply + PRECISION, steps) == PRECISION
    ensures Integrate(PriceOf(Flat(1)), c.supply - 1, c.supply, steps) == 1
  {
    var price := PriceOf(Flat(1));
    assert price(c.supply) == 1 && price(c.supply - 1) == 1 && price(c.supply + PRECISION) == 1;
    FlatInterior(1, c.supply, PRECISION / 20, 19);
  }

  lemma DustCosts(c: Curve)
    requires c.pricing == Flat(1)
    ensures CostToBuy(c, PRECISION) == 1 && ReturnOnSell(c, 1) == 0
  {
    DustPrices(c, INTEGRATION_STEPS);
  }

  /** The other way to fail: PRECISION tokens were bought for 1, and none of them can be sold on its own. */
  lemma DustCannotBeSold(l: Ledger, id: nat)
    requires Good(l) && id in l.curves && l.curves[id].pricing == Flat(1) && l.curves[id].active
    requires l.curves[id].buyFeeBps == 0 && PRECISION <= Get(l.held, l.curves[id].tipToken, 0)
    ensures var r := Buy(l, id, PRECISION, 1, true);
            r.Ok? && id in r.value.ledger.curves
            && Sell(r.value.ledger, id, 1, 0, true) == Err(PriceCalculationFailed)
  {
    DustCosts(l.curves[id]);
    var c := l.curves[id];
    assert Fee(1, 0) == 0;
    assert Buy(l, id, PRECISION, 1, true) == SettleBuy(l, id, PRECISION, 1, 0);
    DustCosts(SettleBuy(l, id, PRECISION, 1, 0).value.ledger.curves[id]);
  }

  lemma FlatSelfBought(t: Address)
    ensures var l := Ledger(map[0 := FlatCurve(t, t, 0, 0)], map[]);
            Good(l) && Slack(l, t) == 0 && IsReserveToken(l.curves, t) && Buy(l, 0, 20, 20, true).Ok?
  {
    var l := Ledger(map[0 := FlatCurve(t, t, 0, 0)], map[]);
    FlatStart(t, t, map[]);
    FlatBuy(l, 20);
    assert FlatCost(20) == 20;
    assert SettleBuy(l, 0, 20, 20, 0).Ok?;
    assert l.curves[0].reserveToken == t;
  }

  /**
   A curve whose tip token is its own reserve token pays its collateral out again,
   and holds nothing behind its reserve.
   */
  lemma BackingCanFail(t: Address) returns (l: Ledger, bought: Ledger)
    ensures Good(l) && l.curves == map[0 := FlatCurve(t, t, 0, 0)]
    ensures Buy(l, 0, 20, 20, true).Ok? && bought == Buy(l, 0, 20, 20, true).value.ledger
    ensures Slack(bought, t) == -20 && !Good(bought)
  {
    l := Ledger(map[0 := FlatCurve(t, t, 0, 0)], map[]);
    FlatSelfBought(t);
    bought := Buy(l, 0, 20, 20, true).value.ledger;
    BuyMoves(l, 0, 20, 20, true);
    BuyBackedExact(l, 0, 20, 20, true);
  }

  // ------------------------------------------------------------- the contract object

  method QuoteBuy(c: Curve, amount: int) returns (base: int)
    ensures base == CostToBuy(c, amount)
  {
    var integral := IntegratePrice(PriceOf(c.pricing), c.supply, c.supply + amount, INTEGRATION_STEPS);
    base := TruncDiv(integral, PRECISION);
  }

  method QuoteSell(c: Curve, amount: int) returns (base: int)
    ensures base == ReturnOnSell(c, amount)
  {
    var integral := IntegratePrice(PriceOf(c.pricing), c.supply - amount, c.supply, INTEGRATION_STEPS);
    base := TruncDiv(integral, PRECISION);
  }

  /** A call leaves the ledger of the trade and returns its collateral, or fails and changes nothing. */
  predicate IsOutcome(trade: Result<Trade>, before: Ledger, after: Ledger, r: Result<int>) {
    match trade
    case Ok(t) => after == t.ledger && r == Ok(t.collateral)
    case Err(e) => after == before && r == Err(e)
  }

  /** The entrypoints in their own form: the curve is loaded, tokens move, the curve is stored. */
  class Market {
    var ledger: Ledger

    constructor (held: map<Address, int>)
      ensures ledger == Ledger(map[], held)
    {
      ledger := Ledger(map[], held);
    }

    method BuyTokens(id: nat, amount: int, maxCollateral: int, tokenOk: bool) returns (r: Result<int>)
      modifies this
      ensures IsOutcome(Buy(old(ledger), id, amount, maxCollateral, tokenOk), old(ledger), ledger, r)
    {
      if amount < 1 {
        return Err(InvalidAmount);
      }
      if id !in ledger.curves {
        return Err(NotFound);
      }
      var curve := ledger.curves[id];
      if !curve.active {
        return Err(Inactive);
      }
      var base := QuoteBuy(curve, amount);
      if base <= 0 {
        return Err(PriceCalculationFailed);
      }
      var fee := Fee(base, curve.buyFeeBps);
      var cost := base + fee;
      if cost > maxCollateral {
        return Err(SlippageExceeded);
      }
      if !tokenOk {
        return Err(TransferFailed);
      }
      r := StoreBuy(id, amount, base, fee);
    }

    method StoreBuy(id: nat, amount: int, base: int, fee: int) returns (r: Result<int>)
      requires id in ledger.curves
      modifies this
      ensures IsOutcome(SettleBuy(old(ledger), id, amount, base, fee), old(ledger), ledger, r)
    {
      var curve, cost := ledger.curves[id], base + fee;
      var paidIn := TransferIn(ledger.held, curve.reserveToken, cost);
      var held :- TransferOut(paidIn, curve.tipToken, amount, TransferFailed);
      curve := curve.(supply := curve.supply + amount);
      curve := curve.(reserve := curve.reserve + base);
      curve := curve.(fees := curve.fees + fee);
      ledger := Ledger(ledger.curves[id := curve], held);
      return Ok(cost);
    }

    method SellTokens(id: nat, amount: int, minCollateral: int, tokenOk: bool) returns (r: Result<int>)
      modifies this
      ensures IsOutcome(Sell(old(ledger), id, amount, minCollateral, tokenOk), old(ledger), ledger, r)
    {
      if amount < 1 {
        return Err(InvalidAmount);
      }
      if id !in ledger.curves {
        return Err(NotFound);
      }
      var curve := ledger.curves[id];
      if !curve.active {
        return Err(Inactive);
      }
      if amount > curve.supply {
        return Err(InsufficientSupply);
      }
      var base := QuoteSell(curve, amount);
      if base <= 0 {
        return Err(PriceCalculationFailed);
      }
      var fee := Fee(base, curve.sellFeeBps);
      var net := base - fee;
      if net < minCollateral {
        return Err(SlippageExceeded);
      }
      if base > curve.reserve {
        return Err(InsufficientReserve);
      }
      if !tokenOk {
        return Err(TransferFailed);
      }
      r := StoreSell(id, amount, base, fee);
    }

    method StoreSell(id: nat, amount: int, base: int, fee: int) returns (r: Result<int>)
      requires id in ledger.curves
      modifies this
      ensures IsOutcome(SettleSell(old(ledger), id, amount, base, fee), old(ledger), ledger, r)
    {
      var curve, net := ledger.curves[id], base - fee;
      var burned := TransferIn(ledger.held, curve.tipToken, amount);
      var held :- TransferOut(burned, curve.reserveToken, net, TransferFailed);
      curve := curve.(supply := curve.supply - amount);
      curve := curve.(reserve := curve.reserve - base);
      curve := curve.(fees := curve.fees + fee);
      ledger := Ledger(ledger.curves[id := curve], held);
      return Ok(net);
    }
  }
}
