/**
 Quadratic funding rounds: an integer square root by Newton's method, and a
 payout that splits a matching pool by squared sums of roots and returns every
 contribution.
 */
module QuadraticFunding {
  import opened Host
  import opened Arithmetic

  const PRECISION: int := 10_000_000

  // ------------------------------------------------------------------ square root

  /** `r` is the floor of the square root of `n`. */
  ghost predicate IsRoot(n: int, r: int) {
    0 <= r && r * r <= n < (r + 1) * (r + 1)
  }

  lemma SquareNonNegative(x: int)
    ensures x * x >= 0
  {
  }

  lemma Square(a: int, b: int)
    ensures (a + b) * (a + b) == a * a + 2 * (a * b) + b * b
    ensures (a - b) * (a - b) == a * a - 2 * (a * b) + b * b
    ensures (a - b) * (a - b) >= 0
  {
    assert (a + b) * (a + b) == (a + b) * a + (a + b) * b;
    assert (a - b) * (a - b) == (a - b) * a - (a - b) * b;
    SquareNonNegative(a - b);
  }

  lemma SquareMonotone(a: int, b: int)
    requires 0 <= a <= b
    ensures a * a <= b * b
  {
    assert a * a <= a * b <= b * b;
  }

  lemma NextMultiple(n: int, x: int)
    requires 0 <= n && 0 < x
    ensures 0 <= n / x && n < x * (n / x + 1)
  {
    var q := n / x;
    assert n == x * q + n % x;
    assert x * (q + 1) == x * q + x;
  }

  lemma DoubleSquare(z: int)
    ensures (2 * z) * (2 * z) == 4 * (z * z)
  {
  }

  /** A Newton step from any positive `x` lands on or above the root (arithmetic versus geometric mean). */
  lemma NewtonAbove(n: int, x: int)
    requires 0 <= n && 0 < x
    ensures var y := (x + n / x) / 2; n < (y + 1) * (y + 1)
  {
    var q := n / x;
    var y := (x + q) / 2;
    var s := x + (q + 1);
    NextMultiple(n, x);
    Square(x, q + 1);
    assert 0 <= s <= 2 * (y + 1);
    SquareMonotone(s, 2 * (y + 1));
    DoubleSquare(y + 1);
  }

  /** When a Newton step does not go down, `x` is on or below the root. */
  lemma NewtonStops(n: int, x: int)
    requires 0 <= n && 0 < x && x <= (x + n / x) / 2
    ensures x * x <= n
  {
    var q := n / x;
    assert x <= q;
    assert n == x * q + n % x;
    assert x * x <= x * q;
  }

  /** Two floors of the same square root are equal. */
  lemma RootUnique(n: int, r: int, s: int)
    requires IsRoot(n, r) && IsRoot(n, s)
    ensures r == s
  {
    if r < s {
      SquareMonotone(r + 1, s);
    } else if s < r {
      SquareMonotone(s + 1, r);
    }
  }

  lemma FirstStep(n: int)
    requires 0 < n
    ensures n / n == 1 && n < (n + 1) * (n + 1)
  {
    Square(n, 1);
    SquareNonNegative(n);
  }

  lemma SumWithinProduct(a: int, b: int)
    requires 0 < a && 0 < b
    ensures a + b <= a * b + 1
  {
    MulNonNegative(a - 1, b - 1);
    assert (a - 1) * (b - 1) == a * b - a - b + 1;
  }

  /** A Newton step stays positive, and its sum stays within `n + 1`. */
  lemma StepFits(n: int, x: int)
    requires 0 < x <= n
    ensures 0 < n / x && x + n / x <= n + 1
  {
    var q := n / x;
    NextMultiple(n, x);
    Quotient(n, x);
    assert q * x == x * q;
    assert q == 0 ==> x * (q + 1) == x;
    SumWithinProduct(x, q);
  }

  /** What the loop returns for the one input whose first step wraps. */
  const WRAPPED_ROOT: int := -0x4000_0000_0000_0000_0000_0000_0000_0000

  /**
   The Newton loop in wrapping 128-bit arithmetic. It terminates with the exact
   floor of the square root, except on the largest integer.
   */
  method Newton(n: int) returns (x: int)
    requires 0 < n <= I128_MAX
    ensures n < I128_MAX ==> IsRoot(n, x)
    ensures n == I128_MAX ==> x == WRAPPED_ROOT
  {
    x := n;
    var y := TruncDiv(WrapI128(x + 1), 2);
    FirstStep(n);
    while y < x
      invariant I128_MIN <= x
      invariant n < I128_MAX ==> 0 < x <= n && n < (x + 1) * (x + 1) && y == (x + n / x) / 2
      invariant n == I128_MAX ==> (x == n && y == WRAPPED_ROOT) || (x == WRAPPED_ROOT && y == WRAPPED_ROOT / 2)
      invariant I128_MIN <= y && (n < I128_MAX ==> 0 < y)
      decreases x - I128_MIN
    {
      if n < I128_MAX {
        NewtonAbove(n, x);
        StepFits(n, y);
      }
      x := y;
      y := TruncDiv(WrapI128(x + Quot(n, x)), 2);
    }
    if n < I128_MAX {
      NewtonStops(n, x);
    }
  }

  /**
   The root in fixed point of an amount scaled by PRECISION twice, and what is
   returned when that product saturates.
   */
  ghost predicate IsScaledRoot(amount: int, r: int) {
    if amount <= 0 then r == 0
    else if amount * PRECISION * PRECISION <= I128_MAX then IsRoot(amount * PRECISION * PRECISION, r)
    else r == WRAPPED_ROOT
  }

  /** For a positive amount the result is the root exactly when the scaled amount fits 128 bits. */
  method IsqrtScaled(amount: int) returns (r: int)
    ensures IsScaledRoot(amount, r)
    ensures amount > 0 ==> (IsRoot(amount * PRECISION * PRECISION, r) <==> amount * PRECISION * PRECISION <= I128_MAX)
  {
    if amount <= 0 {
      return 0;
    }
    r := Newton(Saturate(Saturate(amount * PRECISION) * PRECISION));
  }

  // ------------------------------------------------------------------- pro-rata split

  ghost function SumSeq(xs: seq<int>): int {
    if xs == [] then 0 else SumSeq(xs[..|xs| - 1]) + xs[|xs| - 1]
  }

  /** What `get_match_estimate` returns for a project of weight `w` out of `total`. */
  function Estimate(pool: int, w: int, total: int): int {
    if total > 0 then pool * w / total else 0
  }

  function SumOf(xs: seq<int>): (s: int)
    ensures s == SumSeq(xs)
  {
    if xs == [] then 0 else SumOf(xs[..|xs| - 1]) + xs[|xs| - 1]
  }

  /** The match of project `i`: its estimate, except that the last takes what is left. */
  function Matches(pool: int, ws: seq<int>, total: int, n: nat): (ms: seq<int>)
    requires n <= |ws|
    ensures |ms| == n
  {
    if n == 0 then [] else
      var before := Matches(pool, ws, total, n - 1);
      before + [if n == |ws| then pool - SumOf(before) else Estimate(pool, ws[n - 1], total)]
  }

  ghost predicate NonNegative(xs: seq<int>) {
    forall i :: 0 <= i < |xs| ==> 0 <= xs[i]
  }

  lemma {:induction false} SumNonNegativeSeq(xs: seq<int>)
    requires NonNegative(xs)
    ensures 0 <= SumSeq(xs)
  {
    if xs != [] {
      SumNonNegativeSeq(xs[..|xs| - 1]);
    }
  }

  lemma EstimateFloor(pool: int, w: int, total: int)
    requires 0 <= pool && 0 <= w && 0 < total
    ensures 0 <= Estimate(pool, w, total) && Estimate(pool, w, total) * total <= pool * w
  {
    assert 0 <= pool * w;
    var q := pool * w / total;
    assert pool * w == total * q + (pool * w) % total;
    assert q >= 0;
  }

  lemma AddTerm(paid: int, share: int, total: int, pool: int, seen: int, w: int)
    requires paid * total <= pool * seen && share * total <= pool * w
    ensures (paid + share) * total <= pool * (seen + w)
  {
    Distribute(paid, share, total);
    Distribute(seen, w, pool);
  }

  /** The estimates paid so far, scaled up, stay within the pool's share of the weights seen so far. */
  lemma {:induction false} MatchesWithin(pool: int, ws: seq<int>, total: int, n: nat)
    requires 0 <= pool && NonNegative(ws) && 0 < total && n < |ws|
    ensures NonNegative(Matches(pool, ws, total, n))
    ensures SumSeq(Matches(pool, ws, total, n)) * total <= pool * SumSeq(ws[..n])
  {
    if n > 0 {
      MatchesWithin(pool, ws, total, n - 1);
      EstimateFloor(pool, ws[n - 1], total);
      var before, ms := Matches(pool, ws, total, n - 1), Matches(pool, ws, total, n);
      assert ms[..n - 1] == before;
      assert ws[..n][..n - 1] == ws[..n - 1];
      AddTerm(SumSeq(before), ms[n - 1], total, pool, SumSeq(ws[..n - 1]), ws[n - 1]);
    }
  }

  lemma {:induction false} MatchAt(pool: int, ws: seq<int>, total: int, n: nat, i: nat)
    requires i < n <= |ws|
    ensures Matches(pool, ws, total, n)[i] ==
            if i == |ws| - 1 then pool - SumSeq(Matches(pool, ws, total, i)) else Estimate(pool, ws[i], total)
  {
    if i < n - 1 {
      MatchAt(pool, ws, total, n - 1, i);
    }
  }

  lemma LeastQuotient(q: int, r: int, d: int)
    requires 0 < d && q * d <= r * d
    ensures q <= r
  {
  }

  lemma RestCovers(pool: int, paid: int, seen: int, last: int, total: int, estimate: int)
    requires 0 < total == seen + last
    requires paid * total <= pool * seen && estimate * total <= pool * last
    ensures estimate <= pool - paid
  {
    Distribute(seen, last, pool);
    Distribute(paid, pool - paid, total);
    LeastQuotient(estimate, pool - paid, total);
  }

  lemma {:induction false} AllZero(xs: seq<int>)
    requires forall i :: 0 <= i < |xs| ==> xs[i] == 0
    ensures SumSeq(xs) == 0
  {
    if xs != [] {
      AllZero(xs[..|xs| - 1]);
    }
  }

  /** What is left for the last project covers its estimate. */
  lemma LastTakesRest(pool: int, ws: seq<int>)
    requires 0 <= pool && NonNegative(ws) && ws != []
    ensures var total, n := SumSeq(ws), |ws|;
            var before := Matches(pool, ws, total, n - 1);
            NonNegative(before) && Estimate(pool, ws[n - 1], total) <= pool - SumSeq(before)
            && 0 <= Estimate(pool, ws[n - 1], total)
  {
    var total, n := SumSeq(ws), |ws|;
    var before := Matches(pool, ws, total, n - 1);
    assert NonNegative(ws[..n - 1]);
    SumNonNegativeSeq(ws[..n - 1]);
    if total > 0 {
      MatchesWithin(pool, ws, total, n - 1);
      EstimateFloor(pool, ws[n - 1], total);
      RestCovers(pool, SumSeq(before), SumSeq(ws[..n - 1]), ws[n - 1], total, Estimate(pool, ws[n - 1], total));
    } else {
      forall i | 0 <= i < n - 1 ensures before[i] == 0 {
        MatchAt(pool, ws, total, n - 1, i);
      }
      AllZero(before);
    }
  }

  /**
   The split conserves the pool: for any non-negative weights, all matches are
   non-negative, they add up to exactly the pool, every project but the last gets
   exactly its estimate, and the last at least its estimate.
   */
  lemma SplitConserves(pool: int, ws: seq<int>)
    requires 0 <= pool && NonNegative(ws) && ws != []
    ensures var total, n := SumSeq(ws), |ws|;
            var ms := Matches(pool, ws, total, n);
            && NonNegative(ms) && SumSeq(ms) == pool
            && (forall i :: 0 <= i < n - 1 ==> ms[i] == Estimate(pool, ws[i], total))
            && ms[n - 1] >= Estimate(pool, ws[n - 1], total)
  {
    var total, n := SumSeq(ws), |ws|;
    var before, ms := Matches(pool, ws, total, n - 1), Matches(pool, ws, total, n);
    assert ms[..n - 1] == before;
    forall i | 0 <= i < n - 1 ensures ms[i] == Estimate(pool, ws[i], total) {
      MatchAt(pool, ws, total, n, i);
    }
    LastTakesRest(pool, ws);
  }
}

/** A funding round in its own form: maps and lists updated by each contribution, paid out in nested loops. */
module FundingRounds {
  import opened Host
  import opened Arithmetic
  import opened QuadraticFunding

  datatype Status = Active | Finalized | Distributed

  datatype Error = InvalidAmount | RoundNotActive | RoundEnded | AlreadyContributed | Unauthorized | RoundNotEnded
                 | RoundNotFinalized | TransferFailed

  datatype Payment = Payment(to: Address, amount: int)

  type Contributions = map<(Address, Address), int>

  // ----------------------------------------------------------------------- refunds

  ghost function RefundsOf(p: Address, cs: seq<Address>, m: Contributions): int {
    if cs == [] then 0 else RefundsOf(p, cs[..|cs| - 1], m) + Get(m, (p, cs[|cs| - 1]), 0)
  }

  ghost function Refunds(ps: seq<Address>, lists: map<Address, seq<Address>>, m: Contributions): int {
    if ps == [] then 0 else
      Refunds(ps[..|ps| - 1], lists, m) + RefundsOf(ps[|ps| - 1], Get(lists, ps[|ps| - 1], []), m)
  }

  /** A new contribution leaves the refunds of everyone else alone. */
  lemma {:induction false} RefundsOfKept(p: Address, cs: seq<Address>, m: Contributions, k: (Address, Address), v: int)
    requires p == k.0 ==> k.1 !in cs
    ensures RefundsOf(p, cs, m[k := v]) == RefundsOf(p, cs, m)
  {
    if cs != [] {
      RefundsOfKept(p, cs[..|cs| - 1], m, k, v);
    }
  }

  lemma {:induction false} RefundsKept(ps: seq<Address>, lists: map<Address, seq<Address>>, m: Contributions,
                                       k: (Address, Address), v: int, list: seq<Address>)
    requires k.0 !in ps
    ensures Refunds(ps, lists[k.0 := list], m[k := v]) == Refunds(ps, lists, m)
  {
    if ps != [] {
      var p := ps[|ps| - 1];
      assert p in ps;
      RefundsKept(ps[..|ps| - 1], lists, m, k, v, list);
      RefundsOfKept(p, Get(lists, p, []), m, k, v);
    }
  }

  ghost predicate Distinct(xs: seq<Address>) {
    forall i, j :: 0 <= i < j < |xs| ==> xs[i] != xs[j]
  }

  /** One more contributor to one of the projects raises the refunds by exactly that contribution. */
  lemma {:induction false} RefundsRaised(ps: seq<Address>, lists: map<Address, seq<Address>>, m: Contributions,
                                         k: (Address, Address), v: int)
    requires Distinct(ps) && k.0 in ps && k !in m && k.1 !in Get(lists, k.0, [])
    ensures Refunds(ps, lists[k.0 := Get(lists, k.0, []) + [k.1]], m[k := v]) == Refunds(ps, lists, m) + v
  {
    var p, rest := ps[|ps| - 1], ps[..|ps| - 1];
    var list := Get(lists, k.0, []);
    if p == k.0 {
      assert k.0 !in rest;
      RefundsKept(rest, lists, m, k, v, list + [k.1]);
      RefundsOfKept(p, list, m, k, v);
      assert (list + [k.1])[..|list|] == list;
    } else {
      assert k.0 in rest;
      RefundsRaised(rest, lists, m, k, v);
      RefundsOfKept(p, Get(lists, p, []), m, k, v);
    }
  }

  // ----------------------------------------------------------------------- weights

  /** The square of a sum of roots, saturating. */
  function Weight(sqrtSum: int): int {
    Saturate(TruncDiv(sqrtSum, PRECISION) * TruncDiv(sqrtSum, PRECISION))
  }

  function Weights(ps: seq<Address>, sums: map<Address, int>): (ws: seq<int>)
    ensures |ws| == |ps| && forall i :: 0 <= i < |ps| ==> ws[i] == Weight(Get(sums, ps[i], 0))
  {
    if ps == [] then [] else Weights(ps[..|ps| - 1], sums) + [Weight(Get(sums, ps[|ps| - 1], 0))]
  }

  lemma WeightsNonNegative(ps: seq<Address>, sums: map<Address, int>)
    ensures NonNegative(Weights(ps, sums))
  {
    forall i | 0 <= i < |ps| ensures 0 <= Weights(ps, sums)[i] {
      SquareNonNegative(TruncDiv(Get(sums, ps[i], 0), PRECISION));
    }
  }

  /** The total weight, saturating. */
  function TotalOf(ws: seq<int>): int {
    if ws == [] then 0 else Saturate(TotalOf(ws[..|ws| - 1]) + ws[|ws| - 1])
  }

  lemma TotalPrefix(ws: seq<int>, i: nat)
    requires i < |ws|
    ensures TotalOf(ws[..i + 1]) == Saturate(TotalOf(ws[..i]) + ws[i])
  {
    assert ws[..i + 1][..i] == ws[..i];
  }

  lemma {:induction false} TotalExact(ws: seq<int>)
    requires NonNegative(ws)
    ensures TotalOf(ws) == Saturate(SumSeq(ws)) && 0 <= SumSeq(ws)
  {
    if ws != [] {
      TotalExact(ws[..|ws| - 1]);
    }
  }

  // ----------------------------------------------------------------------- matches

  /** The share as it is computed: the product wraps. */
  function Share(pool: int, w: int, total: int): int {
    if total > 0 then TruncDiv(WrapI128(pool * w), total) else 0
  }

  function Positive(x: int): int {
    if x > 0 then x else 0
  }

  /** What is paid out of a list of matches: only positive ones are. */
  ghost function PositiveSum(xs: seq<int>): int {
    if xs == [] then 0 else PositiveSum(xs[..|xs| - 1]) + Positive(xs[|xs| - 1])
  }

  lemma PositivePrefix(xs: seq<int>, i: nat)
    requires i < |xs|
    ensures PositiveSum(xs[..i + 1]) == PositiveSum(xs[..i]) + Positive(xs[i])
  {
    assert xs[..i + 1][..i] == xs[..i];
  }

  lemma {:induction false} PositiveSumIsSum(xs: seq<int>)
    requires NonNegative(xs)
    ensures PositiveSum(xs) == SumSeq(xs)
  {
    if xs != [] {
      PositiveSumIsSum(xs[..|xs| - 1]);
    }
  }

  /** The matches as they are computed: shares, and for the last project what has not been paid. */
  ghost function Awarded(pool: int, ws: seq<int>, total: int, n: nat): (ms: seq<int>)
    requires n <= |ws|
    ensures |ms| == n
  {
    if n == 0 then [] else
      var before := Awarded(pool, ws, total, n - 1);
      before + [if n == |ws| then pool - PositiveSum(before) else Share(pool, ws[n - 1], total)]
  }

  lemma {:induction false} AwardedPrefix(pool: int, ws: seq<int>, total: int, n: nat, i: nat)
    requires i <= n <= |ws|
    ensures Awarded(pool, ws, total, n)[..i] == Awarded(pool, ws, total, i)
  {
    if i < n {
      AwardedPrefix(pool, ws, total, n - 1, i);
    }
  }

  /** Every project but the last is awarded the share that the estimate reports, in range or not. */
  lemma AwardedAt(pool: int, ws: seq<int>, total: int, i: nat)
    requires i < |ws|
    ensures Awarded(pool, ws, total, |ws|)[i] ==
            if i == |ws| - 1 then pool - PositiveSum(Awarded(pool, ws, total, i)) else Share(pool, ws[i], total)
  {
    AwardedPrefix(pool, ws, total, |ws|, i + 1);
    assert Awarded(pool, ws, total, |ws|)[i] == Awarded(pool, ws, total, |ws|)[..i + 1][i];
  }

  /** The products that the split forms fit 128 bits. */
  ghost predicate SplitFits(pool: int, ws: seq<int>) {
    pool * SumSeq(ws) <= I128_MAX
  }

  lemma {:induction false} PartWithinSum(ws: seq<int>, i: nat)
    requires NonNegative(ws) && i < |ws|
    ensures ws[i] <= SumSeq(ws)
  {
    SumNonNegativeSeq(ws[..|ws| - 1]);
    if i < |ws| - 1 {
      PartWithinSum(ws[..|ws| - 1], i);
    }
  }

  lemma ShareExact(pool: int, ws: seq<int>, i: nat)
    requires 0 < pool && NonNegative(ws) && SplitFits(pool, ws) && i < |ws|
    ensures TotalOf(ws) == SumSeq(ws) && Share(pool, ws[i], TotalOf(ws)) == Estimate(pool, ws[i], SumSeq(ws))
  {
    TotalExact(ws);
    PartWithinSum(ws, i);
    MulLe(1, pool, SumSeq(ws));
    MulNonNegative(pool, ws[i]);
    assert pool * ws[i] == ws[i] * pool && pool * SumSeq(ws) == SumSeq(ws) * pool;
    MulLe(ws[i], SumSeq(ws), pool);
  }

  /** In range, what is awarded is the exact split. */
  lemma {:induction false} AwardedExact(pool: int, ws: seq<int>, n: nat)
    requires 0 < pool && NonNegative(ws) && SplitFits(pool, ws) && n <= |ws|
    ensures Awarded(pool, ws, TotalOf(ws), n) == Matches(pool, ws, SumSeq(ws), n)
  {
    if n > 0 {
      AwardedExact(pool, ws, n - 1);
      ShareExact(pool, ws, n - 1);
      if n == |ws| {
        LastTakesRest(pool, ws);
        PositiveSumIsSum(Matches(pool, ws, SumSeq(ws), n - 1));
      }
    }
  }

  // ---------------------------------------------------------------------- payments

  ghost function RefundList(p: Address, cs: seq<Address>, m: Contributions): seq<Payment> {
    if cs == [] then [] else
      RefundList(p, cs[..|cs| - 1], m) + [Payment(cs[|cs| - 1], Get(m, (p, cs[|cs| - 1]), 0))]
  }

  ghost function MatchPayment(p: Address, amount: int): seq<Payment> {
    if amount > 0 then [Payment(p, amount)] else []
  }

  /** The payments for one project: its match, if any, then its refunds. */
  ghost function ProjectPayments(p: Address, amount: int, cs: seq<Address>, m: Contributions): seq<Payment> {
    MatchPayment(p, amount) + RefundList(p, cs, m)
  }

  /** The payments of each project. */
  ghost function Rows(ps: seq<Address>, ms: seq<int>, lists: map<Address, seq<Address>>, m: Contributions)
    : (rows: seq<seq<Payment>>)
    requires |ps| == |ms|
    ensures |rows| == |ps|
    ensures forall i :: 0 <= i < |ps| ==> rows[i] == ProjectPayments(ps[i], ms[i], Get(lists, ps[i], []), m)
  {
    seq(|ps|, i requires 0 <= i < |ps| => ProjectPayments(ps[i], ms[i], Get(lists, ps[i], []), m))
  }

  /** The first `n` rows, one after the other. */
  ghost function Flatten(rows: seq<seq<Payment>>, n: nat): seq<Payment>
    requires n <= |rows|
  {
    if n == 0 then [] else Flatten(rows, n - 1) + rows[n - 1]
  }

  ghost function Paid(payments: seq<Payment>): int {
    if payments == [] then 0 else Paid(payments[..|payments| - 1]) + payments[|payments| - 1].amount
  }

  lemma {:induction false} PaidAppend(a: seq<Payment>, b: seq<Payment>)
    ensures Paid(a + b) == Paid(a) + Paid(b)
  {
    if b == [] {
      assert a + b == a;
    } else {
      PaidAppend(a, b[..|b| - 1]);
      assert (a + b)[..|a + b| - 1] == a + b[..|b| - 1];
    }
  }

  lemma {:induction false} RefundListPays(p: Address, cs: seq<Address>, m: Contributions)
    ensures Paid(RefundList(p, cs, m)) == RefundsOf(p, cs, m)
  {
    if cs != [] {
      RefundListPays(p, cs[..|cs| - 1], m);
      var before := RefundList(p, cs[..|cs| - 1], m);
      var last := Payment(cs[|cs| - 1], Get(m, (p, cs[|cs| - 1]), 0));
      assert (before + [last])[..|before|] == before;
    }
  }

  lemma ProjectPays(p: Address, amount: int, cs: seq<Address>, m: Contributions)
    ensures Paid(ProjectPayments(p, amount, cs, m)) == Positive(amount) + RefundsOf(p, cs, m)
  {
    assert [Payment(p, amount)][..0] == [];
    PaidAppend(MatchPayment(p, amount), RefundList(p, cs, m));
    RefundListPays(p, cs, m);
  }

  /** What the first `n` rows pay. */
  ghost function RowsPay(rows: seq<seq<Payment>>, n: nat): int
    requires n <= |rows|
  {
    if n == 0 then 0 else RowsPay(rows, n - 1) + Paid(rows[n - 1])
  }

  lemma {:induction false} FlattenPays(rows: seq<seq<Payment>>, n: nat)
    requires n <= |rows|
    ensures Paid(Flatten(rows, n)) == RowsPay(rows, n)
  {
    if n > 0 {
      FlattenPays(rows, n - 1);
      PaidAppend(Flatten(rows, n - 1), rows[n - 1]);
    }
  }

  lemma {:induction false} RowsAddUp(ps: seq<Address>, ms: seq<int>, lists: map<Address, seq<Address>>,
                                     m: Contributions, rows: seq<seq<Payment>>, n: nat)
    requires n <= |ps| == |ms| == |rows|
    requires forall i :: 0 <= i < n ==> Paid(rows[i]) == Positive(ms[i]) + RefundsOf(ps[i], Get(lists, ps[i], []), m)
    ensures RowsPay(rows, n) == PositiveSum(ms[..n]) + Refunds(ps[..n], lists, m)
  {
    if n > 0 {
      RowsAddUp(ps, ms, lists, m, rows, n - 1);
      assert ms[..n][..n - 1] == ms[..n - 1] && ps[..n][..n - 1] == ps[..n - 1];
    }
  }

  /** The payments add up to the positive matches plus the refunds. */
  lemma PaymentsAddUp(ps: seq<Address>, ms: seq<int>, lists: map<Address, seq<Address>>, m: Contributions)
    requires |ps| == |ms|
    ensures Paid(Flatten(Rows(ps, ms, lists, m), |ps|)) == PositiveSum(ms) + Refunds(ps, lists, m)
  {
    var rows := Rows(ps, ms, lists, m);
    forall i | 0 <= i < |ps|
      ensures Paid(rows[i]) == Positive(ms[i]) + RefundsOf(ps[i], Get(lists, ps[i], []), m)
    {
      ProjectPays(ps[i], ms[i], Get(lists, ps[i], []), m);
    }
    FlattenPays(rows, |ps|);
    RowsAddUp(ps, ms, lists, m, rows, |ps|);
    assert ms[..|ps|] == ms && ps[..|ps|] == ps;
  }

  ghost predicate NoneNegative(payments: seq<Payment>) {
    forall i :: 0 <= i < |payments| ==> 0 <= payments[i].amount
  }

  ghost predicate AllPositive(m: Contributions) {
    forall k :: k in m ==> 0 < m[k]
  }

  lemma {:induction false} RefundsNoneNegative(p: Address, cs: seq<Address>, m: Contributions)
    requires AllPositive(m)
    ensures NoneNegative(RefundList(p, cs, m))
  {
    if cs != [] {
      RefundsNoneNegative(p, cs[..|cs| - 1], m);
    }
  }

  lemma {:induction false} FlattenNoneNegative(rows: seq<seq<Payment>>, n: nat)
    requires n <= |rows| && forall i :: 0 <= i < n ==> NoneNegative(rows[i])
    ensures NoneNegative(Flatten(rows, n))
  {
    if n > 0 {
      FlattenNoneNegative(rows, n - 1);
    }
  }

  lemma PaymentsNoneNegative(ps: seq<Address>, ms: seq<int>, lists: map<Address, seq<Address>>, m: Contributions)
    requires |ps| == |ms| && AllPositive(m)
    ensures NoneNegative(Flatten(Rows(ps, ms, lists, m), |ps|))
  {
    var rows := Rows(ps, ms, lists, m);
    forall i | 0 <= i < |ps| ensures NoneNegative(rows[i]) {
      RefundsNoneNegative(ps[i], Get(lists, ps[i], []), m);
    }
    FlattenNoneNegative(rows, |ps|);
  }

  lemma {:induction false} PaidNonNegative(payments: seq<Payment>)
    requires NoneNegative(payments)
    ensures 0 <= Paid(payments)
  {
    if payments != [] {
      PaidNonNegative(payments[..|payments| - 1]);
    }
  }

  lemma {:induction false} PaidPrefix(payments: seq<Payment>, i: nat)
    requires NoneNegative(payments) && i <= |payments|
    ensures 0 <= Paid(payments[..i]) <= Paid(payments)
    decreases |payments| - i, i
  {
    assert payments[..|payments|] == payments;
    if i < |payments| {
      PaidPrefix(payments, i + 1);
      assert payments[..i + 1][..i] == payments[..i];
      PaidNonNegative(payments[..i]);
    } else {
      PaidNonNegative(payments);
    }
  }

  // ------------------------------------------------------------------ who gets what

  ghost function PaidTo(payments: seq<Payment>, a: Address): int {
    if payments == [] then 0 else
      var last := payments[|payments| - 1];
      PaidTo(payments[..|payments| - 1], a) + if last.to == a then last.amount else 0
  }

  lemma {:induction false} PaidToAppend(x: seq<Payment>, y: seq<Payment>, a: Address)
    ensures PaidTo(x + y, a) == PaidTo(x, a) + PaidTo(y, a)
  {
    if y == [] {
      assert x + y == x;
    } else {
      PaidToAppend(x, y[..|y| - 1], a);
      assert (x + y)[..|x + y| - 1] == x + y[..|y| - 1];
    }
  }

  lemma {:induction false} RefundTo(p: Address, cs: seq<Address>, m: Contributions, a: Address)
    requires Distinct(cs)
    ensures PaidTo(RefundList(p, cs, m), a) == if a in cs then Get(m, (p, a), 0) else 0
  {
    if cs != [] {
      RefundTo(p, cs[..|cs| - 1], m, a);
      var before := RefundList(p, cs[..|cs| - 1], m);
      var last := Payment(cs[|cs| - 1], Get(m, (p, cs[|cs| - 1]), 0));
      assert (before + [last])[..|before|] == before;
    }
  }

  /** What one project brings an address: the match if it is the project, and its own contribution. */
  ghost function ProjectDue(p: Address, amount: int, cs: seq<Address>, m: Contributions, a: Address): int {
    (if p == a then Positive(amount) else 0) + if a in cs then Get(m, (p, a), 0) else 0
  }

  lemma ProjectTo(p: Address, amount: int, cs: seq<Address>, m: Contributions, a: Address)
    requires Distinct(cs)
    ensures PaidTo(ProjectPayments(p, amount, cs, m), a) == ProjectDue(p, amount, cs, m, a)
  {
    assert [Payment(p, amount)][..0] == [];
    PaidToAppend(MatchPayment(p, amount), RefundList(p, cs, m), a);
    RefundTo(p, cs, m, a);
  }

  ghost predicate AllDistinct(lists: map<Address, seq<Address>>) {
    forall p :: p in lists ==> Distinct(lists[p])
  }

  ghost function RowsPayTo(rows: seq<seq<Payment>>, n: nat, a: Address): int
    requires n <= |rows|
  {
    if n == 0 then 0 else RowsPayTo(rows, n - 1, a) + PaidTo(rows[n - 1], a)
  }

  lemma {:induction false} FlattenPaysTo(rows: seq<seq<Payment>>, n: nat, a: Address)
    requires n <= |rows|
    ensures PaidTo(Flatten(rows, n), a) == RowsPayTo(rows, n, a)
  {
    if n > 0 {
      FlattenPaysTo(rows, n - 1, a);
      PaidToAppend(Flatten(rows, n - 1), rows[n - 1], a);
    }
  }

  /** What the first `n` projects bring an address. */
  ghost function Due(ps: seq<Address>, ms: seq<int>, lists: map<Address, seq<Address>>, m: Contributions, n: nat,
                     a: Address): int
    requires n <= |ps| == |ms|
  {
    if n == 0 then 0 else
      Due(ps, ms, lists, m, n - 1, a) + ProjectDue(ps[n - 1], ms[n - 1], Get(lists, ps[n - 1], []), m, a)
  }

  lemma {:induction false} RowsAreDue(ps: seq<Address>, ms: seq<int>, lists: map<Address, seq<Address>>,
                                      m: Contributions, rows: seq<seq<Payment>>, n: nat, a: Address)
    requires n <= |ps| == |ms| == |rows|
    requires forall i :: 0 <= i < n ==> PaidTo(rows[i], a) == ProjectDue(ps[i], ms[i], Get(lists, ps[i], []), m, a)
    ensures RowsPayTo(rows, n, a) == Due(ps, ms, lists, m, n, a)
  {
    if n > 0 {
      RowsAreDue(ps, ms, lists, m, rows, n - 1, a);
    }
  }

  /** Every address is paid exactly what the projects bring it. */
  lemma EveryonePaid(ps: seq<Address>, ms: seq<int>, lists: map<Address, seq<Address>>, m: Contributions, a: Address)
    requires |ps| == |ms| && AllDistinct(lists)
    ensures PaidTo(Flatten(Rows(ps, ms, lists, m), |ps|), a) == Due(ps, ms, lists, m, |ps|, a)
  {
    var rows := Rows(ps, ms, lists, m);
    forall i | 0 <= i < |ps| ensures PaidTo(rows[i], a) == ProjectDue(ps[i], ms[i], Get(lists, ps[i], []), m, a) {
      ProjectTo(ps[i], ms[i], Get(lists, ps[i], []), m, a);
    }
    FlattenPaysTo(rows, |ps|, a);
    RowsAreDue(ps, ms, lists, m, rows, |ps|, a);
  }

  // ----------------------------------------------------------------- registration

  /** Lists and map agree: a contribution is recorded for exactly the listed contributors of each project. */
  ghost predicate Registered(ps: seq<Address>, lists: map<Address, seq<Address>>, m: Contributions) {
    && Distinct(ps)
    && AllDistinct(lists) && (forall p :: p in lists ==> p in ps)
    && (forall p, c :: (p, c) in m <==> p in lists && c in lists[p])
  }

  function WithProject(ps: seq<Address>, p: Address): seq<Address> {
    if p in ps then ps else ps + [p]
  }

  /** The contributor lists with one more contributor to `p`. */
  function Listed(lists: map<Address, seq<Address>>, p: Address, c: Address): map<Address, seq<Address>> {
    lists[p := Get(lists, p, []) + [c]]
  }

  function Raised(sums: map<Address, int>, p: Address, root: int): map<Address, int> {
    sums[p := Saturate(Get(sums, p, 0) + root)]
  }

  lemma NewProject(ps: seq<Address>, p: Address, lists: map<Address, seq<Address>>, m: Contributions)
    requires Distinct(ps) && p !in ps && p !in lists
    ensures Distinct(ps + [p]) && Refunds(ps + [p], lists, m) == Refunds(ps, lists, m)
  {
    assert (ps + [p])[..|ps|] == ps;
  }

  lemma RegisteredAfter(ps: seq<Address>, lists: map<Address, seq<Address>>, m: Contributions, k: (Address, Address),
                        v: int)
    requires Registered(ps, lists, m) && k !in m
    ensures var qs, next := WithProject(ps, k.0), Listed(lists, k.0, k.1);
            Registered(qs, next, m[k := v]) && Refunds(qs, next, m[k := v]) == Refunds(ps, lists, m) + v
  {
    var qs, next := WithProject(ps, k.0), Listed(lists, k.0, k.1);
    assert (k.0, k.1) == k;
    if k.0 !in ps {
      NewProject(ps, k.0, lists, m);
    }
    RefundsRaised(qs, lists, m, k, v);
    forall p, c ensures (p, c) in m[k := v] <==> p in next && c in next[p] {
    }
  }

  // -------------------------------------------------------------------- the round

  // --------------------------------------------------------------------------- roots

  /** The roots of a project's contributions, added up in the order they came, saturating. */
  ghost function RootSum(p: Address, cs: seq<Address>, roots: Contributions): int {
    if cs == [] then 0 else Saturate(RootSum(p, cs[..|cs| - 1], roots) + Get(roots, (p, cs[|cs| - 1]), 0))
  }

  lemma {:induction false} RootSumKept(p: Address, cs: seq<Address>, roots: Contributions, k: (Address, Address),
                                       v: int)
    requires p == k.0 ==> k.1 !in cs
    ensures RootSum(p, cs, roots[k := v]) == RootSum(p, cs, roots)
  {
    if cs != [] {
      RootSumKept(p, cs[..|cs| - 1], roots, k, v);
    }
  }

  /** `roots` are the scaled roots of the contributions, and the sums kept per project are theirs. */
  ghost predicate SumsRoots(m: Contributions, lists: map<Address, seq<Address>>, sums: map<Address, int>,
                            roots: Contributions)
  {
    && (forall k :: k in m ==> k in roots && IsScaledRoot(m[k], roots[k]))
    && (forall p :: Get(sums, p, 0) == RootSum(p, Get(lists, p, []), roots))
  }

  /** The sums kept per project are those of the roots of its contributions. */
  ghost predicate Rooted(m: Contributions, lists: map<Address, seq<Address>>, sums: map<Address, int>) {
    exists roots :: SumsRoots(m, lists, sums, roots)
  }

  lemma RootSumAfter(lists: map<Address, seq<Address>>, sums: map<Address, int>, roots: Contributions,
                     k: (Address, Address), root: int, p: Address)
    requires Get(sums, p, 0) == RootSum(p, Get(lists, p, []), roots) && k.1 !in Get(lists, k.0, [])
    ensures Get(Raised(sums, k.0, root), p, 0) == RootSum(p, Get(Listed(lists, k.0, k.1), p, []), roots[k := root])
  {
    var list := Get(lists, p, []);
    if p == k.0 {
      RootSumKept(p, list, roots, k, root);
      assert (list + [k.1])[..|list|] == list && (k.0, k.1) == k;
    } else {
      RootSumKept(p, list, roots, k, root);
    }
  }

  lemma SumsRootsAfter(m: Contributions, lists: map<Address, seq<Address>>, sums: map<Address, int>,
                       roots: Contributions, k: (Address, Address), v: int, root: int)
    requires SumsRoots(m, lists, sums, roots) && IsScaledRoot(v, root) && k.1 !in Get(lists, k.0, [])
    ensures SumsRoots(m[k := v], Listed(lists, k.0, k.1), Raised(sums, k.0, root), roots[k := root])
  {
    var next, raised, more := Listed(lists, k.0, k.1), Raised(sums, k.0, root), roots[k := root];
    forall p ensures Get(raised, p, 0) == RootSum(p, Get(next, p, []), more) {
      RootSumAfter(lists, sums, roots, k, root, p);
    }
  }

  lemma RootedAfter(m: Contributions, lists: map<Address, seq<Address>>, sums: map<Address, int>,
                    k: (Address, Address), v: int, root: int)
    requires Rooted(m, lists, sums) && IsScaledRoot(v, root) && k.1 !in Get(lists, k.0, [])
    ensures Rooted(m[k := v], Listed(lists, k.0, k.1), Raised(sums, k.0, root))
  {
    var roots :| SumsRoots(m, lists, sums, roots);
    SumsRootsAfter(m, lists, sums, roots, k, v, root);
  }

  /** What is stored of a round. `escrow` is what the contract holds for it, `paid` what it paid out. */
  datatype RoundData = RoundData(
    status: Status,
    total: int,
    projects: seq<Address>,
    contributors: map<Address, seq<Address>>,
    contributions: Contributions,
    sqrtSums: map<Address, int>,
    escrow: int,
    paid: seq<Payment>)
  {
    function WeightList(): seq<int> { Weights(projects, sqrtSums) }

    ghost function MatchList(pool: int): (ms: seq<int>)
      ensures |ms| == |projects|
    {
      Awarded(pool, WeightList(), TotalOf(WeightList()), |projects|)
    }

    ghost function PaymentRows(pool: int): (rows: seq<seq<Payment>>)
      ensures |rows| == |projects|
    {
      Rows(projects, MatchList(pool), contributors, contributions)
    }
  }

  /** Contributions and pool are all there until they are paid out. */
  ghost predicate Valid(d: RoundData, pool: int) {
    && pool > 0 && Registered(d.projects, d.contributors, d.contributions)
    && AllPositive(d.contributions) && Rooted(d.contributions, d.contributors, d.sqrtSums)
    && d.total == Refunds(d.projects, d.contributors, d.contributions)
    && (d.status != Distributed ==> d.escrow == pool + d.total && d.paid == [])
  }

  function Contributed(d: RoundData, contributor: Address, project: Address, amount: int, root: int): RoundData {
    d.(projects := WithProject(d.projects, project),
       contributors := Listed(d.contributors, project, contributor),
       sqrtSums := Raised(d.sqrtSums, project, root),
       contributions := d.contributions[(project, contributor) := amount],
       total := d.total + amount,
       escrow := d.escrow + amount)
  }

  lemma ContributedValid(d: RoundData, pool: int, contributor: Address, project: Address, amount: int, root: int)
    requires Valid(d, pool) && (project, contributor) !in d.contributions && d.status != Distributed && 0 < amount
    requires IsScaledRoot(amount, root)
    ensures Valid(Contributed(d, contributor, project, amount, root), pool)
  {
    RegisteredAfter(d.projects, d.contributors, d.contributions, (project, contributor), amount);
    RootedAfter(d.contributions, d.contributors, d.sqrtSums, (project, contributor), amount, root);
  }

  /** The round after everything is paid out. */
  ghost function PaidOut(d: RoundData, pool: int): RoundData {
    var payments := Flatten(d.PaymentRows(pool), |d.projects|);
    d.(status := Distributed, paid := payments, escrow := d.escrow - Paid(payments))
  }

  lemma PaidOutValid(d: RoundData, pool: int)
    requires Valid(d, pool)
    ensures Valid(PaidOut(d, pool), pool)
  {
  }

  lemma SplitSums(pool: int, ws: seq<int>)
    requires 0 <= pool && NonNegative(ws)
    ensures var ms := Matches(pool, ws, SumSeq(ws), |ws|);
            NonNegative(ms) && SumSeq(ms) == if ws == [] then 0 else pool
  {
    if ws != [] {
      SplitConserves(pool, ws);
    }
  }

  lemma {:induction false} AllZeroPositive(xs: seq<int>)
    requires forall i :: 0 <= i < |xs| ==> xs[i] == 0
    ensures PositiveSum(xs) == 0
  {
    if xs != [] {
      AllZeroPositive(xs[..|xs| - 1]);
    }
  }

  lemma RefundsNonNegative(d: RoundData)
    requires AllPositive(d.contributions)
    ensures 0 <= Refunds(d.projects, d.contributors, d.contributions)
  {
    var none := seq(|d.projects|, _ => 0);
    AllZeroPositive(none);
    PaymentsAddUp(d.projects, none, d.contributors, d.contributions);
    PaymentsNoneNegative(d.projects, none, d.contributors, d.contributions);
    PaidNonNegative(Flatten(Rows(d.projects, none, d.contributors, d.contributions), |d.projects|));
  }

  lemma NoRefunds(d: RoundData)
    ensures d.projects == [] ==> Refunds(d.projects, d.contributors, d.contributions) == 0
  {
  }

  /** In range, what is awarded adds up to the pool. */
  lemma AwardedSums(pool: int, ws: seq<int>, ms: seq<int>, d: RoundData)
    requires 0 < pool && SplitFits(pool, ws) && ws == d.WeightList() && ms == d.MatchList(pool)
    ensures NonNegative(ms) && PositiveSum(ms) == if d.projects == [] then 0 else pool
  {
    WeightsNonNegative(d.projects, d.sqrtSums);
    AwardedExact(pool, ws, |ws|);
    SplitSums(pool, ws);
    PositiveSumIsSum(ms);
  }

  lemma PaidOutPays(d: RoundData, pool: int, ms: seq<int>)
    requires ms == d.MatchList(pool)
    ensures Paid(PaidOut(d, pool).paid) == PositiveSum(ms) + Refunds(d.projects, d.contributors, d.contributions)
  {
    PaymentsAddUp(d.projects, ms, d.contributors, d.contributions);
  }

  /**
   While the split's products fit 128 bits, a distribution pays out exactly the
   matching pool and every contribution, when there is at least one project;
   otherwise it pays nothing and the pool stays.
   */
  lemma DistributionConserves(d: RoundData, pool: int)
    requires Valid(d, pool) && d.status != Distributed && SplitFits(pool, d.WeightList())
    ensures var e := PaidOut(d, pool);
            && Valid(e, pool) && NonNegative(d.MatchList(pool))
            && Paid(e.paid) == (if d.projects == [] then 0 else pool + d.total) <= d.escrow
            && e.escrow == (if d.projects == [] then pool else 0)
  {
    AwardedSums(pool, d.WeightList(), d.MatchList(pool), d);
    PaidOutPays(d, pool, d.MatchList(pool));
    PaidOutValid(d, pool);
    RefundsNonNegative(d);
    NoRefunds(d);
  }

  method WeightOf(d: RoundData, i: nat) returns (w: int)
    requires i < |d.projects|
    ensures w == d.WeightList()[i]
  {
    var sum := Get(d.sqrtSums, d.projects[i], 0);
    w := Saturate(TruncDiv(sum, PRECISION) * TruncDiv(sum, PRECISION));
  }

  method TotalWeight(d: RoundData) returns (w: int)
    ensures w == TotalOf(d.WeightList())
  {
    w := 0;
    ghost var ws := d.WeightList();
    for i := 0 to |d.projects|
      invariant w == TotalOf(ws[..i])
    {
      var next := WeightOf(d, i);
      w := Saturate(w + next);
      TotalPrefix(ws, i);
    }
    assert ws[..|d.projects|] == ws;
  }

  /** The share of project `i`; the last one absorbs the rounding remainder. */
  method ShareOf(d: RoundData, pool: int, i: nat, totalWeight: int, distributed: int) returns (share: int)
    requires i < |d.projects| && totalWeight == TotalOf(d.WeightList())
    requires distributed == PositiveSum(d.MatchList(pool)[..i])
    ensures share == d.MatchList(pool)[i]
  {
    AwardedAt(pool, d.WeightList(), totalWeight, i);
    AwardedPrefix(pool, d.WeightList(), totalWeight, |d.projects|, i);
    var weight := WeightOf(d, i);
    share := if i == |d.projects| - 1 then pool - distributed
             else if totalWeight > 0 then TruncDiv(WrapI128(pool * weight), totalWeight) else 0;
  }

  /** Pays back everyone who contributed to `project`. */
  method Refund(d: RoundData, project: Address) returns (payments: seq<Payment>)
    requires Registered(d.projects, d.contributors, d.contributions)
    ensures payments == RefundList(project, Get(d.contributors, project, []), d.contributions)
  {
    var cs := Get(d.contributors, project, []);
    payments := [];
    for j := 0 to |cs|
      invariant payments == RefundList(project, cs[..j], d.contributions)
    {
      assert cs[j] in cs;
      payments := payments + [Payment(cs[j], d.contributions[(project, cs[j])])];
      assert cs[..j + 1][..j] == cs[..j];
    }
    assert cs[..|cs|] == cs;
  }

  /** The transfers, one by one: the first that the holding does not cover fails the call. */
  method Send(payments: seq<Payment>, held: int) returns (ok: bool, left: int)
    requires NoneNegative(payments) && 0 <= held
    ensures ok <==> Paid(payments) <= held
    ensures ok ==> left == held - Paid(payments)
  {
    left := held;
    for i := 0 to |payments|
      invariant left == held - Paid(payments[..i]) && 0 <= left
    {
      assert payments[..i + 1][..i] == payments[..i];
      PaidPrefix(payments, i + 1);
      if payments[i].amount > left {
        return false, left;
      }
      left := left - payments[i].amount;
    }
    assert payments[..|payments|] == payments;
    return true, left;
  }

  /** One project's turn: its match, if any, then its refunds. */
  method PayProject(d: RoundData, pool: int, i: nat, totalWeight: int, distributed: int)
    returns (payments: seq<Payment>, paid: int)
    requires Registered(d.projects, d.contributors, d.contributions)
    requires i < |d.projects| && totalWeight == TotalOf(d.WeightList())
    requires distributed == PositiveSum(d.MatchList(pool)[..i])
    ensures payments == d.PaymentRows(pool)[i]
    ensures paid == PositiveSum(d.MatchList(pool)[..i + 1])
  {
    var share := ShareOf(d, pool, i, totalWeight, distributed);
    var refunds := Refund(d, d.projects[i]);
    payments := (if share > 0 then [Payment(d.projects[i], share)] else []) + refunds;
    paid := distributed + if share > 0 then share else 0;
    PositivePrefix(d.MatchList(pool), i);
  }

  /** The loop over the projects. */
  method PayAll(d: RoundData, pool: int) returns (payments: seq<Payment>)
    requires Registered(d.projects, d.contributors, d.contributions)
    ensures payments == Flatten(d.PaymentRows(pool), |d.projects|)
  {
    var totalWeight := TotalWeight(d);
    ghost var ms, rows := d.MatchList(pool), d.PaymentRows(pool);
    var distributed, i := 0, 0;
    payments := [];
    while i < |d.projects|
      invariant 0 <= i <= |d.projects|
      invariant payments == Flatten(rows, i)
      invariant distributed == PositiveSum(ms[..i])
    {
      var next;
      next, distributed := PayProject(d, pool, i, totalWeight, distributed);
      payments := payments + next;
      i := i + 1;
    }
  }

  class Round {
    const admin: Address
    const pool: int
    const endTime: nat
    var data: RoundData

    constructor (admin: Address, pool: int, endTime: nat)
      requires pool > 0
      ensures Valid(data, pool) && this.pool == pool && this.admin == admin && this.endTime == endTime
      ensures data == RoundData(Active, 0, [], map[], map[], map[], pool, [])
    {
      this.admin, this.pool, this.endTime := admin, pool, endTime;
      data := RoundData(Active, 0, [], map[], map[], map[], pool, []);
      assert SumsRoots(map[], map[], map[], map[]);
    }

    /** `create_round`: a pool and a duration, both positive; the pool is deposited at once. */
    static method Create(admin: Address, pool: int, tokenOk: bool, now: nat, duration: nat)
      returns (round: Round?, error: Option<Error>)
      ensures error == if pool <= 0 || duration == 0 then Some(InvalidAmount)
                       else if !tokenOk then Some(TransferFailed) else None
      ensures error.None? <==> round != null
      ensures round != null ==>
                && fresh(round) && Valid(round.data, round.pool) && round.pool == pool && round.admin == admin
                && round.endTime == (if now + duration <= U64_MAX then now + duration else U64_MAX)
                && round.data == RoundData(Active, 0, [], map[], map[], map[], pool, [])
    {
      if pool <= 0 || duration == 0 {
        return null, Some(InvalidAmount);
      }
      if !tokenOk {
        return null, Some(TransferFailed);
      }
      var endTime := if now + duration <= U64_MAX then now + duration else U64_MAX;
      error := None;
      round := new Round(admin, pool, endTime);
    }

    /** One contribution per contributor and project, while the round is open; everything else is refused. */
    method Contribute(contributor: Address, project: Address, amount: int, tokenOk: bool, now: nat)
      returns (error: Option<Error>)
      requires Valid(data, pool)
      modifies this
      ensures Valid(data, pool)
      ensures error == if amount <= 0 then Some(InvalidAmount)
                       else if old(data).status != Active then Some(RoundNotActive)
                       else if now > endTime then Some(RoundEnded)
                       else if (project, contributor) in old(data).contributions then Some(AlreadyContributed)
                       else if !tokenOk then Some(TransferFailed) else None
      ensures error.Some? ==> data == old(data)
      ensures error.None? ==> exists root :: IsScaledRoot(amount, root)
                                && data == Contributed(old(data), contributor, project, amount, root)
    {
      if amount <= 0 {
        return Some(InvalidAmount);
      }
      if data.status != Active {
        return Some(RoundNotActive);
      }
      if now > endTime {
        return Some(RoundEnded);
      }
      if (project, contributor) in data.contributions {
        return Some(AlreadyContributed);
      }
      var root := IsqrtScaled(amount);
      if !tokenOk {
        return Some(TransferFailed);
      }
      ContributedValid(data, pool, contributor, project, amount, root);
      Record(contributor, project, amount, root);
      return None;
    }

    /** The writes of an accepted contribution, key by key. */
    method Record(contributor: Address, project: Address, amount: int, root: int)
      modifies this
      ensures data == Contributed(old(data), contributor, project, amount, root)
    {
      data := data.(projects := WithProject(data.projects, project));
      data := data.(contributors := Listed(data.contributors, project, contributor));
      data := data.(sqrtSums := Raised(data.sqrtSums, project, root));
      data := data.(contributions := data.contributions[(project, contributor) := amount]);
      data := data.(total := data.total + amount);
      data := data.(escrow := data.escrow + amount);
      assert data == Contributed(old(data), contributor, project, amount, root);
    }

    method Finalize(caller: Address, now: nat) returns (error: Option<Error>)
      modifies this
      ensures error == if admin != caller then Some(Unauthorized)
                       else if old(data).status != Active then Some(RoundNotActive)
                       else if now < endTime then Some(RoundNotEnded) else None
      ensures data == if error.None? then old(data).(status := Finalized) else old(data)
    {
      if admin != caller {
        return Some(Unauthorized);
      }
      if data.status != Active {
        return Some(RoundNotActive);
      }
      if now < endTime {
        return Some(RoundNotEnded);
      }
      data := data.(status := Finalized);
      return None;
    }

    /** Matches go to projects, contributions back to contributors, as long as what the contract holds lasts. */
    method DistributeMatching(caller: Address, held: int) returns (error: Option<Error>)
      requires Valid(data, pool) && 0 <= held
      modifies this
      ensures Valid(data, pool)
      ensures error == if admin != caller then Some(Unauthorized)
                       else if old(data).status != Finalized then Some(RoundNotFinalized)
                       else if Paid(PaidOut(old(data), pool).paid) > held then Some(TransferFailed) else None
      ensures data == if error.None? then PaidOut(old(data), pool) else old(data)
    {
      if admin != caller {
        return Some(Unauthorized);
      }
      if data.status != Finalized {
        return Some(RoundNotFinalized);
      }
      var payments := PayAll(data, pool);
      PaymentsNoneNegative(data.projects, data.MatchList(pool), data.contributors, data.contributions);
      var ok, left := Send(payments, held);
      if !ok {
        return Some(TransferFailed);
      }
      PaidOutValid(data, pool);
      Settle(payments, held - left);
      return None;
    }

    /** The writes of a distribution whose transfers went through. */
    method Settle(payments: seq<Payment>, spent: int)
      modifies this
      ensures data == old(data).(status := Distributed, paid := payments, escrow := old(data).escrow - spent)
    {
      data := data.(paid := payments);
      data := data.(escrow := data.escrow - spent);
      data := data.(status := Distributed);
    }
  }

  /** Among the first `i` projects, `w` is the weight of `project`, found at `at`, or 0 when it is not there. */
  ghost predicate WeightAmong(ps: seq<Address>, ws: seq<int>, project: Address, i: nat, w: int, at: nat)
    requires i <= |ps| == |ws|
  {
    if project in ps[..i] then at < i && ps[at] == project && w == ws[at] else w == 0
  }

  /** What a scan of the first `i` projects has found. */
  ghost predicate Weighed(ps: seq<Address>, ws: seq<int>, project: Address, i: nat, total: int, w: int, at: nat)
    requires i <= |ps| == |ws|
  {
    total == TotalOf(ws[..i]) && WeightAmong(ps, ws, project, i, w, at)
  }

  lemma WeighedNext(ps: seq<Address>, ws: seq<int>, project: Address, i: nat, total: int, w: int, at: nat)
    requires i < |ps| == |ws| && Weighed(ps, ws, project, i, total, w, at)
    ensures if ps[i] == project then Weighed(ps, ws, project, i + 1, Saturate(total + ws[i]), ws[i], i)
            else Weighed(ps, ws, project, i + 1, Saturate(total + ws[i]), w, at)
  {
    TotalPrefix(ws, i);
    assert ps[..i + 1] == ps[..i] + [ps[i]];
  }

  /** The weights of all projects together, and of one: 0 when nobody contributed to it. */
  method WeighProject(d: RoundData, project: Address) returns (totalWeight: int, projectWeight: int, ghost at: nat)
    ensures totalWeight == TotalOf(d.WeightList())
    ensures if project in d.projects
            then at < |d.projects| && d.projects[at] == project && projectWeight == d.WeightList()[at]
            else projectWeight == 0
  {
    ghost var ws := d.WeightList();
    totalWeight, projectWeight, at := 0, 0, 0;
    for i := 0 to |d.projects|
      invariant Weighed(d.projects, ws, project, i, totalWeight, projectWeight, at)
    {
      var w := WeightOf(d, i);
      WeighedNext(d.projects, ws, project, i, totalWeight, projectWeight, at);
      totalWeight := Saturate(totalWeight + w);
      if d.projects[i] == project {
        projectWeight := w;
        at := i;
      }
    }
    assert ws[..|d.projects|] == ws && d.projects[..|d.projects|] == d.projects;
  }

  // ------------------------------------------------------------- the law of matching

  /** The weight of a project whose roots add up to `q` units and a fraction is `q` squared. */
  lemma WeightIsSquare(sum: int, q: int)
    requires 0 <= q && q * 10_000_000 <= sum < (q + 1) * 10_000_000
    ensures Weight(sum) == if q * q <= I128_MAX then q * q else I128_MAX
  {
    QuotientIs(sum, PRECISION, q);
    SquareNonNegative(q);
  }

  /** `qs` are the sums of roots of the projects, in whole units. */
  ghost predicate AreUnits(d: RoundData, qs: seq<int>) {
    && |qs| == |d.projects|
    && forall i :: 0 <= i < |qs| ==>
         0 <= qs[i] && qs[i] * 10_000_000 <= Get(d.sqrtSums, d.projects[i], 0) < (qs[i] + 1) * 10_000_000
  }

  ghost function SquareSum(qs: seq<int>): int {
    if qs == [] then 0 else SquareSum(qs[..|qs| - 1]) + qs[|qs| - 1] * qs[|qs| - 1]
  }

  lemma {:induction false} SquareSumNonNegative(qs: seq<int>)
    ensures 0 <= SquareSum(qs)
  {
    if qs != [] {
      SquareSumNonNegative(qs[..|qs| - 1]);
      SquareNonNegative(qs[|qs| - 1]);
    }
  }

  lemma {:induction false} SquaresWithin(qs: seq<int>, i: nat)
    requires i < |qs|
    ensures 0 <= qs[i] * qs[i] <= SquareSum(qs)
  {
    SquareNonNegative(qs[|qs| - 1]);
    SquareNonNegative(qs[i]);
    SquareSumNonNegative(qs[..|qs| - 1]);
    if i < |qs| - 1 {
      SquaresWithin(qs[..|qs| - 1], i);
    }
  }

  lemma {:induction false} SumOfSquares(ws: seq<int>, qs: seq<int>)
    requires |ws| == |qs| && forall i :: 0 <= i < |qs| ==> ws[i] == qs[i] * qs[i]
    ensures SumSeq(ws) == SquareSum(qs)
  {
    if qs != [] {
      SumOfSquares(ws[..|ws| - 1], qs[..|qs| - 1]);
    }
  }

  lemma WeightsAreSquares(d: RoundData, qs: seq<int>)
    requires AreUnits(d, qs) && SquareSum(qs) <= I128_MAX
    ensures forall i :: 0 <= i < |qs| ==> d.WeightList()[i] == qs[i] * qs[i]
    ensures SumSeq(d.WeightList()) == SquareSum(qs)
  {
    forall i | 0 <= i < |qs| ensures d.WeightList()[i] == qs[i] * qs[i] {
      WeightIsSquare(Get(d.sqrtSums, d.projects[i], 0), qs[i]);
      SquaresWithin(qs, i);
    }
    SumOfSquares(d.WeightList(), qs);
  }

  /** `share` is the integer part of pool * part / total, and 0 when there is nothing to share by. */
  predicate IsShare(share: int, pool: int, part: int, total: int) {
    if total == 0 then share == 0 else share * total <= pool * part < (share + 1) * total
  }

  lemma AddOneTimes(q: int, d: int)
    ensures (q + 1) * d == q * d + d
  {
  }

  lemma EstimateIsShare(pool: int, w: int, total: int)
    requires 0 <= total
    ensures IsShare(Estimate(pool, w, total), pool, w, total)
  {
    if total > 0 {
      Quotient(pool * w, total);
      AddOneTimes(pool * w / total, total);
    }
  }

  lemma RangeFits(pool: int, total: int)
    requires 0 < pool && 0 <= total && pool * total <= I128_MAX
    ensures total <= I128_MAX
  {
    MulLe(1, pool, total);
  }

  lemma ShareLaw(d: RoundData, pool: int, qs: seq<int>, i: nat)
    requires 0 < pool && AreUnits(d, qs) && pool * SquareSum(qs) <= I128_MAX && i < |qs|
    ensures IsShare(Share(pool, d.WeightList()[i], TotalOf(d.WeightList())), pool, qs[i] * qs[i], SquareSum(qs))
  {
    SquareSumNonNegative(qs);
    RangeFits(pool, SquareSum(qs));
    WeightsAreSquares(d, qs);
    WeightsNonNegative(d.projects, d.sqrtSums);
    ShareExact(pool, d.WeightList(), i);
    EstimateIsShare(pool, qs[i] * qs[i], SquareSum(qs));
  }

  /**
   The law of quadratic matching: when the roots of the contributions to project
   `i` add up to `qs[i]` units, it is awarded the integer part of the pool times
   qs[i]^2 over the sum of all squares, and the last project what is left.
   */
  lemma MatchLaw(d: RoundData, pool: int, qs: seq<int>, i: nat)
    requires 0 < pool && AreUnits(d, qs) && pool * SquareSum(qs) <= I128_MAX && i < |qs|
    ensures var ms := d.MatchList(pool);
            && NonNegative(ms) && SumSeq(ms) == pool
            && (i < |qs| - 1 ==> IsShare(ms[i], pool, qs[i] * qs[i], SquareSum(qs)))
  {
    SquareSumNonNegative(qs);
    RangeFits(pool, SquareSum(qs));
    WeightsAreSquares(d, qs);
    WeightsNonNegative(d.projects, d.sqrtSums);
    AwardedExact(pool, d.WeightList(), |qs|);
    SplitConserves(pool, d.WeightList());
    ShareLaw(d, pool, qs, i);
    AwardedAt(pool, d.WeightList(), TotalOf(d.WeightList()), i);
  }

  lemma SquareScaled(k: int)
    ensures k * PRECISION * (k * PRECISION) == k * k * PRECISION * PRECISION
  {
  }

  lemma SquareIsRoot(s: int)
    requires 0 <= s
    ensures IsRoot(s * s, s)
  {
    Square(s, 1);
  }

  lemma RootOfSquareIn(k: int, root: int, n: int)
    requires 0 < k && IsRoot(n, root) && n == k * k * PRECISION * PRECISION
    ensures root == k * PRECISION
  {
    SquareScaled(k);
    SquareIsRoot(k * PRECISION);
    RootUnique(n, root, k * PRECISION);
  }

  /** The root of a scaled square is exact. */
  lemma RootOfSquare(k: int, root: int)
    requires 0 < k
    ensures k * k * PRECISION * PRECISION <= I128_MAX && IsScaledRoot(k * k, root) ==> root == k * PRECISION
  {
    SquareNonNegative(k);
    MulLe(1, k, k);
    if k * k * PRECISION * PRECISION <= I128_MAX && IsScaledRoot(k * k, root) {
      RootOfSquareIn(k, root, k * k * PRECISION * PRECISION);
    }
  }

  lemma {:induction false} EqualRootsAdd(p: Address, cs: seq<Address>, roots: Contributions, root: int)
    requires forall c :: c in cs ==> (p, c) in roots && roots[(p, c)] == root
    requires 0 <= root && |cs| * root <= I128_MAX
    ensures RootSum(p, cs, roots) == |cs| * root
  {
    if cs != [] {
      var n := |cs| - 1;
      AddOneTimes(n, root);
      MulNonNegative(n, root);
      EqualRootsAdd(p, cs[..n], roots, root);
    }
  }

  lemma SquareOfProduct(n: int, k: int)
    ensures n * k * (n * k) == n * n * (k * k)
  {
  }

  lemma Rescale(n: int, k: int)
    ensures n * (k * PRECISION) == n * k * PRECISION
  {
  }

  /** The roots of equal contributions of `k * k` add up to `k` units each. */
  lemma EqualContributionsAdd(d: RoundData, p: Address, cs: seq<Address>, k: int)
    requires Rooted(d.contributions, d.contributors, d.sqrtSums) && cs == Get(d.contributors, p, []) && 0 < k
    requires forall c :: c in cs ==> (p, c) in d.contributions && d.contributions[(p, c)] == k * k
    requires k * k * PRECISION * PRECISION <= I128_MAX && |cs| * (k * PRECISION) <= I128_MAX
    ensures Get(d.sqrtSums, p, 0) == |cs| * (k * PRECISION)
  {
    var roots :| SumsRoots(d.contributions, d.contributors, d.sqrtSums, roots);
    forall c | c in cs ensures (p, c) in roots && roots[(p, c)] == k * PRECISION {
      RootOfSquare(k, roots[(p, c)]);
    }
    EqualRootsAdd(p, cs, roots, k * PRECISION);
  }

  /** `n` equal contributors of `k * k` weigh n^2 times as much as one of them. */
  lemma EqualContributors(d: RoundData, pool: int, p: Address, cs: seq<Address>, k: int)
    requires Valid(d, pool) && cs == Get(d.contributors, p, []) && 0 < k
    requires forall c :: c in cs ==> (p, c) in d.contributions && d.contributions[(p, c)] == k * k
    requires k * k * PRECISION * PRECISION <= I128_MAX && |cs| * (k * PRECISION) <= I128_MAX
    requires |cs| * |cs| * (k * k) <= I128_MAX
    ensures Weight(Get(d.sqrtSums, p, 0)) == |cs| * |cs| * (k * k)
  {
    EqualContributionsAdd(d, p, cs, k);
    MulNonNegative(|cs|, k);
    Rescale(|cs|, k);
    WeightIsSquare(|cs| * k * PRECISION, |cs| * k);
    SquareOfProduct(|cs|, k);
  }

  lemma NoShare(pool: int, total: int)
    ensures Share(pool, 0, total) == 0
  {
  }

  /**
   The estimate for a project is the share that a distribution computes; while the
   products fit, that is its share by squared sums of roots. A project nobody
   contributed to gets none.
   */
  method GetMatchEstimate(d: RoundData, pool: int, project: Address) returns (estimate: int, ghost at: nat)
    requires 0 < pool
    ensures project !in d.projects ==> estimate == 0
    ensures project in d.projects ==>
              && at < |d.projects| && d.projects[at] == project
              && estimate == Share(pool, d.WeightList()[at], TotalOf(d.WeightList()))
              && (forall qs :: AreUnits(d, qs) && pool * SquareSum(qs) <= I128_MAX ==>
                    IsShare(estimate, pool, qs[at] * qs[at], SquareSum(qs)))
  {
    WeightsNonNegative(d.projects, d.sqrtSums);
    TotalExact(d.WeightList());
    var totalWeight, projectWeight;
    totalWeight, projectWeight, at := WeighProject(d, project);
    NoShare(pool, totalWeight);
    if project in d.projects {
      forall qs | AreUnits(d, qs) && pool * SquareSum(qs) <= I128_MAX
        ensures IsShare(Share(pool, d.WeightList()[at], TotalOf(d.WeightList())), pool, qs[at] * qs[at], SquareSum(qs))
      {
        ShareLaw(d, pool, qs, at);
      }
    }
    estimate := if totalWeight == 0 then 0 else TruncDiv(WrapI128(pool * projectWeight), totalWeight);
  }
}
