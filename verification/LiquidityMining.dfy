/**
 Liquidity mining: staked positions that accrue boosted rewards, which vest
 linearly after a cliff and are paid from a fixed allocation.
 */
module LiquidityMining {
  import opened Host
  import opened Arithmetic

  const SECONDS_PER_YEAR: nat := 31_536_000
  const PRECISION: int := 10_000_000
  const MAX_BOOST: int := 30_000_000
  const MIN_BOOST: int := 10_000_000
  const MAX_VESTING_DURATION: nat := 4 * SECONDS_PER_YEAR
  const YEAR_BPS: int := 10_000 * SECONDS_PER_YEAR

  datatype Program = Program(
    lpToken: Address,
    rewardToken: Address,
    totalRewards: int,
    distributed: int,
    rateBps: nat,
    cliff: nat,
    duration: nat,
    end: nat,
    totalStaked: int,
    active: bool)

  /** `claimed` is the field the source calls `claimable_rewards`. */
  datatype Position = Position(
    staked: int,
    entry: nat,
    lastUpdate: nat,
    pending: int,
    claimed: int,
    earned: int,
    boost: int,
    lockUntil: nat)

  // ----------------------------------------------------------------------- rewards

  function ComputeRewards(amount: int, rateBps: nat, elapsed: nat): int {
    if amount <= 0 || elapsed == 0 || rateBps == 0 then 0 else amount * rateBps * elapsed / YEAR_BPS
  }

  function ApplyBoostFactor(raw: int, boost: int): int {
    TruncDiv(raw * boost, PRECISION)
  }

  /** The time up to which rewards accrue: the program end, once it is past. */
  function EffectiveNow(end: nat, now: nat): nat {
    if end > 0 && now > end then end else now
  }

  function Accrue(g: Program, p: Position, now: nat): Position {
    if now <= p.lastUpdate then p else
      var effective := EffectiveNow(g.end, now);
      if effective <= p.lastUpdate then p else
        var raw := ComputeRewards(p.staked, g.rateBps, effective - p.lastUpdate);
        var boosted := ApplyBoostFactor(raw, p.boost);
        p.(pending := p.pending + boosted, earned := p.earned + boosted, lastUpdate := effective)
  }

  /** The rewards of an interval, in closed form. */
  function Reward(staked: int, rateBps: nat, boost: int, elapsed: nat): int {
    ApplyBoostFactor(ComputeRewards(staked, rateBps, elapsed), boost)
  }

  lemma RewardNonNegative(staked: int, rateBps: nat, boost: int, elapsed: nat)
    requires 0 <= boost
    ensures 0 <= ComputeRewards(staked, rateBps, elapsed) && 0 <= Reward(staked, rateBps, boost, elapsed)
  {
    if staked > 0 {
      MulNonNegative(staked, rateBps);
      MulNonNegative(staked * rateBps, elapsed);
      DivNonNegative(staked * rateBps * elapsed, YEAR_BPS);
    }
    MulNonNegative(ComputeRewards(staked, rateBps, elapsed), boost);
  }

  /** Splitting an interval loses at most one raw unit. */
  lemma RawSplit(staked: int, rateBps: nat, a: nat, b: nat)
    ensures var x, y := ComputeRewards(staked, rateBps, a), ComputeRewards(staked, rateBps, b);
            x + y <= ComputeRewards(staked, rateBps, a + b) <= x + y + 1
  {
    if staked > 0 && rateBps > 0 {
      var k := staked * rateBps;
      assert k * (a + b) == k * a + k * b;
      DivSplit(k * a, k * b, YEAR_BPS);
      assert a == 0 ==> k * a == 0;
      assert b == 0 ==> k * b == 0;
    }
  }

  /** A boost of at most 3x turns one raw unit into at most three, and splitting loses at most one more. */
  lemma BoostSplit(x: int, y: int, z: int, boost: int)
    requires 0 <= x && 0 <= y && x + y <= z <= x + y + 1 && 0 <= boost <= MAX_BOOST
    ensures var u, v := ApplyBoostFactor(x, boost), ApplyBoostFactor(y, boost);
            u + v <= ApplyBoostFactor(z, boost) <= u + v + 4
  {
    MulNonNegative(x, boost);
    MulNonNegative(y, boost);
    assert (x + y) * boost == x * boost + y * boost;
    assert (x + y + 1) * boost == (x + y) * boost + boost;
    MulLe(x + y, z, boost);
    MulLe(z, x + y + 1, boost);
    DivSplit(x * boost, y * boost, PRECISION);
    DivLe((x + y) * boost, z * boost, PRECISION);
    DivLe(z * boost, (x + y) * boost + 3 * PRECISION, PRECISION);
    DivAddMultiple((x + y) * boost, 3, PRECISION);
  }

  /** One extra poke costs at most four units, and never gains. */
  lemma RewardSplit(staked: int, rateBps: nat, boost: int, a: nat, b: nat)
    requires 0 <= boost <= MAX_BOOST
    ensures var u, v := Reward(staked, rateBps, boost, a), Reward(staked, rateBps, boost, b);
            u + v <= Reward(staked, rateBps, boost, a + b) <= u + v + 4
  {
    RewardNonNegative(staked, rateBps, boost, a);
    RewardNonNegative(staked, rateBps, boost, b);
    RawSplit(staked, rateBps, a, b);
    BoostSplit(ComputeRewards(staked, rateBps, a), ComputeRewards(staked, rateBps, b),
               ComputeRewards(staked, rateBps, a + b), boost);
  }

  /**
   When the first product of an accrual fits 128 bits, so does the boosted one: a
   year is longer than the boost is high.
   */
  lemma RewardFits(staked: int, rateBps: nat, boost: int, elapsed: nat)
    requires 0 <= staked && staked * rateBps * elapsed <= I128_MAX && 0 <= boost <= MAX_BOOST
    ensures 0 <= ComputeRewards(staked, rateBps, elapsed) * boost <= I128_MAX
  {
    RewardNonNegative(staked, rateBps, boost, elapsed);
    var raw := ComputeRewards(staked, rateBps, elapsed);
    MulNonNegative(raw, boost);
    if raw > 0 {
      Quotient(staked * rateBps * elapsed, YEAR_BPS);
      MulLeBoth(raw, raw, boost, YEAR_BPS);
    }
  }

  // ------------------------------------------------------- how often accrual is poked

  /** Accruing at each of the given times, in order. */
  function Poked(g: Program, p: Position, times: seq<nat>): Position {
    if times == [] then p else Accrue(g, Poked(g, p, times[..|times| - 1]), times[|times| - 1])
  }

  function Later(a: nat, b: nat): nat { if a < b then b else a }

  lemma AccrueEarns(g: Program, p: Position, now: nat)
    ensures var q := Accrue(g, p, now);
            && q == p.(pending := q.pending, earned := q.earned, lastUpdate := q.lastUpdate)
            && q.lastUpdate == Later(p.lastUpdate, EffectiveNow(g.end, now))
            && q.earned == p.earned + Reward(p.staked, g.rateBps, p.boost, q.lastUpdate - p.lastUpdate)
            && q.pending - p.pending == q.earned - p.earned
  {
  }

  /**
   At fixed stake and boost, accruing at any intermediate times never earns more
   than one accrual at the last of them, and at most 4 units less per extra time.
   The program end clamps both alike.
   */
  lemma {:induction false} PokingHardlyMatters(g: Program, p: Position, times: seq<nat>)
    requires times != [] && 0 <= p.boost <= MAX_BOOST
    requires forall i, j :: 0 <= i <= j < |times| ==> times[i] <= times[j]
    ensures var once, often := Accrue(g, p, times[|times| - 1]), Poked(g, p, times);
            && once.lastUpdate == often.lastUpdate && often.staked == p.staked && often.boost == p.boost
            && often.earned <= once.earned <= often.earned + 4 * (|times| - 1)
    decreases |times|
  {
    var last := times[|times| - 1];
    if |times| == 1 {
      assert times[..0] == [];
    } else {
      var init := times[..|times| - 1];
      PokingHardlyMatters(g, p, init);
      var q, mid := Poked(g, p, init), Accrue(g, p, init[|init| - 1]);
      AccrueEarns(g, p, init[|init| - 1]);
      AccrueEarns(g, p, last);
      AccrueEarns(g, q, last);
      var once, often := Accrue(g, p, last), Accrue(g, q, last);
      RewardSplit(p.staked, g.rateBps, p.boost, mid.lastUpdate - p.lastUpdate, once.lastUpdate - mid.lastUpdate);
    }
  }

  // ----------------------------------------------------------------------- vesting

  /** The vested fraction, `vesting` seconds after the cliff. */
  function Fraction(vesting: nat, whole: nat): int {
    if whole == 0 || vesting >= whole then PRECISION else vesting * PRECISION / whole
  }

  /** The vested part of everything earned. */
  function TotalVested(g: Program, p: Position, now: nat): int
    requires g.cliff <= g.duration
  {
    var elapsed := if now >= p.entry then now - p.entry else 0;
    if elapsed < g.cliff then 0
    else TruncDiv(p.earned * Fraction(elapsed - g.cliff, g.duration - g.cliff), PRECISION)
  }

  /** `compute_vested`: what is vested and not claimed yet. */
  function ComputeVested(g: Program, p: Position, now: nat): int
    requires g.cliff <= g.duration
  {
    var elapsed := if now >= p.entry then now - p.entry else 0;
    if elapsed < g.cliff then 0 else
      var unclaimed := TotalVested(g, p, now) - p.claimed;
      if unclaimed < 0 then 0 else unclaimed
  }

  lemma FractionBounds(vesting: nat, later: nat, whole: nat)
    requires vesting <= later
    ensures 0 <= Fraction(vesting, whole) <= Fraction(later, whole) <= PRECISION
  {
    if whole > 0 && vesting < whole {
      assert vesting * PRECISION == PRECISION * vesting;
      ShareAtMost(PRECISION, vesting, whole);
      if later < whole {
        assert later * PRECISION == PRECISION * later;
        ShareAtMost(PRECISION, later, whole);
        ShareMonotone(PRECISION, PRECISION, vesting, later, whole);
      }
    }
  }

  /** The vested share stays within what was earned, and grows with time and with earnings. */
  lemma VestedBounds(g: Program, p: Position, now: nat, q: Position, later: nat)
    requires g.cliff <= g.duration && 0 <= p.earned <= q.earned && p.entry == q.entry && now <= later
    ensures 0 <= TotalVested(g, p, now) <= TotalVested(g, q, later) <= q.earned
  {
    var e := if now >= p.entry then now - p.entry else 0;
    var f := if later >= p.entry then later - p.entry else 0;
    var whole := g.duration - g.cliff;
    if f >= g.cliff {
      FractionBounds(f - g.cliff, f - g.cliff, whole);
      ShareAtMost(q.earned, Fraction(f - g.cliff, whole), PRECISION);
      MulNonNegative(q.earned, Fraction(f - g.cliff, whole));
      if e >= g.cliff {
        FractionBounds(e - g.cliff, f - g.cliff, whole);
        MulNonNegative(p.earned, Fraction(e - g.cliff, whole));
        DivNonNegative(p.earned * Fraction(e - g.cliff, whole), PRECISION);
        ShareMonotone(p.earned, q.earned, Fraction(e - g.cliff, whole), Fraction(f - g.cliff, whole), PRECISION);
      }
    }
  }
}

/** The ledger of one mining program over whole runs. */
module MiningLedger {
  import opened Host
  import opened Arithmetic
  import opened LiquidityMining

  /** A program, its positions, and what the contract holds per token. */
  datatype Mining = Mining(program: Program, positions: map<Address, Position>, held: map<Address, int>)

  datatype Error = InvalidAmount | ProgramInactive | ProgramEnded | PositionNotFound | InsufficientBalance
                 | NothingToClaim | RewardsExhausted | InvalidDuration | BoostTooLow
                 | InvalidRate | InvalidVesting | InvalidEndTime | TransferFailed

  type Result<T> = Outcome<T, Error>

  // --------------------------------------------------------------------- operations

  /** `tokenOk`: the token contract accepts the transfer from the caller. */
  function CreateProgram(lpToken: Address, rewardToken: Address, totalRewards: int, rateBps: nat, cliff: nat,
                         duration: nat, end: nat, held: map<Address, int>, tokenOk: bool, now: nat): Result<Mining>
  {
    if totalRewards <= 0 then Err(InvalidAmount) else
    :- Need(rateBps != 0, InvalidRate);
    :- Need(duration >= cliff, InvalidVesting);
    :- Need(duration <= MAX_VESTING_DURATION, InvalidVesting);
    :- Need(!(end > 0 && end <= now), InvalidEndTime);
    :- Need(tokenOk, TransferFailed);
    Ok(Mining(Program(lpToken, rewardToken, totalRewards, 0, rateBps, cliff, duration, end, 0, true), map[],
              TransferIn(held, rewardToken, totalRewards)))
  }

  function NewPosition(now: nat): Position {
    Position(0, now, now, 0, 0, 0, MIN_BOOST, 0)
  }

  /** The position of a provider as it is stored, or a new one. */
  function PositionOf(m: Mining, provider: Address, now: nat): Position {
    Get(m.positions, provider, NewPosition(now))
  }

  /** The position brought up to date. */
  function Accrued(m: Mining, provider: Address, now: nat): Position {
    Accrue(m.program, PositionOf(m, provider, now), now)
  }

  /** The provider's position stored with its stake changed by `amount`, and the total with it. */
  function Restaked(m: Mining, provider: Address, p: Position, amount: int, held: map<Address, int>): Mining {
    Mining(m.program.(totalStaked := m.program.totalStaked + amount),
           m.positions[provider := p.(staked := p.staked + amount)], held)
  }

  /** The provider's position stored with `amount` of its rewards paid out. */
  function Rewarded(m: Mining, provider: Address, p: Position, amount: int, held: map<Address, int>): Mining {
    Mining(m.program.(distributed := m.program.distributed + amount),
           m.positions[provider := p.(claimed := p.claimed + amount)], held)
  }

  function Stake(m: Mining, provider: Address, amount: int, tokenOk: bool, now: nat): Result<Mining> {
    var g := m.program;
    :- Need(amount > 0, InvalidAmount);
    :- Need(g.active, ProgramInactive);
    :- Need(!(g.end > 0 && now >= g.end), ProgramEnded);
    :- Need(tokenOk, TransferFailed);
    Ok(Restaked(m, provider, Accrued(m, provider, now), amount, TransferIn(m.held, g.lpToken, amount)))
  }

  function Unstake(m: Mining, provider: Address, amount: int, now: nat): Result<Mining> {
    if amount <= 0 then Err(InvalidAmount) else
    :- Need(provider in m.positions, PositionNotFound);
    :- Need(amount <= m.positions[provider].staked, InsufficientBalance);
    var held :- TransferOut(m.held, m.program.lpToken, amount, TransferFailed);
    Ok(Restaked(m, provider, Accrued(m, provider, now), -amount, held))
  }

  function Claim(m: Mining, provider: Address, now: nat): Result<Mining>
    requires m.program.cliff <= m.program.duration
  {
    var g := m.program;
    :- Need(provider in m.positions, PositionNotFound);
    var claimable := ComputeVested(g, Accrued(m, provider, now), now);
    :- Need(claimable > 0, NothingToClaim);
    var remaining := g.totalRewards - g.distributed;
    var actual := if claimable < remaining then claimable else remaining;
    :- Need(actual > 0, RewardsExhausted);
    var held :- TransferOut(m.held, g.rewardToken, actual, TransferFailed);
    Ok(Rewarded(m, provider, Accrued(m, provider, now), actual, held))
  }

  function BoostFor(lock: nat): int {
    var clamped := if lock < SECONDS_PER_YEAR then lock else SECONDS_PER_YEAR;
    var boost := MIN_BOOST + (MAX_BOOST - MIN_BOOST) * clamped / SECONDS_PER_YEAR;
    if boost < MAX_BOOST then boost else MAX_BOOST
  }

  function ApplyBoost(m: Mining, provider: Address, lock: nat, now: nat): Result<Mining> {
    if lock == 0 then Err(InvalidDuration) else
    :- Need(provider in m.positions, PositionNotFound);
    var p := Accrue(m.program, m.positions[provider], now);
    :- Need(BoostFor(lock) > p.boost, BoostTooLow);
    Ok(m.(positions := m.positions[provider := p.(boost := BoostFor(lock), lockUntil := now + lock)]))
  }

  function Deactivate(m: Mining): Result<Mining> {
    if !m.program.active then Err(ProgramInactive) else
    Ok(m.(program := m.program.(active := false)))
  }

  // ---------------------------------------------------------------------- invariant

  ghost function Staked(ps: map<Address, Position>): map<Address, int> {
    map a | a in ps :: ps[a].staked
  }

  ghost function Claimed(ps: map<Address, Position>): map<Address, int> {
    map a | a in ps :: ps[a].claimed
  }

  ghost predicate PositionGood(g: Program, p: Position, now: nat)
    requires g.cliff <= g.duration
  {
    && 0 <= p.staked && 0 <= p.earned && p.pending == p.earned
    && 0 <= p.claimed <= TotalVested(g, p, now) <= p.earned
    && MIN_BOOST <= p.boost <= MAX_BOOST
    && p.entry <= p.lastUpdate <= now
  }

  /** What a program still owes in a token: the stakes, and the rewards not yet distributed. */
  function Owed(g: Program, token: Address): int {
    (if token == g.lpToken then g.totalStaked else 0)
    + if token == g.rewardToken then g.totalRewards - g.distributed else 0
  }

  predicate Covered(g: Program, held: map<Address, int>) {
    Owed(g, g.lpToken) <= Get(held, g.lpToken, 0) && Owed(g, g.rewardToken) <= Get(held, g.rewardToken, 0)
  }

  /** A program and its positions agree. */
  ghost predicate Sound(g: Program, positions: map<Address, Position>, now: nat) {
    && g.cliff <= g.duration && 0 <= g.distributed <= g.totalRewards
    && (forall a :: a in positions ==> PositionGood(g, positions[a], now))
    && g.totalStaked == Sum(Staked(positions))
    && g.distributed == Sum(Claimed(positions))
  }

  ghost predicate Good(m: Mining, now: nat) {
    Covered(m.program, m.held) && Sound(m.program, m.positions, now)
  }

  lemma SumsUpdate(ps: map<Address, Position>, a: Address, p: Position)
    ensures Sum(Staked(ps[a := p])) == Sum(Staked(ps)) + p.staked - (if a in ps then ps[a].staked else 0)
    ensures Sum(Claimed(ps[a := p])) == Sum(Claimed(ps)) + p.claimed - (if a in ps then ps[a].claimed else 0)
  {
    SumUpdate(Staked(ps), a, p.staked);
    assert Staked(ps[a := p]) == Staked(ps)[a := p.staked];
    SumUpdate(Claimed(ps), a, p.claimed);
    assert Claimed(ps[a := p]) == Claimed(ps)[a := p.claimed];
  }

  /** Accrual only adds earnings, and keeps claims within the vested share. */
  lemma AccrueKeeps(g: Program, p: Position, before: nat, now: nat)
    requires g.cliff <= g.duration && before <= now && PositionGood(g, p, before)
    ensures var q := Accrue(g, p, now);
            PositionGood(g, q, now) && q.staked == p.staked && q.claimed == p.claimed && q.boost == p.boost
            && q.entry == p.entry && p.earned <= q.earned
  {
    AccrueEarns(g, p, now);
    var q := Accrue(g, p, now);
    RewardNonNegative(p.staked, g.rateBps, p.boost, q.lastUpdate - p.lastUpdate);
    VestedBounds(g, p, before, q, now);
  }

  lemma PositionLater(g: Program, p: Position, before: nat, now: nat)
    requires g.cliff <= g.duration && before <= now && PositionGood(g, p, before)
    ensures PositionGood(g, p, now)
  {
    VestedBounds(g, p, before, p, now);
  }

  /** Only the fields that vesting reads matter to a position. */
  lemma PositionIgnores(g: Program, h: Program, p: Position, q: Position, now: nat)
    requires g.cliff <= g.duration && h.cliff == g.cliff && h.duration == g.duration
    requires PositionGood(g, p, now)
    requires q == p.(staked := q.staked, boost := q.boost, lockUntil := q.lockUntil, claimed := q.claimed)
    requires 0 <= q.staked && MIN_BOOST <= q.boost <= MAX_BOOST && 0 <= q.claimed <= TotalVested(g, p, now)
    ensures PositionGood(h, q, now)
  {
  }

  lemma NewPositionGood(g: Program, now: nat)
    requires g.cliff <= g.duration
    ensures PositionGood(g, NewPosition(now), now)
  {
    VestedBounds(g, NewPosition(now), now, NewPosition(now), now);
  }

  /** Replacing one position and adjusting the two totals with it. */
  lemma ReplaceKeeps(m: Mining, g: Program, a: Address, p: Position, held: map<Address, int>, before: nat, now: nat,
                     n: Mining)
    requires Good(m, before) && before <= now && Covered(g, held) && n == Mining(g, m.positions[a := p], held)
    requires g.cliff == m.program.cliff && g.duration == m.program.duration && g.totalRewards == m.program.totalRewards
    requires PositionGood(g, p, now)
    requires g.totalStaked - m.program.totalStaked == p.staked - (if a in m.positions then m.positions[a].staked else 0)
    requires g.distributed - m.program.distributed ==
             p.claimed - (if a in m.positions then m.positions[a].claimed else 0)
    requires 0 <= g.distributed <= g.totalRewards
    ensures Good(n, now)
  {
    SumsUpdate(m.positions, a, p);
    forall b | b in m.positions ensures PositionGood(g, m.positions[b], now) {
      PositionLater(m.program, m.positions[b], before, now);
      PositionIgnores(m.program, g, m.positions[b], m.positions[b], now);
    }
  }

  /** The position an operation starts from: the stored one, or a new one, brought up to date. */
  lemma StartKeeps(m: Mining, provider: Address, before: nat, now: nat)
    requires Good(m, before) && before <= now
    ensures var p := Accrued(m, provider, now);
            && PositionGood(m.program, p, now)
            && p.staked == (if provider in m.positions then m.positions[provider].staked else 0)
            && p.claimed == (if provider in m.positions then m.positions[provider].claimed else 0)
  {
    if provider in m.positions {
      AccrueKeeps(m.program, m.positions[provider], before, now);
    } else {
      NewPositionGood(m.program, now);
      AccrueKeeps(m.program, NewPosition(now), now, now);
    }
  }

  /** Changing one stake, and the holding of stakes with it. */
  lemma RestakeKeeps(m: Mining, provider: Address, p: Position, amount: int, held: map<Address, int>, before: nat,
                     now: nat)
    requires Good(m, before) && before <= now && 0 <= p.staked + amount && PositionGood(m.program, p, now)
    requires p.staked == (if provider in m.positions then m.positions[provider].staked else 0)
    requires p.claimed == (if provider in m.positions then m.positions[provider].claimed else 0)
    requires Covered(m.program.(totalStaked := m.program.totalStaked + amount), held)
    ensures Good(Restaked(m, provider, p, amount, held), now)
  {
    var g := m.program;
    var h, q := g.(totalStaked := g.totalStaked + amount), p.(staked := p.staked + amount);
    PositionIgnores(g, h, p, q, now);
    ReplaceKeeps(m, h, provider, q, held, before, now, Restaked(m, provider, p, amount, held));
  }

  lemma RestakeAccrued(m: Mining, provider: Address, amount: int, held: map<Address, int>, before: nat, now: nat,
                       n: Mining)
    requires n == Restaked(m, provider, Accrued(m, provider, now), amount, held)
    requires Good(m, before) && before <= now
    requires 0 <= amount + if provider in m.positions then m.positions[provider].staked else 0
    requires Covered(m.program.(totalStaked := m.program.totalStaked + amount), held)
    ensures Good(n, now)
  {
    StartKeeps(m, provider, before, now);
    RestakeKeeps(m, provider, Accrued(m, provider, now), amount, held, before, now);
  }

  lemma StakeKeeps(m: Mining, provider: Address, amount: int, tokenOk: bool, before: nat, now: nat)
    requires Good(m, before) && before <= now
    ensures var r := Stake(m, provider, amount, tokenOk, now); r.Ok? ==> Good(r.value, now)
  {
    if Stake(m, provider, amount, tokenOk, now).Ok? {
      var held := TransferIn(m.held, m.program.lpToken, amount);
      RestakeAccrued(m, provider, amount, held, before, now, Stake(m, provider, amount, tokenOk, now).value);
    }
  }

  /** Stakes and undistributed rewards are covered by what is held, so paying them never fails for lack of tokens. */
  lemma StakeCovered(m: Mining, provider: Address, now: nat)
    requires Good(m, now) && provider in m.positions
    ensures m.positions[provider].staked <= m.program.totalStaked <= Get(m.held, m.program.lpToken, 0)
    ensures m.program.totalRewards - m.program.distributed <= Get(m.held, m.program.rewardToken, 0)
  {
    SumAtLeast(Staked(m.positions), provider);
  }

  lemma UnstakePays(m: Mining, provider: Address, amount: int, now: nat)
    requires provider in m.positions && 0 < amount <= m.positions[provider].staked
    requires amount <= Get(m.held, m.program.lpToken, 0)
    ensures var paid := TransferOut(m.held, m.program.lpToken, amount, TransferFailed);
            paid.Ok? && Unstake(m, provider, amount, now) ==
                        Ok(Restaked(m, provider, Accrued(m, provider, now), -amount, paid.value))
  {
  }

  lemma UnstakeSucceeds(m: Mining, provider: Address, amount: int, before: nat, now: nat)
    requires Good(m, before) && before <= now && provider in m.positions && 0 < amount <= m.positions[provider].staked
    ensures var r := Unstake(m, provider, amount, now); r.Ok? && Good(r.value, now)
  {
    StakeCovered(m, provider, before);
    UnstakePays(m, provider, amount, now);
    var held := TransferOut(m.held, m.program.lpToken, amount, TransferFailed).value;
    RestakeAccrued(m, provider, -amount, held, before, now, Unstake(m, provider, amount, now).value);
  }

  /** Any part of a stake can be taken out at any time; nothing else can. */
  lemma UnstakeKeeps(m: Mining, provider: Address, amount: int, before: nat, now: nat)
    requires Good(m, before) && before <= now
    ensures var r := Unstake(m, provider, amount, now);
            && (r.Ok? <==> provider in m.positions && 0 < amount <= m.positions[provider].staked)
            && r != Err(TransferFailed) && (r.Ok? ==> Good(r.value, now))
  {
    if provider in m.positions && 0 < amount <= m.positions[provider].staked {
      UnstakeSucceeds(m, provider, amount, before, now);
    }
  }

  /** Paying out rewards within the vested share and the allocation. */
  lemma RewardKeeps(m: Mining, provider: Address, p: Position, amount: int, held: map<Address, int>, before: nat,
                    now: nat)
    requires Good(m, before) && before <= now && 0 <= amount <= m.program.totalRewards - m.program.distributed
    requires PositionGood(m.program, p, now) && p.claimed + amount <= TotalVested(m.program, p, now)
    requires p.staked == (if provider in m.positions then m.positions[provider].staked else 0)
    requires p.claimed == (if provider in m.positions then m.positions[provider].claimed else 0)
    requires Covered(m.program.(distributed := m.program.distributed + amount), held)
    ensures Good(Rewarded(m, provider, p, amount, held), now)
  {
    var g := m.program;
    var h, q := g.(distributed := g.distributed + amount), p.(claimed := p.claimed + amount);
    PositionIgnores(g, h, p, q, now);
    ReplaceKeeps(m, h, provider, q, held, before, now, Rewarded(m, provider, p, amount, held));
  }

  /** What is vested and unclaimed is what is left between the claims and the vested share. */
  lemma VestedIsUnclaimed(g: Program, p: Position, now: nat)
    requires g.cliff <= g.duration && PositionGood(g, p, now)
    ensures ComputeVested(g, p, now) == TotalVested(g, p, now) - p.claimed
  {
  }

  /** What a claim would pay: the vested and unclaimed part, cut to what is left of the allocation. */
  function Payable(g: Program, p: Position, now: nat): int
    requires g.cliff <= g.duration
  {
    var claimable, remaining := ComputeVested(g, p, now), g.totalRewards - g.distributed;
    if claimable < remaining then claimable else remaining
  }

  predicate ClaimBrings(m: Mining, n: Mining, provider: Address, now: nat)
    requires m.program.cliff <= m.program.duration
  {
    && provider in m.positions && provider in n.positions
    && 0 < n.program.distributed - m.program.distributed ==
           n.positions[provider].claimed - m.positions[provider].claimed
    && (n.positions[provider].claimed == TotalVested(m.program, Accrued(m, provider, now), now)
        || n.program.distributed == m.program.totalRewards)
  }

  lemma RewardBrings(m: Mining, provider: Address, p: Position, held: map<Address, int>, now: nat)
    requires m.program.cliff <= m.program.duration && provider in m.positions
    requires p == Accrued(m, provider, now) && PositionGood(m.program, p, now) && 0 < Payable(m.program, p, now)
    requires p.claimed == m.positions[provider].claimed
    ensures ClaimBrings(m, Rewarded(m, provider, p, Payable(m.program, p, now), held), provider, now)
  {
    VestedIsUnclaimed(m.program, p, now);
  }

  /** A claim goes through exactly when something is payable, and pays that. */
  lemma ClaimPays(m: Mining, provider: Address, now: nat)
    requires m.program.cliff <= m.program.duration && provider in m.positions
    requires m.program.totalRewards - m.program.distributed <= Get(m.held, m.program.rewardToken, 0)
    ensures var r, p := Claim(m, provider, now), Accrued(m, provider, now);
            var amount := Payable(m.program, p, now);
            var paid := TransferOut(m.held, m.program.rewardToken, amount, TransferFailed);
            if amount <= 0 then r.Err? && r != Err(TransferFailed)
            else paid.Ok? && r == Ok(Rewarded(m, provider, p, amount, paid.value))
  {
  }

  /**
   A claim goes through exactly when something is payable, never fails for lack of
   tokens, and brings the claims to the vested share or exhausts the allocation.
   */
  lemma ClaimKeeps(m: Mining, provider: Address, before: nat, now: nat)
    requires Good(m, before) && before <= now
    ensures var r := Claim(m, provider, now);
            && (r.Ok? <==> provider in m.positions && 0 < Payable(m.program, Accrued(m, provider, now), now))
            && r != Err(TransferFailed)
            && (r.Ok? ==> Good(r.value, now) && ClaimBrings(m, r.value, provider, now))
  {
    if provider in m.positions {
      StartKeeps(m, provider, before, now);
      StakeCovered(m, provider, before);
      ClaimPays(m, provider, now);
      var p := Accrued(m, provider, now);
      var amount := Payable(m.program, p, now);
      if 0 < amount {
        var held := TransferOut(m.held, m.program.rewardToken, amount, TransferFailed).value;
        VestedIsUnclaimed(m.program, p, now);
        RewardKeeps(m, provider, p, amount, held, before, now);
        RewardBrings(m, provider, p, held, now);
      }
    }
  }

  lemma BoostWithin(lock: nat)
    ensures MIN_BOOST <= BoostFor(lock) <= MAX_BOOST
  {
    var clamped := if lock < SECONDS_PER_YEAR then lock else SECONDS_PER_YEAR;
    ShareAtMost(MAX_BOOST - MIN_BOOST, clamped, SECONDS_PER_YEAR);
  }

  /** A boost stays between 1x and 3x and only ever rises. */
  lemma ApplyBoostKeeps(m: Mining, provider: Address, lock: nat, before: nat, now: nat)
    requires Good(m, before) && before <= now
    ensures var r := ApplyBoost(m, provider, lock, now); r.Ok? ==>
              Good(r.value, now) && m.positions[provider].boost < r.value.positions[provider].boost <= MAX_BOOST
  {
    var g := m.program;
    var r := ApplyBoost(m, provider, lock, now);
    if r.Ok? {
      AccrueKeeps(g, m.positions[provider], before, now);
      BoostWithin(lock);
      var p, q := Accrue(g, m.positions[provider], now), r.value.positions[provider];
      PositionIgnores(g, g, p, q, now);
      ReplaceKeeps(m, g, provider, q, m.held, before, now, r.value);
    }
  }

  lemma DeactivateKeeps(m: Mining, before: nat, now: nat)
    requires Good(m, before) && before <= now
    ensures var r := Deactivate(m); Good(m, now) && (r.Ok? ==> Good(r.value, now))
  {
    forall b | b in m.positions
      ensures PositionGood(m.program, m.positions[b], now)
      ensures PositionGood(m.program.(active := false), m.positions[b], now)
    {
      PositionLater(m.program, m.positions[b], before, now);
      PositionIgnores(m.program, m.program.(active := false), m.positions[b], m.positions[b], now);
    }
  }

  // --------------------------------------------------------------------------- runs

  datatype Op =
    | Staking(provider: Address, amount: int, tokenOk: bool)
    | Unstaking(provider: Address, amount: int)
    | Claiming(provider: Address)
    | Boosting(provider: Address, lock: nat)
    | Deactivating

  function Perform(m: Mining, op: Op, now: nat): Result<Mining>
    requires m.program.cliff <= m.program.duration
  {
    match op
    case Staking(a, amount, tokenOk) => Stake(m, a, amount, tokenOk, now)
    case Unstaking(a, amount) => Unstake(m, a, amount, now)
    case Claiming(a) => Claim(m, a, now)
    case Boosting(a, lock) => ApplyBoost(m, a, lock, now)
    case Deactivating => Deactivate(m)
  }

  function Next(m: Mining, op: Op, now: nat): Mining
    requires m.program.cliff <= m.program.duration
  {
    match Perform(m, op, now) case Ok(n) => n case Err(_) => m
  }

  lemma StepKeeps(m: Mining, op: Op, before: nat, now: nat)
    requires Good(m, before) && before <= now
    ensures Good(Next(m, op, now), now)
  {
    DeactivateKeeps(m, before, now);
    match op
    case Staking(a, amount, tokenOk) => StakeKeeps(m, a, amount, tokenOk, before, now);
    case Unstaking(a, amount) => UnstakeKeeps(m, a, amount, before, now);
    case Claiming(a) => ClaimKeeps(m, a, before, now);
    case Boosting(a, lock) => ApplyBoostKeeps(m, a, lock, before, now);
    case Deactivating =>
  }

  /** What never falls in any position: earnings, claims and boost. */
  ghost predicate NoneFall(m: Mining, n: Mining) {
    forall a :: a in m.positions ==>
      && a in n.positions
      && m.positions[a].earned <= n.positions[a].earned
      && m.positions[a].claimed <= n.positions[a].claimed
      && m.positions[a].boost <= n.positions[a].boost
  }

  /** The position an operation changes is its accrued form, claimed or boosted further if anything. */
  lemma PositionRises(m: Mining, op: Op, now: nat)
    requires m.program.cliff <= m.program.duration && !op.Deactivating? && op.provider in m.positions
    requires Perform(m, op, now).Ok?
    ensures var a, n := op.provider, Perform(m, op, now).value;
            && a in n.positions && n.positions == m.positions[a := n.positions[a]]
            && (var p, q := Accrue(m.program, m.positions[a], now), n.positions[a];
                p.earned == q.earned && p.claimed <= q.claimed && p.boost <= q.boost)
  {
  }

  lemma UpdateRises(m: Mining, n: Mining, a: Address, q: Position)
    requires a in m.positions && n.positions == m.positions[a := q]
    requires var p := m.positions[a]; p.earned <= q.earned && p.claimed <= q.claimed && p.boost <= q.boost
    ensures NoneFall(m, n)
  {
  }

  lemma StepRises(m: Mining, op: Op, before: nat, now: nat)
    requires Good(m, before) && before <= now
    ensures NoneFall(m, Next(m, op, now))
  {
    if !op.Deactivating? && op.provider in m.positions && Perform(m, op, now).Ok? {
      var a, n := op.provider, Next(m, op, now);
      AccrueKeeps(m.program, m.positions[a], before, now);
      PositionRises(m, op, now);
      UpdateRises(m, n, a, n.positions[a]);
    }
  }

  /**
   The first product of the accrual, the product that vesting forms, the staked
   total and the lock fit their types, which would wrap otherwise.
   */
  predicate InRange(m: Mining, op: Op, now: nat) {
    op.Deactivating? ||
    (var p, q := PositionOf(m, op.provider, now), Accrued(m, op.provider, now);
     && p.staked * m.program.rateBps * (q.lastUpdate - p.lastUpdate) <= I128_MAX
     && q.earned * PRECISION <= I128_MAX
     && (op.Staking? ==> m.program.totalStaked + op.amount <= I128_MAX)
     && (op.Boosting? ==> now + op.lock <= U64_MAX))
  }

  /** The other products of the operation then fit as well: the source computes what is modelled. */
  lemma OpFits(m: Mining, op: Op, before: nat, now: nat)
    requires Good(m, before) && before <= now && !op.Deactivating? && InRange(m, op, now)
    ensures var g, p, q := m.program, PositionOf(m, op.provider, now), Accrued(m, op.provider, now);
            && p.lastUpdate <= q.lastUpdate
            && 0 <= ComputeRewards(p.staked, g.rateBps, q.lastUpdate - p.lastUpdate) * p.boost <= I128_MAX
            && (forall vesting: nat, whole: nat :: 0 <= q.earned * Fraction(vesting, whole) <= I128_MAX)
  {
    var g, p, q := m.program, PositionOf(m, op.provider, now), Accrued(m, op.provider, now);
    AccrueEarns(g, p, now);
    StartKeeps(m, op.provider, before, now);
    RewardFits(p.staked, g.rateBps, p.boost, q.lastUpdate - p.lastUpdate);
    forall vesting: nat, whole: nat ensures 0 <= q.earned * Fraction(vesting, whole) <= I128_MAX {
      FractionBounds(vesting, vesting, whole);
      MulLeBoth(q.earned, q.earned, Fraction(vesting, whole), PRECISION);
      MulNonNegative(q.earned, Fraction(vesting, whole));
    }
  }

  /** The mining ledger after a list of timed operations. */
  ghost predicate Reaches(m: Mining, ops: seq<(Op, nat)>, before: nat, n: Mining)
    decreases |ops|
  {
    if ops == [] then n == m else
      && before <= ops[0].1 && m.program.cliff <= m.program.duration && InRange(m, ops[0].0, ops[0].1)
      && Reaches(Next(m, ops[0].0, ops[0].1), ops[1..], ops[0].1, n)
  }

  /**
   Over every run: rewards paid are exactly the positions' claims and within the
   allocation, the staked total is the positions' stakes, and each position's
   claims are within its vested share, which is within what it earned.
   */
  lemma {:induction false} RunGood(m: Mining, ops: seq<(Op, nat)>, before: nat, n: Mining) returns (now: nat)
    requires Good(m, before) && Reaches(m, ops, before, n)
    ensures before <= now && Good(n, now) && NoneFall(m, n)
    decreases |ops|
  {
    if ops == [] {
      now := before;
    } else {
      StepKeeps(m, ops[0].0, before, ops[0].1);
      StepRises(m, ops[0].0, before, ops[0].1);
      now := RunGood(Next(m, ops[0].0, ops[0].1), ops[1..], ops[0].1, n);
    }
  }

  /** Every program that can be created starts a good run. */
  lemma CreateGood(lpToken: Address, rewardToken: Address, totalRewards: int, rateBps: nat, cliff: nat,
                   duration: nat, end: nat, held: map<Address, int>, tokenOk: bool, now: nat)
    requires 0 <= Get(held, lpToken, 0) && 0 <= Get(held, rewardToken, 0)
    ensures var r := CreateProgram(lpToken, rewardToken, totalRewards, rateBps, cliff, duration, end, held,
                                   tokenOk, now);
            r.Ok? ==> Good(r.value, now)
  {
    assert Staked(map[]) == map[] && Claimed(map[]) == map[];
  }

  // ------------------------------------------------------------- the program object

  /** The entrypoints in their own form: a position is loaded, brought up to date, changed and stored. */
  class MiningProgram {
    var program: Program
    var positions: map<Address, Position>
    var held: map<Address, int>

    constructor (m: Mining)
      ensures State() == m
    {
      program, positions, held := m.program, m.positions, m.held;
    }

    function State(): Mining
      reads this
    {
      Mining(program, positions, held)
    }

    /** `accrue`, on a position the caller holds. */
    method AccruePosition(p: Position, now: nat) returns (q: Position)
      ensures q == Accrue(program, p, now)
    {
      q := p;
      if now <= p.lastUpdate {
        return;
      }
      var effective := if program.end > 0 && now > program.end then program.end else now;
      if effective <= p.lastUpdate {
        return;
      }
      var raw := ComputeRewards(p.staked, program.rateBps, effective - p.lastUpdate);
      var boosted := ApplyBoostFactor(raw, p.boost);
      q := q.(pending := q.pending + boosted);
      q := q.(earned := q.earned + boosted);
      q := q.(lastUpdate := effective);
    }

    method StakeTokens(provider: Address, amount: int, tokenOk: bool, now: nat) returns (error: Option<Error>)
      modifies this
      ensures match Stake(old(State()), provider, amount, tokenOk, now)
              case Ok(m) => error.None? && State() == m
              case Err(e) => error == Some(e) && State() == old(State())
    {
      if amount <= 0 {
        return Some(InvalidAmount);
      }
      if !program.active {
        return Some(ProgramInactive);
      }
      if program.end > 0 && now >= program.end {
        return Some(ProgramEnded);
      }
      var position := Get(positions, provider, NewPosition(now));
      position := AccruePosition(position, now);
      if !tokenOk {
        return Some(TransferFailed);
      }
      held := TransferIn(held, program.lpToken, amount);
      position := position.(staked := position.staked + amount);
      program := program.(totalStaked := program.totalStaked + amount);
      positions := positions[provider := position];
      return None;
    }

    method UnstakeTokens(provider: Address, amount: int, now: nat) returns (error: Option<Error>)
      modifies this
      ensures match Unstake(old(State()), provider, amount, now)
              case Ok(m) => error.None? && State() == m
              case Err(e) => error == Some(e) && State() == old(State())
    {
      if amount <= 0 {
        return Some(InvalidAmount);
      }
      if provider !in positions {
        return Some(PositionNotFound);
      }
      var position := positions[provider];
      if amount > position.staked {
        return Some(InsufficientBalance);
      }
      position := AccruePosition(position, now);
      position := position.(staked := position.staked - amount);
      var paidOut := TransferOut(held, program.lpToken, amount, TransferFailed);
      if paidOut.Err? {
        return Some(TransferFailed);
      }
      program := program.(totalStaked := program.totalStaked - amount);
      held := paidOut.value;
      positions := positions[provider := position];
      return None;
    }

    method ClaimRewards(provider: Address, now: nat) returns (r: Result<int>)
      requires program.cliff <= program.duration
      modifies this
      ensures match Claim(old(State()), provider, now)
              case Ok(m) => r == Ok(m.program.distributed - old(program).distributed) && State() == m
              case Err(e) => r == Err(e) && State() == old(State())
    {
      if provider !in positions {
        return Err(PositionNotFound);
      }
      var position := AccruePosition(positions[provider], now);
      var claimable := ComputeVested(program, position, now);
      if claimable <= 0 {
        return Err(NothingToClaim);
      }
      var remaining := program.totalRewards - program.distributed;
      var actual := if claimable < remaining then claimable else remaining;
      if actual <= 0 {
        return Err(RewardsExhausted);
      }
      position := position.(claimed := position.claimed + actual);
      held :- TransferOut(held, program.rewardToken, actual, TransferFailed);
      program := program.(distributed := program.distributed + actual);
      positions := positions[provider := position];
      return Ok(actual);
    }

    method Boost(provider: Address, lock: nat, now: nat) returns (error: Option<Error>)
      modifies this
      ensures match ApplyBoost(old(State()), provider, lock, now)
              case Ok(m) => error.None? && State() == m
              case Err(e) => error == Some(e) && State() == old(State())
    {
      if lock == 0 {
        return Some(InvalidDuration);
      }
      if provider !in positions {
        return Some(PositionNotFound);
      }
      var position := AccruePosition(positions[provider], now);
      if BoostFor(lock) <= position.boost {
        return Some(BoostTooLow);
      }
      position := position.(boost := BoostFor(lock));
      position := position.(lockUntil := now + lock);
      positions := positions[provider := position];
      return None;
    }
  }
}
