/**
 What liquidity mining pays: rewards, boosts and vesting as shares cut to integers,
 and the answers of the entrypoints in terms of them.
 */
module MiningLaw {
  import opened Host
  import opened Arithmetic
  import opened LiquidityMining
  import opened MiningLedger

  /** `q` is the quotient of `a` by a positive `d`, cut to an integer. */
  predicate IsPart(q: int, a: int, d: int) {
    q * d <= a < (q + 1) * d
  }

  /** A year of seconds times 10,000 basis points. */
  const YEAR: int := 315_360_000_000

  /** `raw` is the yearly rate's part of a stake for the time, and `boosted` that times the boost. */
  predicate IsReward(boosted: int, raw: int, staked: int, rateBps: nat, boost: int, elapsed: nat) {
    IsPart(raw, staked * rateBps * elapsed, YEAR) && IsPart(boosted, raw * boost, 10_000_000)
  }

  lemma RewardLaw(boosted: int, raw: int, staked: int, rateBps: nat, boost: int, elapsed: nat)
    requires 0 <= staked && 0 <= boost && IsReward(boosted, raw, staked, rateBps, boost, elapsed)
    ensures ComputeRewards(staked, rateBps, elapsed) == raw && Reward(staked, rateBps, boost, elapsed) == boosted
  {
    MulNonNegative(staked, rateBps);
    MulNonNegative(staked * rateBps, elapsed);
    assert staked == 0 || rateBps == 0 || elapsed == 0 ==> staked * rateBps * elapsed == 0;
    QuotientIs(staked * rateBps * elapsed, YEAR_BPS, raw);
    DivNonNegative(staked * rateBps * elapsed, YEAR_BPS);
    MulNonNegative(raw, boost);
    QuotientIs(raw * boost, PRECISION, boosted);
  }

  /** What accrual adds: the reward for the time since the last update, up to the end of the program. */
  lemma AccrueLaw(g: Program, p: Position, now: nat, upto: nat, boosted: int, raw: int)
    requires 0 <= p.staked && 0 <= p.boost && upto == (if g.end > 0 && now > g.end then g.end else now)
    requires upto > p.lastUpdate ==> IsReward(boosted, raw, p.staked, g.rateBps, p.boost, upto - p.lastUpdate)
    ensures var q := Accrue(g, p, now);
            if upto <= p.lastUpdate then q == p
            else q == p.(earned := p.earned + boosted, pending := p.pending + boosted, lastUpdate := upto)
  {
    if upto > p.lastUpdate {
      RewardLaw(boosted, raw, p.staked, g.rateBps, p.boost, upto - p.lastUpdate);
    }
  }

  /** The boost is 1x plus 2x for each year locked, in proportion, up to one year. */
  lemma BoostLaw(lock: nat, extra: int)
    requires IsPart(extra, 20_000_000 * (if lock < 31_536_000 then lock else 31_536_000), 31_536_000)
    ensures BoostFor(lock) == 10_000_000 + extra
  {
    var clamped := if lock < 31_536_000 then lock else 31_536_000;
    QuotientIs(20_000_000 * clamped, 31_536_000, extra);
    ShareAtMost(20_000_000, clamped, 31_536_000);
  }

  /**
   `vested` is what has vested of the earnings: nothing before the cliff, all of them
   once the duration is over, and in between the part of the time since the cliff,
   in units of 10^-7.
   */
  predicate HasVested(g: Program, p: Position, now: nat, fraction: int, vested: int) {
    var elapsed := if now >= p.entry then now - p.entry else 0;
    if elapsed < g.cliff then vested == 0
    else if elapsed >= g.duration then vested == p.earned
    else
      && IsPart(fraction, (elapsed - g.cliff) * 10_000_000, g.duration - g.cliff)
      && IsPart(vested, p.earned * fraction, 10_000_000)
  }

  lemma VestedLaw(g: Program, p: Position, now: nat, fraction: int, vested: int)
    requires g.cliff <= g.duration && 0 <= p.earned && HasVested(g, p, now, fraction, vested)
    ensures TotalVested(g, p, now) == vested
  {
    var elapsed := if now >= p.entry then now - p.entry else 0;
    if elapsed >= g.duration {
      DivAddMultiple(0, p.earned, PRECISION);
      assert p.earned * PRECISION / PRECISION == p.earned;
    } else if elapsed >= g.cliff {
      QuotientIs((elapsed - g.cliff) * 10_000_000, g.duration - g.cliff, fraction);
      FractionBounds(elapsed - g.cliff, elapsed - g.cliff, g.duration - g.cliff);
      MulNonNegative(p.earned, fraction);
      QuotientIs(p.earned * fraction, PRECISION, vested);
    }
  }

  // -------------------------------------------------------------------------- answers

  lemma ClaimAnswers(m: Mining, provider: Address, now: nat, q: Position, vested: int)
    requires m.program.cliff <= m.program.duration && provider in m.positions && q == Accrued(m, provider, now)
    requires ComputeVested(m.program, q, now) == vested - q.claimed
    requires m.program.totalRewards - m.program.distributed <= Get(m.held, m.program.rewardToken, 0)
    ensures var r, left := Claim(m, provider, now), m.program.totalRewards - m.program.distributed;
            if vested <= q.claimed then r == Err(NothingToClaim)
            else if left <= 0 then r == Err(RewardsExhausted)
            else
              var amount := if vested - q.claimed < left then vested - q.claimed else left;
              && r.Ok? && r.value.program == m.program.(distributed := m.program.distributed + amount)
              && r.value.positions == m.positions[provider := q.(claimed := q.claimed + amount)]
              && Get(r.value.held, m.program.rewardToken, 0) == Get(m.held, m.program.rewardToken, 0) - amount
  {
  }

  /** The answer of a claim: what has vested and was not claimed, cut to what is left of the allocation. */
  lemma ClaimDecides(m: Mining, provider: Address, now: nat, before: nat, q: Position, fraction: int, vested: int)
    requires Good(m, before) && before <= now
    requires q == Accrued(m, provider, now) && HasVested(m.program, q, now, fraction, vested)
    ensures var r, left := Claim(m, provider, now), m.program.totalRewards - m.program.distributed;
            if provider !in m.positions then r == Err(PositionNotFound)
            else if vested <= q.claimed then r == Err(NothingToClaim)
            else if left <= 0 then r == Err(RewardsExhausted)
            else
              var amount := if vested - q.claimed < left then vested - q.claimed else left;
              && r.Ok? && r.value.program == m.program.(distributed := m.program.distributed + amount)
              && r.value.positions == m.positions[provider := q.(claimed := q.claimed + amount)]
              && Get(r.value.held, m.program.rewardToken, 0) == Get(m.held, m.program.rewardToken, 0) - amount
  {
    StartKeeps(m, provider, before, now);
    VestedLaw(m.program, q, now, fraction, vested);
    VestedIsUnclaimed(m.program, q, now);
    if provider in m.positions {
      StakeCovered(m, provider, before);
      ClaimAnswers(m, provider, now, q, vested);
    }
  }

  /** The answer of a boost: it must be longer than nothing and raise the boost. */
  lemma BoostDecides(m: Mining, provider: Address, lock: nat, now: nat, extra: int)
    requires IsPart(extra, 20_000_000 * (if lock < 31_536_000 then lock else 31_536_000), 31_536_000)
    ensures var r := ApplyBoost(m, provider, lock, now);
            if lock == 0 then r == Err(InvalidDuration)
            else if provider !in m.positions then r == Err(PositionNotFound)
            else if 10_000_000 + extra <= m.positions[provider].boost then r == Err(BoostTooLow)
            else
              && r.Ok? && r.value.program == m.program && r.value.held == m.held && provider in r.value.positions
              && r.value.positions[provider] ==
                 Accrued(m, provider, now).(boost := 10_000_000 + extra, lockUntil := now + lock)
  {
    BoostLaw(lock, extra);
    if provider in m.positions {
      AccrueEarns(m.program, m.positions[provider], now);
    }
  }

  /** The answer of a stake: positive, in an active program before its end, if the token moves it. */
  lemma StakeDecides(m: Mining, provider: Address, amount: int, tokenOk: bool, now: nat)
    ensures var r := Stake(m, provider, amount, tokenOk, now);
            if amount <= 0 then r == Err(InvalidAmount)
            else if !m.program.active then r == Err(ProgramInactive)
            else if m.program.end > 0 && now >= m.program.end then r == Err(ProgramEnded)
            else if !tokenOk then r == Err(TransferFailed)
            else
              && r.Ok? && provider in r.value.positions
              && r.value.positions[provider].staked == amount + Accrued(m, provider, now).staked
              && r.value.program == m.program.(totalStaked := m.program.totalStaked + amount)
              && Get(r.value.held, m.program.lpToken, 0) == Get(m.held, m.program.lpToken, 0) + amount
  {
  }

  /** A new program: its parameters must be consistent, and its rewards are paid in at once. */
  lemma CreateDecides(lpToken: Address, rewardToken: Address, totalRewards: int, rateBps: nat, cliff: nat,
                      duration: nat, end: nat, held: map<Address, int>, tokenOk: bool, now: nat)
    ensures var r := CreateProgram(lpToken, rewardToken, totalRewards, rateBps, cliff, duration, end, held,
                                   tokenOk, now);
            && (r.Ok? <==>
                  && totalRewards > 0 && rateBps > 0 && cliff <= duration <= 126_144_000
                  && (end == 0 || end > now) && tokenOk)
            && (r.Ok? ==>
                  && r.value.program ==
                     Program(lpToken, rewardToken, totalRewards, 0, rateBps, cliff, duration, end, 0, true)
                  && r.value.positions == map[]
                  && Get(r.value.held, rewardToken, 0) == Get(held, rewardToken, 0) + totalRewards)
  {
  }

  /** A position starts with nothing staked, earned or claimed, unboosted, at the time of the first stake. */
  lemma FirstPosition(m: Mining, provider: Address, now: nat)
    requires provider !in m.positions
    ensures Accrued(m, provider, now) == Position(0, now, now, 0, 0, 0, 10_000_000, 0)
  {
  }

  /** The answer of an unstake: any part of the stake, at any time, and the stake falls by it. */
  lemma UnstakeDecides(m: Mining, provider: Address, amount: int, before: nat, now: nat)
    requires Good(m, before) && before <= now
    ensures var r := Unstake(m, provider, amount, now);
            if amount <= 0 then r == Err(InvalidAmount)
            else if provider !in m.positions then r == Err(PositionNotFound)
            else if amount > m.positions[provider].staked then r == Err(InsufficientBalance)
            else
              && r.Ok? && provider in r.value.positions
              && r.value.positions[provider] ==
                 Accrued(m, provider, now).(staked := m.positions[provider].staked - amount)
              && r.value.program == m.program.(totalStaked := m.program.totalStaked - amount)
              && Get(r.value.held, m.program.lpToken, 0) == Get(m.held, m.program.lpToken, 0) - amount
  {
    if provider in m.positions && 0 < amount <= m.positions[provider].staked {
      StakeCovered(m, provider, before);
      UnstakePays(m, provider, amount, now);
      AccrueEarns(m.program, m.positions[provider], now);
    }
  }

  /** An active program is deactivated once, and takes no stakes after that. */
  lemma DeactivateDecides(m: Mining, provider: Address, amount: int, tokenOk: bool, now: nat)
    requires amount > 0
    ensures var r := Deactivate(m);
            && (r.Ok? <==> m.program.active)
            && (r.Ok? ==>
                  && r.value == m.(program := r.value.program)
                  && r.value.program.(active := true) == m.program
                  && Stake(r.value, provider, amount, tokenOk, now) == Err(ProgramInactive))
  {
  }
}
