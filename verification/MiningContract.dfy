/**
 All mining programs of one contract, which holds the tokens of every program
 together: paying one program's stakes and rewards never draws on another's.
 */
module MiningContract {
  import opened Host
  import opened LiquidityMining
  import opened MiningLedger

  datatype Account = Account(program: Program, positions: map<Address, Position>)

  /** Programs by id, and what the contract holds per token. */
  datatype Contract = Contract(programs: map<nat, Account>, held: map<Address, int>)

  datatype Call =
    | Opening(id: nat, lpToken: Address, rewardToken: Address, totalRewards: int, rateBps: nat, cliff: nat,
              duration: nat, end: nat, tokenOk: bool)
    | On(id: nat, op: Op)

  /** One program with everything that the contract holds. */
  function View(c: Contract, id: nat): Mining
    requires id in c.programs
  {
    Mining(c.programs[id].program, c.programs[id].positions, c.held)
  }

  function Stored(c: Contract, id: nat, m: Mining): Contract {
    Contract(c.programs[id := Account(m.program, m.positions)], m.held)
  }

  function Open(c: Contract, call: Call, now: nat): Result<Mining>
    requires call.Opening?
  {
    CreateProgram(call.lpToken, call.rewardToken, call.totalRewards, call.rateBps, call.cliff, call.duration,
                  call.end, c.held, call.tokenOk, now)
  }

  /** A program that can be operated on. */
  predicate WellFormed(c: Contract, id: nat) {
    id in c.programs && c.programs[id].program.cliff <= c.programs[id].program.duration
  }

  function After(c: Contract, call: Call, now: nat): Contract {
    match call
    case Opening(id, _, _, _, _, _, _, _, _) =>
      (match Open(c, call, now) case Ok(m) => Stored(c, id, m) case Err(_) => c)
    case On(id, op) =>
      if !WellFormed(c, id) then c else
        (match Perform(View(c, id), op, now) case Ok(m) => Stored(c, id, m) case Err(_) => c)
  }

  // ---------------------------------------------------------------------- invariant

  ghost function OwedMap(programs: map<nat, Account>, token: Address): map<nat, int> {
    map id | id in programs :: Owed(programs[id].program, token)
  }

  /** What all programs together owe in a token. */
  ghost function TotalOwed(programs: map<nat, Account>, token: Address): int {
    Sum(OwedMap(programs, token))
  }

  ghost predicate AllSound(c: Contract, now: nat) {
    forall id :: id in c.programs ==> Sound(c.programs[id].program, c.programs[id].positions, now)
  }

  ghost predicate Backed(c: Contract) {
    forall t :: TotalOwed(c.programs, t) <= Get(c.held, t, 0)
  }

  ghost predicate GoodContract(c: Contract, now: nat) {
    AllSound(c, now) && Backed(c)
  }

  lemma OwedNonNegative(g: Program, positions: map<Address, Position>, now: nat, token: Address)
    requires Sound(g, positions, now)
    ensures 0 <= Owed(g, token)
  {
    SumNonNegative(Staked(positions));
  }

  /** In a good contract every program is covered by what is held, whatever the others are owed. */
  lemma ViewGood(c: Contract, id: nat, now: nat)
    requires GoodContract(c, now) && id in c.programs
    ensures MiningLedger.Good(View(c, id), now)
  {
    var g := c.programs[id].program;
    forall t ensures Owed(g, t) <= Get(c.held, t, 0) {
      var owed := OwedMap(c.programs, t);
      forall j | j in owed ensures owed[j] >= 0 {
        OwedNonNegative(c.programs[j].program, c.programs[j].positions, now, t);
      }
      SumAtLeast(owed, id);
      assert TotalOwed(c.programs, t) <= Get(c.held, t, 0);
    }
  }

  lemma OwedUpdate(programs: map<nat, Account>, id: nat, a: Account, token: Address)
    ensures TotalOwed(programs[id := a], token) ==
            TotalOwed(programs, token) + Owed(a.program, token)
            - if id in programs then Owed(programs[id].program, token) else 0
  {
    var before, after := OwedMap(programs, token), OwedMap(programs[id := a], token);
    SumUpdate(before, id, Owed(a.program, token));
    assert after == before[id := Owed(a.program, token)];
  }

  /** From `m` to `n`, holdings in `token` move exactly with what the program owes in it. */
  predicate Follows(m: Mining, n: Mining, token: Address) {
    Get(n.held, token, 0) - Get(m.held, token, 0) == Owed(n.program, token) - Owed(m.program, token)
  }

  lemma StakeFollows(m: Mining, provider: Address, amount: int, tokenOk: bool, now: nat, token: Address)
    ensures var r := Stake(m, provider, amount, tokenOk, now); r.Ok? ==> Follows(m, r.value, token)
  {
  }

  lemma UnstakeFollows(m: Mining, provider: Address, amount: int, now: nat, token: Address)
    ensures var r := Unstake(m, provider, amount, now); r.Ok? ==> Follows(m, r.value, token)
  {
  }

  lemma ClaimFollows(m: Mining, provider: Address, now: nat, token: Address)
    requires m.program.cliff <= m.program.duration
    ensures var r := Claim(m, provider, now); r.Ok? ==> Follows(m, r.value, token)
  {
  }

  lemma PerformFollows(m: Mining, op: Op, now: nat, token: Address)
    requires m.program.cliff <= m.program.duration
    ensures var r := Perform(m, op, now); r.Ok? ==> Follows(m, r.value, token)
  {
    match op
    case Staking(a, amount, tokenOk) => StakeFollows(m, a, amount, tokenOk, now, token);
    case Unstaking(a, amount) => UnstakeFollows(m, a, amount, now, token);
    case Claiming(a) => ClaimFollows(m, a, now, token);
    case Boosting(_, _) =>
    case Deactivating =>
  }

  lemma SoundLater(c: Contract, before: nat, now: nat)
    requires AllSound(c, before) && before <= now
    ensures AllSound(c, now)
  {
    forall id | id in c.programs ensures Sound(c.programs[id].program, c.programs[id].positions, now) {
      var g, ps := c.programs[id].program, c.programs[id].positions;
      forall a | a in ps ensures PositionGood(g, ps[a], now) {
        PositionLater(g, ps[a], before, now);
      }
    }
  }

  /** Storing a sound program whose debts moved with the holdings. */
  lemma StoredGood(c: Contract, id: nat, m: Mining, now: nat)
    requires GoodContract(c, now) && Sound(m.program, m.positions, now)
    requires forall t :: Get(m.held, t, 0) - Get(c.held, t, 0) ==
                         Owed(m.program, t) - if id in c.programs then Owed(c.programs[id].program, t) else 0
    ensures GoodContract(Stored(c, id, m), now)
  {
    var n := Stored(c, id, m);
    forall t ensures TotalOwed(n.programs, t) <= Get(n.held, t, 0) {
      OwedUpdate(c.programs, id, Account(m.program, m.positions), t);
      assert TotalOwed(c.programs, t) <= Get(c.held, t, 0);
    }
  }

  lemma StoredFrom(c: Contract, id: nat, m: Mining, n: Mining, now: nat)
    requires GoodContract(c, now) && id in c.programs && m == View(c, id) && MiningLedger.Good(n, now)
    requires forall t :: Follows(m, n, t)
    ensures GoodContract(Stored(c, id, n), now)
  {
    forall t ensures Get(n.held, t, 0) - Get(c.held, t, 0) ==
                     Owed(n.program, t) - Owed(c.programs[id].program, t) {
      assert Follows(m, n, t);
    }
    StoredGood(c, id, n, now);
  }

  /** Only a stake can fail in a token transfer, and only because the token refuses it. */
  lemma PayableAlways(m: Mining, op: Op, before: nat, now: nat)
    requires MiningLedger.Good(m, before) && before <= now
    ensures Perform(m, op, now) == Err(TransferFailed) ==> op.Staking? && !op.tokenOk
  {
    match op
    case Staking(_, _, _) =>
    case Unstaking(a, amount) => UnstakeKeeps(m, a, amount, before, now);
    case Claiming(a) => ClaimKeeps(m, a, before, now);
    case Boosting(_, _) =>
    case Deactivating =>
  }

  lemma OnKeeps(c: Contract, id: nat, op: Op, before: nat, now: nat)
    requires GoodContract(c, before) && before <= now && id in c.programs
    ensures var r := Perform(View(c, id), op, now);
            && (r == Err(TransferFailed) ==> op.Staking? && !op.tokenOk)
            && (r.Ok? ==> GoodContract(Stored(c, id, r.value), now))
  {
    var m := View(c, id);
    ViewGood(c, id, before);
    PayableAlways(m, op, before, now);
    SoundLater(c, before, now);
    var r := Perform(m, op, now);
    if r.Ok? {
      StepKeeps(m, op, before, now);
      forall t ensures Follows(m, r.value, t) {
        PerformFollows(m, op, now, t);
      }
      StoredFrom(c, id, m, r.value, now);
    }
  }

  lemma OpenKeeps(c: Contract, call: Call, now: nat)
    requires GoodContract(c, now) && call.Opening? && call.id !in c.programs && Open(c, call, now).Ok?
    ensures GoodContract(Stored(c, call.id, Open(c, call, now).value), now)
  {
    var m := Open(c, call, now).value;
    assert Staked(map[]) == map[] && Claimed(map[]) == map[];
    StoredGood(c, call.id, m, now);
  }

  // --------------------------------------------------------------------------- runs

  /** New ids are unused, and the arithmetic of an operation stays in range. */
  ghost predicate Admissible(c: Contract, call: Call, now: nat) {
    match call
    case Opening(id, _, _, _, _, _, _, _, _) => id !in c.programs
    case On(id, op) => id in c.programs ==> InRange(View(c, id), op, now)
  }

  lemma CallKeeps(c: Contract, call: Call, before: nat, now: nat)
    requires GoodContract(c, before) && before <= now && Admissible(c, call, now)
    ensures GoodContract(After(c, call, now), now)
  {
    SoundLater(c, before, now);
    if call.On? && call.id in c.programs {
      OnKeeps(c, call.id, call.op, before, now);
    } else if call.Opening? && Open(c, call, now).Ok? {
      OpenKeeps(c, call, now);
    }
  }

  /** In no program does any position's earnings, claims or boost fall. */
  ghost predicate NothingFalls(c: Contract, d: Contract) {
    forall id :: id in c.programs ==> id in d.programs && NoneFall(View(c, id), View(d, id))
  }

  lemma CallRises(c: Contract, call: Call, before: nat, now: nat)
    requires GoodContract(c, before) && before <= now && Admissible(c, call, now)
    ensures NothingFalls(c, After(c, call, now))
  {
    if call.On? && call.id in c.programs {
      ViewGood(c, call.id, before);
      StepRises(View(c, call.id), call.op, before, now);
    }
  }

  ghost predicate ReachesContract(c: Contract, calls: seq<(Call, nat)>, before: nat, d: Contract)
    decreases |calls|
  {
    if calls == [] then d == c else
      && before <= calls[0].1 && Admissible(c, calls[0].0, calls[0].1)
      && ReachesContract(After(c, calls[0].0, calls[0].1), calls[1..], calls[0].1, d)
  }

  /**
   Over every run of a contract with any number of programs: in every token, what
   is held covers the stakes and undistributed rewards of all programs together;
   each program's books agree; and no position's earnings, claims or boost fall.
   */
  lemma {:induction false} ContractRunGood(c: Contract, calls: seq<(Call, nat)>, before: nat, d: Contract)
    returns (now: nat)
    requires GoodContract(c, before) && ReachesContract(c, calls, before, d)
    ensures before <= now && GoodContract(d, now) && NothingFalls(c, d)
    decreases |calls|
  {
    if calls == [] {
      now := before;
    } else {
      CallKeeps(c, calls[0].0, before, calls[0].1);
      CallRises(c, calls[0].0, before, calls[0].1);
      now := ContractRunGood(After(c, calls[0].0, calls[0].1), calls[1..], calls[0].1, d);
    }
  }

  /** A contract without programs starts a good run. */
  lemma NoProgramsGood(held: map<Address, int>, now: nat)
    requires forall t :: 0 <= Get(held, t, 0)
    ensures GoodContract(Contract(map[], held), now)
  {
    forall t ensures TotalOwed(map[], t) == 0 {
      assert OwedMap(map[], t) == map[];
    }
  }
}
