/**
 The TipJar escrow contract as a transition function on its storage.

 A call either succeeds with a new world or panics; the host discards every
 write of a panicking call, so `Next` leaves the world as it was. The ledger
 sequence, the addresses whose authorisation the host has checked and the fate
 of the token contract's own checks arrive in `Env`.
 */
module TipJar {
  import opened Host

  // ---------------------------------------------------------------- constants

  const PAYOUT_DELAY_LEDGERS: nat := 17280
  const ADMIN_TRANSFER_EXPIRY_LEDGERS: nat := 34560
  const BPS_DENOMINATOR: int := 10000
  const MAX_FEE_BPS: nat := 1000
  const DATA_VERSION: nat := 2
  const MAX_ALLOWED_TOKENS: nat := 50
  const DEFAULT_GUARDIAN_PAUSE_DURATION_LEDGERS: nat := 17280

  /** The pausable features, one per bit of a pause mask. */
  datatype Feature = Tips | Withdrawals

  /** A pause mask is the set of its bits: `|` is union, `& !flag` is difference, 0 is empty. */
  type Flags = set<Feature>

  const PAUSE_FLAG_TIPS: Flags := {Tips}
  const PAUSE_FLAG_WITHDRAWALS: Flags := {Withdrawals}

  // ------------------------------------------------------------------ results

  datatype Error =
    | AlreadyInitialized | NotInitialized | InvalidAmount | NothingToWithdraw
    | InvalidOperator | OperatorExpired | InsufficientAllowance
    | NoPendingPayoutChange | InvalidTarget | Unauthorized | NoPendingAdmin
    | InvalidTimelock | UpgradeAlreadyPending | NoPendingUpgrade | TimelockNotElapsed
    | TipsPaused | WithdrawalsPaused | InvalidDuration | InvalidFee | FeeOverflow
    | NotFeeCollector | TokenNotAllowed | TokenAlreadyExists | MaxTokensReached
    | NoPendingFeeCollector | AdminTransferExpired | FeeCollectorTransferExpired
    | AdminTransferAlreadyPending | FeeCollectorTransferAlreadyPending
    // raised by the host rather than by the contract
    | AuthMissing | TransferFailed | CodeReplaced

  type Result<T> = Outcome<T, Error>

  // ------------------------------------------------------------------ storage

  /** Amounts by (creator, token). */
  type Book = map<(Address, Address), int>

  /** One kind of amount in both storage formats: by creator (v1), and by creator and token. */
  datatype Store = Store(v1: map<Address, int>, v2: Book)

  /** Protocol fees: the v1 counter, which belongs to the v1 token, and the per-token counters. */
  datatype FeeStore = FeeStore(v1: Option<int>, v2: map<Address, int>)

  /** Escrow bookkeeping. */
  datatype Accounts = Accounts(balance: Store, total: Store, fees: FeeStore)

  datatype PendingPayout = PendingPayout(payout: Address, effective: nat)
  datatype Allowance = Allowance(amount: int, expiry: nat)

  datatype Payouts = Payouts(
    payout: map<Address, Address>,
    pending: map<Address, PendingPayout>,
    operator: map<(Address, Address), Allowance>)

  datatype Proposal = Proposal(who: Address, expiry: nat)
  datatype Upgrade = Upgrade(hash: nat, unlock: nat)

  datatype Roles = Roles(
    admin: Option<Address>,
    pendingAdmin: Option<Proposal>,
    collector: Option<Address>,
    pendingCollector: Option<Proposal>,
    timelock: Option<nat>,
    pendingUpgrade: Option<Upgrade>,
    replacedBy: Option<nat>)

  datatype PauseState = PauseState(adminFlags: Flags, guardianFlags: Flags, guardianExpiry: nat)

  datatype Breaker = Breaker(
    guardian: Option<Address>,
    pause: Option<PauseState>,
    duration: Option<nat>)

  datatype Config = Config(
    token: Option<Address>,
    allowed: Option<seq<Address>>,
    feeBps: Option<nat>,
    dataVersion: Option<nat>)

  /** SEP-41 balances, by (token, holder). */
  type TokenLedger = map<(Address, Address), nat>

  datatype World = World(
    acct: Accounts,
    payouts: Payouts,
    roles: Roles,
    breaker: Breaker,
    cfg: Config,
    tokens: TokenLedger)

  /** `tokenOk` is false when the token contract refuses a transfer for a reason of its own. */
  datatype Env = Env(ledger: nat, auth: set<Address>, tokenOk: bool)

  // -------------------------------------------------------------------- calls

  datatype RoleCall =
    | ProposeAdmin(admin: Address, who: Address)
    | AcceptAdmin(who: Address)
    | CancelAdminTransfer(admin: Address)
    | ProposeFeeCollector(admin: Address, who: Address)
    | AcceptFeeCollector(who: Address)
    | CancelFeeCollectorTransfer(admin: Address)
    | ProposeUpgrade(admin: Address, hash: nat)
    | CancelUpgrade(admin: Address)
    | ExecuteUpgrade

  datatype BreakerCall =
    | SetGuardian(admin: Address, guardian: Address)
    | SetGuardianPauseDuration(admin: Address, ledgers: nat)
    | Pause(caller: Address, flag: Flags)
    | Unpause(caller: Address, flag: Flags)

  datatype PayoutCall =
    | SetPayoutAddress(creator: Address, payout: Address)
    | CancelPayoutAddress(creator: Address)
    | AuthorizeOperator(creator: Address, operator: Address, allowance: int, expiry: nat)
    | RevokeOperator(creator: Address, operator: Address)

  datatype ConfigCall =
    | AddToken(admin: Address, token: Address)
    | RemoveToken(admin: Address, token: Address)
    | SetFee(admin: Address, bps: nat)
    | Migrate(admin: Address)

  datatype Call =
    | Init(token: Address, admin: Address, timelock: nat)
    | DoTip(sender: Address, creator: Address, token: Address, amount: int)
    | TipLegacy(sender: Address, creator: Address, amount: int)
    | DoWithdraw(caller: Address, creator: Address, token: Address, to: Address, request: Option<int>)
    | WithdrawLegacy(caller: Address, creator: Address, to: Address, request: Option<int>)
    | DoWithdrawFees(caller: Address, token: Address, request: Option<int>)
    | GetTotalTips(creator: Address, token: Address)
    | GetTotalTipsLegacy(creator: Address)
    | GetBalance(creator: Address, token: Address)
    | GetFeeBalance(token: Address)
    | OnRoles(role: RoleCall)
    | OnBreaker(breaker: BreakerCall)
    | OnPayouts(payout: PayoutCall)
    | OnConfig(config: ConfigCall)
      // not a call: somebody else changes a token balance
    | Outside(token: Address, holder: Address, newBalance: nat)

  // ------------------------------------------------------------------- tokens

  function Held(tokens: TokenLedger, token: Address, holder: Address): nat {
    Get(tokens, (token, holder), 0)
  }

  /** SEP-41 `transfer`: moves exactly `amount`, or fails. */
  function Transfer(tokens: TokenLedger, env: Env, token: Address, src: Address, dst: Address, amount: int)
    : (r: Result<TokenLedger>)
    ensures r.Ok? <==> env.tokenOk && 0 <= amount <= Held(tokens, token, src)
    ensures r.Ok? && src != dst ==>
              && Held(r.value, token, src) == Held(tokens, token, src) - amount
              && Held(r.value, token, dst) == Held(tokens, token, dst) + amount
    ensures r.Ok? && src == dst ==> Held(r.value, token, src) == Held(tokens, token, src)
    ensures r.Ok? ==> forall t, h :: (t, h) != (token, src) && (t, h) != (token, dst) ==>
              Held(r.value, t, h) == Held(tokens, t, h)
  {
    if !env.tokenOk || amount < 0 || Held(tokens, token, src) < amount then Err(TransferFailed) else
      var debited := tokens[(token, src) := Held(tokens, token, src) - amount];
      Ok(debited[(token, dst) := Held(debited, token, dst) + amount])
  }

  // ------------------------------------------------------------------ helpers

  function PauseOf(b: Breaker): PauseState {
    b.pause.UnwrapOr(PauseState({}, {}, 0))
  }

  function EffectivePauseFlags(p: PauseState, ledger: nat): Flags {
    if p.guardianFlags != {} && ledger < p.guardianExpiry then p.adminFlags + p.guardianFlags else p.adminFlags
  }

  function CheckNotPaused(b: Breaker, env: Env, flag: Flags): Requirement<Error> {
    if EffectivePauseFlags(PauseOf(b), env.ledger) * flag != {} then
      Fail(if flag == PAUSE_FLAG_TIPS then TipsPaused else WithdrawalsPaused)
    else Pass
  }

  function RequireAuth(env: Env, who: Address): Requirement<Error> {
    Need(who in env.auth, AuthMissing)
  }

  function RequireAdmin(roles: Roles, who: Address): Requirement<Error> {
    if roles.admin.None? then Fail(NotInitialized) else Need(roles.admin.value == who, Unauthorized)
  }

  /** Both checks that open every admin-only entrypoint. */
  function AdminCall(roles: Roles, env: Env, admin: Address): Requirement<Error> {
    if admin !in env.auth then Fail(AuthMissing) else RequireAdmin(roles, admin)
  }

  function Allowed(cfg: Config): seq<Address> {
    cfg.allowed.UnwrapOr([])
  }

  /** The protocol fee, rounded toward zero. */
  function FeeFor(amount: int, bps: nat): Result<int> {
    if bps == 0 then Ok(0) else
      :- Need(FitsI128(amount * bps), FeeOverflow);
      Ok(TruncDiv(amount * bps, BPS_DENOMINATOR))
  }

  function PreviewFee(amount: int, bps: nat): Result<(int, int)> {
    var fee :- FeeFor(amount, bps);
    Ok((fee, amount - fee))
  }

  // ---------------------------------------------------------------- migration

  /** Moves one creator's v1 entry under (creator, token) when `token` is the v1 token. */
  function Move(s: Store, primary: Option<Address>, creator: Address, token: Address): Store {
    if primary != Some(token) || creator !in s.v1 then s
    else Store(s.v1 - {creator}, s.v2[(creator, token) := s.v1[creator]])
  }

  function MigrateCreator(a: Accounts, primary: Option<Address>, creator: Address, token: Address): Accounts {
    a.(balance := Move(a.balance, primary, creator, token), total := Move(a.total, primary, creator, token))
  }

  /** Adds the v1 fee counter to the fee balance of the v1 token. */
  function MigrateFees(f: FeeStore, primary: Option<Address>, token: Address): Result<FeeStore> {
    if f.v1.None? || primary != Some(token) then Ok(f) else
      var combined := Get(f.v2, token, 0) + f.v1.value;
      :- Need(FitsI128(combined), FeeOverflow);
      Ok(FeeStore(None, f.v2[token := combined]))
  }

  // --------------------------------------------------------- escrow and payout

  function AddFee(f: FeeStore, primary: Option<Address>, token: Address, fee: int): Result<FeeStore> {
    var m :- MigrateFees(f, primary, token);
    var sum := Get(m.v2, token, 0) + fee;
    :- Need(FitsI128(sum), FeeOverflow);
    Ok(m.(v2 := m.v2[token := sum]))
  }

  /** Migrates one entry and adds to it. */
  function AddTo(s: Store, primary: Option<Address>, creator: Address, token: Address, amount: int): Result<Store> {
    var m := Move(s, primary, creator, token);
    var sum := Get(m.v2, (creator, token), 0) + amount;
    :- Need(FitsI128(sum), InvalidAmount);
    Ok(m.(v2 := m.v2[(creator, token) := sum]))
  }

  /** Books a tip of `amount`, of which `fee` goes to the protocol. */
  function Credit(a: Accounts, primary: Option<Address>, creator: Address, token: Address,
                  amount: int, fee: int, bps: nat): Result<Accounts>
  {
    var balance :- AddTo(a.balance, primary, creator, token, amount - fee);
    var total :- AddTo(a.total, primary, creator, token, amount);
    if bps == 0 then Ok(Accounts(balance, total, a.fees)) else
      var fees :- AddFee(a.fees, primary, token, fee);
      Ok(Accounts(balance, total, fees))
  }

  function Tip(jar: Address, w: World, env: Env, sender: Address, creator: Address, token: Address, amount: int)
    : Result<World>
  {
    if sender !in env.auth then Err(AuthMissing) else
    :- CheckNotPaused(w.breaker, env, PAUSE_FLAG_TIPS);
    :- Need(amount > 0, InvalidAmount);
    :- Need(w.roles.admin.Some?, NotInitialized);
    :- Need(token in Allowed(w.cfg), TokenNotAllowed);
    var bps := w.cfg.feeBps.UnwrapOr(0);
    var fee :- FeeFor(amount, bps);
    var tokens :- Transfer(w.tokens, env, token, sender, jar, amount);
    var acct :- Credit(w.acct, w.cfg.token, creator, token, amount, fee, bps);
    Ok(w.(acct := acct, tokens := tokens))
  }

  /** The amount a withdrawal of `request` takes out of `balance`. */
  function Requested(balance: int, request: Option<int>): Result<int> {
    if balance == 0 then Err(NothingToWithdraw) else
    var amount := request.UnwrapOr(balance);
    :- Need(0 < amount <= balance, InvalidAmount);
    Ok(amount)
  }

  /** Migrates one balance and takes the requested amount out of it. */
  function TakeFrom(s: Store, primary: Option<Address>, creator: Address, token: Address, request: Option<int>)
    : Result<(Store, int)>
  {
    var m := Move(s, primary, creator, token);
    var balance := Get(m.v2, (creator, token), 0);
    var amount :- Requested(balance, request);
    Ok((m.(v2 := m.v2[(creator, token) := balance - amount]), amount))
  }

  /** Takes a withdrawal out of the balance; the total only migrates. */
  function Debit(a: Accounts, primary: Option<Address>, creator: Address, token: Address, request: Option<int>)
    : Result<(Accounts, int)>
  {
    var (balance, amount) :- TakeFrom(a.balance, primary, creator, token, request);
    Ok((a.(balance := balance, total := Move(a.total, primary, creator, token)), amount))
  }

  function TakeFees(f: FeeStore, primary: Option<Address>, token: Address, request: Option<int>)
    : Result<(FeeStore, int)>
  {
    var m :- MigrateFees(f, primary, token);
    var balance := Get(m.v2, token, 0);
    var amount :- Requested(balance, request);
    Ok((m.(v2 := m.v2[token := balance - amount]), amount))
  }

  function SpendAllowance(p: Payouts, env: Env, creator: Address, caller: Address, amount: int): Result<Payouts> {
    if caller == creator then Ok(p) else
      var k := (creator, caller);
      :- Need(k in p.operator, InvalidOperator);
      var Allowance(allowance, expiry) := p.operator[k];
      :- Need(env.ledger <= expiry, OperatorExpired);
      :- Need(amount <= allowance, InsufficientAllowance);
      Ok(p.(operator := if allowance == amount then p.operator - {k}
                        else p.operator[k := Allowance(allowance - amount, expiry)]))
  }

  predicate Matured(p: Payouts, creator: Address, ledger: nat) {
    creator in p.pending && ledger >= p.pending[creator].effective
  }

  function ApplyPending(p: Payouts, creator: Address, ledger: nat): Payouts {
    if !Matured(p, creator, ledger) then p else
      p.(payout := p.payout[creator := p.pending[creator].payout], pending := p.pending - {creator})
  }

  /** The checks and the transfer of a withdrawal: allowance, payout address, payment. */
  function PayOut(jar: Address, p: Payouts, held: TokenLedger, env: Env, caller: Address, creator: Address,
                  token: Address, to: Address, amount: int): Result<(Payouts, TokenLedger)>
  {
    var spent :- SpendAllowance(p, env, creator, caller, amount);
    var payouts := ApplyPending(spent, creator, env.ledger);
    :- Need(to == Get(payouts.payout, creator, creator), InvalidTarget);
    var tokens :- Transfer(held, env, token, jar, to, amount);
    Ok((payouts, tokens))
  }

  function Withdraw(jar: Address, w: World, env: Env, caller: Address, creator: Address, token: Address,
                    to: Address, request: Option<int>): Result<World>
  {
    if caller !in env.auth then Err(AuthMissing) else
    :- CheckNotPaused(w.breaker, env, PAUSE_FLAG_WITHDRAWALS);
    :- Need(w.roles.admin.Some?, NotInitialized);
    var (acct, amount) :- Debit(w.acct, w.cfg.token, creator, token, request);
    var (payouts, tokens) :- PayOut(jar, w.payouts, w.tokens, env, caller, creator, token, to, amount);
    Ok(w.(acct := acct, payouts := payouts, tokens := tokens))
  }

  function WithdrawFees(jar: Address, w: World, env: Env, caller: Address, token: Address, request: Option<int>)
    : Result<World>
  {
    if caller !in env.auth then Err(AuthMissing) else
    :- Need(w.roles.collector.Some?, NothingToWithdraw);
    :- Need(caller == w.roles.collector.value, NotFeeCollector);
    var (fees, amount) :- TakeFees(w.acct.fees, w.cfg.token, token, request);
    var tokens :- Transfer(w.tokens, env, token, jar, caller, amount);
    Ok(w.(acct := w.acct.(fees := fees), tokens := tokens))
  }

  // --------------------------------------------------------------- allowlist

  /** `tokens` without any occurrence of `token`, in order. */
  function Without(tokens: seq<Address>, token: Address): seq<Address> {
    if tokens == [] then [] else
      (if tokens[0] == token then [] else [tokens[0]]) + Without(tokens[1..], token)
  }

  /** Removing a token leaves exactly the others, each as often as before. */
  lemma {:induction false} WithoutKeepsOthers(tokens: seq<Address>, token: Address)
    ensures token !in Without(tokens, token)
    ensures forall t :: t != token ==> multiset(Without(tokens, token))[t] == multiset(tokens)[t]
    ensures forall t :: t in Without(tokens, token) <==> t != token && t in tokens
  {
    if tokens != [] {
      WithoutKeepsOthers(tokens[1..], token);
      assert tokens == [tokens[0]] + tokens[1..];
    }
  }

  function InsertToken(cfg: Config, token: Address): Result<Config> {
    if |Allowed(cfg)| >= MAX_ALLOWED_TOKENS then Err(MaxTokensReached) else
    :- Need(token !in Allowed(cfg), TokenAlreadyExists);
    Ok(cfg.(allowed := Some(Allowed(cfg) + [token])))
  }

  function DeleteToken(cfg: Config, token: Address): Result<Config> {
    if token !in Allowed(cfg) then Err(TokenNotAllowed) else
    Ok(cfg.(allowed := Some(Without(Allowed(cfg), token))))
  }

  // ------------------------------------------------------------------ roles

  function Initialize(w: World, env: Env, token: Address, admin: Address, timelock: nat): Result<World> {
    if w.roles.admin.Some? then Err(AlreadyInitialized) else
    :- Need(timelock != 0, InvalidTimelock);
    :- RequireAuth(env, admin);
    Ok(w.(roles := w.roles.(admin := Some(admin), timelock := Some(timelock)),
          cfg := w.cfg.(token := Some(token), allowed := Some([token]), dataVersion := Some(DATA_VERSION))))
  }

  /** Acceptance of a two-step transfer: the named address, within the window. */
  function Accept(env: Env, pending: Option<Proposal>, who: Address, missing: Error,
                  expired: Error): Requirement<Error> {
    if who !in env.auth then Fail(AuthMissing)
    else if pending.None? || pending.value.who != who then Fail(missing)
    else Need(env.ledger <= pending.value.expiry, expired)
  }

  /** The admin, collector and upgrade entrypoints, which touch nothing but the roles. */
  function RolesStep(r: Roles, env: Env, call: RoleCall): Result<Roles> {
    match call
    case ProposeAdmin(admin, who) =>
      :- AdminCall(r, env, admin);
      :- Need(r.pendingAdmin.None?, AdminTransferAlreadyPending);
      Ok(r.(pendingAdmin := Some(Proposal(who, AddU32(env.ledger, ADMIN_TRANSFER_EXPIRY_LEDGERS)))))
    case AcceptAdmin(who) =>
      :- Accept(env, r.pendingAdmin, who, NoPendingAdmin, AdminTransferExpired);
      Ok(r.(admin := Some(who), pendingAdmin := None))
    case CancelAdminTransfer(admin) =>
      :- AdminCall(r, env, admin);
      :- Need(r.pendingAdmin.Some?, NoPendingAdmin);
      Ok(r.(pendingAdmin := None))
    case ProposeUpgrade(admin, hash) =>
      :- AdminCall(r, env, admin);
      :- Need(r.pendingUpgrade.None?, UpgradeAlreadyPending);
      :- Need(r.timelock.Some?, NotInitialized);
      Ok(r.(pendingUpgrade := Some(Upgrade(hash, AddU32(env.ledger, r.timelock.value)))))
    case CancelUpgrade(admin) =>
      :- AdminCall(r, env, admin);
      :- Need(r.pendingUpgrade.Some?, NoPendingUpgrade);
      Ok(r.(pendingUpgrade := None))
    case ExecuteUpgrade =>
      :- Need(r.pendingUpgrade.Some?, NoPendingUpgrade);
      :- Need(env.ledger >= r.pendingUpgrade.value.unlock, TimelockNotElapsed);
      Ok(r.(pendingUpgrade := None, replacedBy := Some(r.pendingUpgrade.value.hash)))
    case ProposeFeeCollector(admin, who) =>
      :- AdminCall(r, env, admin);
      :- Need(r.collector != Some(who), InvalidTarget);
      :- Need(r.pendingCollector.None?, FeeCollectorTransferAlreadyPending);
      Ok(r.(pendingCollector := Some(Proposal(who, AddU32(env.ledger, ADMIN_TRANSFER_EXPIRY_LEDGERS)))))
    case AcceptFeeCollector(who) =>
      :- Accept(env, r.pendingCollector, who, NoPendingFeeCollector, FeeCollectorTransferExpired);
      Ok(r.(collector := Some(who), pendingCollector := None))
    case CancelFeeCollectorTransfer(admin) =>
      :- AdminCall(r, env, admin);
      :- Need(r.pendingCollector.Some?, NoPendingFeeCollector);
      Ok(r.(pendingCollector := None))
  }

  // ------------------------------------------------------------ circuit breaker

  function BreakerStep(roles: Roles, b: Breaker, env: Env, call: BreakerCall): Result<Breaker> {
    var p := PauseOf(b);
    match call
    case SetGuardian(admin, guardian) =>
      :- AdminCall(roles, env, admin);
      Ok(b.(guardian := Some(guardian)))
    case SetGuardianPauseDuration(admin, ledgers) =>
      :- AdminCall(roles, env, admin);
      :- Need(ledgers != 0, InvalidDuration);
      Ok(b.(duration := Some(ledgers)))
    case Pause(caller, flag) =>
      :- RequireAuth(env, caller);
      :- Need(roles.admin.Some?, NotInitialized);
      if caller == roles.admin.value then
        Ok(b.(pause := Some(p.(adminFlags := p.adminFlags + flag, guardianFlags := p.guardianFlags - flag))))
      else
        :- Need(b.guardian == Some(caller), Unauthorized);
        var duration := b.duration.UnwrapOr(DEFAULT_GUARDIAN_PAUSE_DURATION_LEDGERS);
        Ok(b.(pause := Some(p.(guardianFlags := p.guardianFlags + flag,
                               guardianExpiry := AddU32(env.ledger, duration)))))
    case Unpause(caller, flag) =>
      :- AdminCall(roles, env, caller);
      Ok(b.(pause := Some(p.(adminFlags := p.adminFlags - flag, guardianFlags := p.guardianFlags - flag))))
  }

  // --------------------------------------------------- payout addresses, operators

  function PayoutsStep(b: Breaker, p: Payouts, env: Env, call: PayoutCall): Result<Payouts> {
    match call
    case SetPayoutAddress(creator, payout) =>
      :- RequireAuth(env, creator);
      :- CheckNotPaused(b, env, PAUSE_FLAG_WITHDRAWALS);
      Ok(p.(pending := p.pending[creator := PendingPayout(payout, AddU32(env.ledger, PAYOUT_DELAY_LEDGERS))]))
    case CancelPayoutAddress(creator) =>
      :- RequireAuth(env, creator);
      :- CheckNotPaused(b, env, PAUSE_FLAG_WITHDRAWALS);
      :- Need(creator in p.pending, NoPendingPayoutChange);
      Ok(p.(pending := p.pending - {creator}))
    case AuthorizeOperator(creator, operator, allowance, expiry) =>
      :- RequireAuth(env, creator);
      :- CheckNotPaused(b, env, PAUSE_FLAG_WITHDRAWALS);
      Ok(p.(operator := p.operator[(creator, operator) := Allowance(allowance, expiry)]))
    case RevokeOperator(creator, operator) =>
      :- RequireAuth(env, creator);
      :- CheckNotPaused(b, env, PAUSE_FLAG_WITHDRAWALS);
      Ok(p.(operator := p.operator - {(creator, operator)}))
  }

  // ------------------------------------------------------------------ settings

  function ConfigStep(roles: Roles, cfg: Config, env: Env, call: ConfigCall): Result<Config> {
    match call
    case AddToken(admin, token) =>
      :- AdminCall(roles, env, admin);
      InsertToken(cfg, token)
    case RemoveToken(admin, token) =>
      :- AdminCall(roles, env, admin);
      DeleteToken(cfg, token)
    case SetFee(admin, bps) =>
      :- AdminCall(roles, env, admin);
      :- Need(bps <= MAX_FEE_BPS, InvalidFee);
      Ok(cfg.(feeBps := Some(bps)))
    case Migrate(admin) =>
      :- AdminCall(roles, env, admin);
      if cfg.dataVersion.UnwrapOr(1) >= DATA_VERSION then Ok(cfg)
      else Ok(cfg.(dataVersion := Some(DATA_VERSION)))
  }

  // --------------------------------------------------------------- transitions

  /** A finished call: the world it leaves and the number it returns (0 when it returns nothing). */
  datatype Done = Done(world: World, ret: int)

  /** The call a v1-style entrypoint stands for: the same call on the first allowed token. */
  function Delegate(w: World, call: Call): Result<Call> {
    match call
    case TipLegacy(sender, creator, amount) =>
      :- Need(w.roles.admin.Some? && Allowed(w.cfg) != [], NotInitialized);
      Ok(DoTip(sender, creator, Allowed(w.cfg)[0], amount))
    case WithdrawLegacy(caller, creator, to, request) =>
      :- Need(w.roles.admin.Some? && Allowed(w.cfg) != [], NotInitialized);
      Ok(DoWithdraw(caller, creator, Allowed(w.cfg)[0], to, request))
    case GetTotalTipsLegacy(creator) =>
      :- Need(w.roles.admin.Some?, NotInitialized);
      if Allowed(w.cfg) == [] then Ok(call) else Ok(GetTotalTips(creator, Allowed(w.cfg)[0]))
    case _ => Ok(call)
  }

  /** Every entrypoint, the v1-style ones already resolved. */
  function Perform(jar: Address, w: World, env: Env, call: Call): Result<Done> {
    match call
    case Init(token, admin, timelock) =>
      var next :- Initialize(w, env, token, admin, timelock);
      Ok(Done(next, 0))
    case DoTip(sender, creator, token, amount) =>
      var next :- Tip(jar, w, env, sender, creator, token, amount);
      Ok(Done(next, 0))
    case DoWithdraw(caller, creator, token, to, request) =>
      var next :- Withdraw(jar, w, env, caller, creator, token, to, request);
      Ok(Done(next, 0))
    case DoWithdrawFees(caller, token, request) =>
      var next :- WithdrawFees(jar, w, env, caller, token, request);
      Ok(Done(next, 0))
    case GetTotalTips(creator, token) =>
      var m := MigrateCreator(w.acct, w.cfg.token, creator, token);
      Ok(Done(w.(acct := m), Get(m.total.v2, (creator, token), 0)))
    case GetBalance(creator, token) =>
      var m := MigrateCreator(w.acct, w.cfg.token, creator, token);
      Ok(Done(w.(acct := m), Get(m.balance.v2, (creator, token), 0)))
    case GetFeeBalance(token) =>
      var m :- MigrateFees(w.acct.fees, w.cfg.token, token);
      Ok(Done(w.(acct := w.acct.(fees := m)), Get(m.v2, token, 0)))
    case Outside(token, holder, newBalance) =>
      // nobody but the jar can debit the jar
      :- Need(holder != jar || newBalance >= Held(w.tokens, token, jar), AuthMissing);
      Ok(Done(w.(tokens := w.tokens[(token, holder) := newBalance]), 0))
    case OnRoles(c) =>
      var roles :- RolesStep(w.roles, env, c);
      Ok(Done(w.(roles := roles), 0))
    case OnBreaker(c) =>
      var breaker :- BreakerStep(w.roles, w.breaker, env, c);
      Ok(Done(w.(breaker := breaker), 0))
    case OnPayouts(c) =>
      var payouts :- PayoutsStep(w.breaker, w.payouts, env, c);
      Ok(Done(w.(payouts := payouts), 0))
    case OnConfig(c) =>
      var cfg :- ConfigStep(w.roles, w.cfg, env, c);
      Ok(Done(w.(cfg := cfg), 0))
    case _ => Ok(Done(w, 0))
  }

  function Exec(jar: Address, w: World, env: Env, call: Call): Result<Done> {
    if w.roles.replacedBy.Some? && !call.Outside? then Err(CodeReplaced) else
    var resolved :- Delegate(w, call);
    Perform(jar, w, env, resolved)
  }

  // ---------------------------------------------------------------------- runs

  datatype Step = Step(env: Env, call: Call)

  /** A panicking call leaves the world as it was. */
  function Next(jar: Address, w: World, step: Step): World {
    match Exec(jar, w, step.env, step.call)
    case Ok(done) => done.world
    case Err(_) => w
  }

  const EMPTY_STORAGE: World := World(
    Accounts(Store(map[], map[]), Store(map[], map[]), FeeStore(None, map[])),
    Payouts(map[], map[], map[]),
    Roles(None, None, None, None, None, None, None),
    Breaker(None, None, None),
    Config(None, None, None, None),
    map[])

  /** `states[i]` is the world before `steps[i]`. */
  datatype Run = Run(states: seq<World>, steps: seq<Step>) {
    predicate Ok(jar: Address, i: nat)
      requires i < |steps| && i < |states|
    {
      Exec(jar, states[i], steps[i].env, steps[i].call).Ok?
    }

    /** The call performed at step `i`, with v1-style entrypoints resolved. */
    function Performed(i: nat): Call
      requires i < |steps| && i < |states|
    {
      var d := Delegate(states[i], steps[i].call);
      if d.Ok? then d.value else steps[i].call
    }

    function Ledger(i: nat): nat
      requires i < |steps|
    {
      steps[i].env.ledger
    }
  }

  /**
   A run of the contract. The ledger sequence never goes back, and the host
   never sees the jar authorise a call: it makes no call that names itself.
   */
  ghost predicate IsRun(jar: Address, r: Run) {
    && |r.states| == |r.steps| + 1
    && (forall i :: 0 <= i < |r.steps| ==> r.states[i + 1] == Next(jar, r.states[i], r.steps[i]))
    && (forall i :: 0 <= i < |r.steps| ==> jar !in r.steps[i].env.auth)
    && (forall i, j :: 0 <= i <= j < |r.steps| ==> r.steps[i].env.ledger <= r.steps[j].env.ledger)
  }
}
