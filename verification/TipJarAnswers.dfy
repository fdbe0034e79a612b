/**
 What the TipJar answers: for each entrypoint, the exact condition of success in
 terms of what anyone can read from the storage, and the error of the first
 condition that fails.
 */
module TipJarAnswers {
  import opened Host
  import opened TipJar
  import opened TipJarMigration
  import opened TipJarSolvency

  // --------------------------------------------------------------------- small parts

  lemma PauseCheck(b: Breaker, env: Env)
    ensures CheckNotPaused(b, env, PAUSE_FLAG_TIPS) ==
            if Tips in EffectivePauseFlags(PauseOf(b), env.ledger) then Fail(TipsPaused) else Pass
    ensures CheckNotPaused(b, env, PAUSE_FLAG_WITHDRAWALS) ==
            if Withdrawals in EffectivePauseFlags(PauseOf(b), env.ledger) then Fail(WithdrawalsPaused) else Pass
  {
    var flags := EffectivePauseFlags(PauseOf(b), env.ledger);
    assert Tips in flags ==> Tips in flags * {Tips};
    assert Withdrawals in flags ==> Withdrawals in flags * {Withdrawals};
  }

  /** `token` is on the stored allowlist. */
  predicate IsListed(cfg: Config, token: Address) {
    cfg.allowed.Some? && token in cfg.allowed.value
  }

  /** The fee rate in force. */
  function Rate(cfg: Config): nat {
    match cfg.feeBps case None => 0 case Some(bps) => bps
  }

  lemma FeeIs(amount: int, bps: nat, fee: int)
    requires 0 < amount && fee * BPS_DENOMINATOR <= amount * bps < (fee + 1) * BPS_DENOMINATOR
    ensures FeeFor(amount, bps) == if amount * bps <= I128_MAX then Ok(fee) else Err(FeeOverflow)
  {
    ShareSign(amount, bps);
    FeeSplit(amount, bps);
    assert bps == 0 ==> amount * bps == 0;
  }

  lemma AddToDecides(s: Store, p: Option<Address>, creator: Address, token: Address, amount: int)
    requires Unmigrated(s, p)
    ensures var r := AddTo(s, p, creator, token, amount);
            if FitsI128(Read(s, p, creator, token) + amount) then r.Ok? else r == Err(InvalidAmount)
  {
    RewriteReads(s, p, creator, token, amount);
  }

  lemma AddFeeDecides(f: FeeStore, p: Option<Address>, token: Address, fee: int)
    requires UnmigratedFees(f, p)
    ensures var r := AddFee(f, p, token, fee);
            if FitsI128(ReadFees(f, p, token) + fee) then r.Ok? else r == Err(FeeOverflow)
  {
  }

  lemma CreditDecides(a: Accounts, p: Option<Address>, creator: Address, token: Address, amount: int, fee: int,
                      bps: nat)
    requires UnmigratedAccounts(a, p)
    ensures var r := Credit(a, p, creator, token, amount, fee, bps);
            if !FitsI128(Read(a.balance, p, creator, token) + (amount - fee)) then r == Err(InvalidAmount)
            else if !FitsI128(Read(a.total, p, creator, token) + amount) then r == Err(InvalidAmount)
            else if bps > 0 && !FitsI128(ReadFees(a.fees, p, token) + fee) then r == Err(FeeOverflow)
            else r.Ok?
  {
    AddToDecides(a.balance, p, creator, token, amount - fee);
    AddToDecides(a.total, p, creator, token, amount);
    AddFeeDecides(a.fees, p, token, fee);
  }

  // --------------------------------------------------------------------------- tips

  /** Why a tip is refused before any token moves; `fee` is its exact fee, cut to an integer. */
  ghost function TipRefusal(w: World, env: Env, sender: Address, token: Address, amount: int): Option<Error> {
    if sender !in env.auth then Some(AuthMissing)
    else if Tips in EffectivePauseFlags(PauseOf(w.breaker), env.ledger) then Some(TipsPaused)
    else if amount <= 0 then Some(InvalidAmount)
    else if w.roles.admin.None? then Some(NotInitialized)
    else if !IsListed(w.cfg, token) then Some(TokenNotAllowed)
    else if amount * Rate(w.cfg) > I128_MAX then Some(FeeOverflow)
    else if !env.tokenOk || Held(w.tokens, token, sender) < amount then Some(TransferFailed)
    else None
  }

  /** Why a tip that was paid cannot be booked. */
  ghost function BookingRefusal(w: World, creator: Address, token: Address, amount: int, fee: int): Option<Error> {
    var p := w.cfg.token;
    if Read(w.acct.balance, p, creator, token) + (amount - fee) > I128_MAX then Some(InvalidAmount)
    else if Read(w.acct.total, p, creator, token) + amount > I128_MAX then Some(InvalidAmount)
    else if Rate(w.cfg) > 0 && ReadFees(w.acct.fees, p, token) + fee > I128_MAX then Some(FeeOverflow)
    else None
  }

  lemma FeeWithin(amount: int, bps: nat, fee: int)
    requires 0 < amount && bps <= MAX_FEE_BPS && fee * BPS_DENOMINATOR <= amount * bps < (fee + 1) * BPS_DENOMINATOR
    ensures 0 <= fee <= amount
  {
    ShareSign(amount, bps);
  }

  /**
   The answer of `tip`. It succeeds exactly when the sender authorised it, tips are
   not paused, the amount is positive, there is an admin, the token is listed, the
   fee's product fits, the sender holds the amount and the token moves it, and the
   balance, total and fees read afterwards fit 128 bits; otherwise the error is
   that of the first of these that fails.
   */
  lemma TipDecides(jar: Address, w: World, env: Env, sender: Address, creator: Address, token: Address, amount: int,
                   fee: int)
    requires Good(w)
    requires amount > 0 ==> fee * 10000 <= amount * Rate(w.cfg) < (fee + 1) * 10000
    ensures var r := Tip(jar, w, env, sender, creator, token, amount);
            var refusal := TipRefusal(w, env, sender, token, amount);
            if refusal.Some? then r == Err(refusal.value)
            else
              var booking := BookingRefusal(w, creator, token, amount, fee);
              if booking.Some? then r == Err(booking.value) else r.Ok?
  {
    PauseCheck(w.breaker, env);
    if amount > 0 {
      FeeIs(amount, Rate(w.cfg), fee);
      CreditDecides(w.acct, w.cfg.token, creator, token, amount, fee, Rate(w.cfg));
      FeeWithin(amount, Rate(w.cfg), fee);
      assert Bounded(w.acct, w.cfg.token);
      assert 0 <= Read(w.acct.balance, w.cfg.token, creator, token) <= Read(w.acct.total, w.cfg.token, creator, token);
      assert 0 <= ReadFees(w.acct.fees, w.cfg.token, token);
    }
  }

  // -------------------------------------------------------------------- withdrawals

  /** The address that a withdrawal by or for the creator pays at this ledger. */
  function Target(p: Payouts, creator: Address, ledger: nat): Address {
    if creator in p.pending && ledger >= p.pending[creator].effective then p.pending[creator].payout
    else if creator in p.payout then p.payout[creator] else creator
  }

  /** Why an operator may not take `amount`. */
  function OperatorRefusal(p: Payouts, ledger: nat, creator: Address, caller: Address, amount: int): Option<Error> {
    if caller == creator then None
    else if (creator, caller) !in p.operator then Some(InvalidOperator)
    else if ledger > p.operator[(creator, caller)].expiry then Some(OperatorExpired)
    else if amount > p.operator[(creator, caller)].amount then Some(InsufficientAllowance)
    else None
  }

  lemma PayOutDecides(jar: Address, p: Payouts, held: TokenLedger, env: Env, caller: Address, creator: Address,
                      token: Address, to: Address, amount: int)
    requires amount > 0
    ensures var r := PayOut(jar, p, held, env, caller, creator, token, to, amount);
            var refusal := OperatorRefusal(p, env.ledger, creator, caller, amount);
            if refusal.Some? then r == Err(refusal.value)
            else if to != Target(p, creator, env.ledger) then r == Err(InvalidTarget)
            else if !env.tokenOk || Held(held, token, jar) < amount then r == Err(TransferFailed)
            else r.Ok?
  {
  }

  /** Why a withdrawal is refused before anything is charged or paid. */
  ghost function WithdrawRefusal(w: World, env: Env, caller: Address, creator: Address, token: Address,
                                 request: Option<int>): Option<Error>
  {
    var balance := Read(w.acct.balance, w.cfg.token, creator, token);
    var amount := if request.Some? then request.value else balance;
    if caller !in env.auth then Some(AuthMissing)
    else if Withdrawals in EffectivePauseFlags(PauseOf(w.breaker), env.ledger) then Some(WithdrawalsPaused)
    else if w.roles.admin.None? then Some(NotInitialized)
    else if balance == 0 then Some(NothingToWithdraw)
    else if amount <= 0 || amount > balance then Some(InvalidAmount)
    else None
  }

  lemma DebitDecides(a: Accounts, p: Option<Address>, creator: Address, token: Address, request: Option<int>)
    requires UnmigratedAccounts(a, p)
    ensures var r, balance := Debit(a, p, creator, token, request), Read(a.balance, p, creator, token);
            var amount := if request.Some? then request.value else balance;
            if balance == 0 then r == Err(NothingToWithdraw)
            else if amount <= 0 || amount > balance then r == Err(InvalidAmount)
            else r.Ok? && r.value.1 == amount
  {
    RewriteReads(a.balance, p, creator, token, 0);
  }

  /**
   The answer of `withdraw`. Beyond the checks on the request, it succeeds exactly
   when an operator's allowance covers it and has not expired, the target is the
   payout address in force at this ledger, and the jar's tokens move.
   */
  lemma WithdrawDecides(jar: Address, w: World, env: Env, caller: Address, creator: Address, token: Address,
                        to: Address, request: Option<int>)
    requires Good(w)
    ensures var r := Withdraw(jar, w, env, caller, creator, token, to, request);
            var refusal := WithdrawRefusal(w, env, caller, creator, token, request);
            if refusal.Some? then r == Err(refusal.value)
            else
              var amount := if request.Some? then request.value else Read(w.acct.balance, w.cfg.token, creator, token);
              var operator := OperatorRefusal(w.payouts, env.ledger, creator, caller, amount);
              if operator.Some? then r == Err(operator.value)
              else if to != Target(w.payouts, creator, env.ledger) then r == Err(InvalidTarget)
              else if !env.tokenOk || Held(w.tokens, token, jar) < amount then r == Err(TransferFailed)
              else r.Ok?
  {
    PauseCheck(w.breaker, env);
    DebitDecides(w.acct, w.cfg.token, creator, token, request);
    var amount := if request.Some? then request.value else Read(w.acct.balance, w.cfg.token, creator, token);
    if amount > 0 {
      PayOutDecides(jar, w.payouts, w.tokens, env, caller, creator, token, to, amount);
    }
  }

  /** The answer of `withdraw_fees`: for the stored collector, within that token's fees. */
  lemma WithdrawFeesDecides(jar: Address, w: World, env: Env, caller: Address, token: Address, request: Option<int>)
    requires Good(w)
    ensures var r := WithdrawFees(jar, w, env, caller, token, request);
            var balance := ReadFees(w.acct.fees, w.cfg.token, token);
            var amount := if request.Some? then request.value else balance;
            if caller !in env.auth then r == Err(AuthMissing)
            else if w.roles.collector.None? then r == Err(NothingToWithdraw)
            else if w.roles.collector.value != caller then r == Err(NotFeeCollector)
            else if balance == 0 then r == Err(NothingToWithdraw)
            else if amount <= 0 || amount > balance then r == Err(InvalidAmount)
            else if !env.tokenOk || Held(w.tokens, token, jar) < amount then r == Err(TransferFailed)
            else r.Ok?
  {
    TakeFeesEffect(w.acct.fees, w.cfg.token, token, request);
    MigrateFeesEffect(w.acct.fees, w.cfg.token, token);
  }

  // ---------------------------------------------------------- roles, pauses, settings

  /** The stored admin authorised the call. */
  predicate ByAdmin(r: Roles, env: Env, admin: Address) {
    admin in env.auth && r.admin == Some(admin)
  }

  /** Exactly when a role call succeeds. */
  lemma RoleCallDecides(r: Roles, env: Env, call: RoleCall)
    ensures RolesStep(r, env, call).Ok? <==>
            match call
            case ProposeAdmin(admin, _) => ByAdmin(r, env, admin) && r.pendingAdmin.None?
            case AcceptAdmin(who) =>
              who in env.auth && r.pendingAdmin.Some? && r.pendingAdmin.value.who == who
              && env.ledger <= r.pendingAdmin.value.expiry
            case CancelAdminTransfer(admin) => ByAdmin(r, env, admin) && r.pendingAdmin.Some?
            case ProposeFeeCollector(admin, who) =>
              ByAdmin(r, env, admin) && r.collector != Some(who) && r.pendingCollector.None?
            case AcceptFeeCollector(who) =>
              who in env.auth && r.pendingCollector.Some? && r.pendingCollector.value.who == who
              && env.ledger <= r.pendingCollector.value.expiry
            case CancelFeeCollectorTransfer(admin) => ByAdmin(r, env, admin) && r.pendingCollector.Some?
            case ProposeUpgrade(admin, _) => ByAdmin(r, env, admin) && r.pendingUpgrade.None? && r.timelock.Some?
            case CancelUpgrade(admin) => ByAdmin(r, env, admin) && r.pendingUpgrade.Some?
            case ExecuteUpgrade => r.pendingUpgrade.Some? && env.ledger >= r.pendingUpgrade.value.unlock
  {
  }

  /** Every admin-only call that anybody else makes fails alike. */
  lemma StrangersFail(r: Roles, env: Env, admin: Address)
    ensures AdminCall(r, env, admin) ==
            if admin !in env.auth then Fail(AuthMissing) else if r.admin.None? then Fail(NotInitialized)
            else if r.admin.value != admin then Fail(Unauthorized) else Pass
  {
  }

  /** The guardian, if there is one. */
  function GuardianOf(b: Breaker): set<Address> {
    if b.guardian.Some? then {b.guardian.value} else {}
  }

  /** Exactly when a guardian, pause or unpause call succeeds, and what the settings read afterwards. */
  lemma BreakerCallDecides(roles: Roles, b: Breaker, env: Env, call: BreakerCall)
    ensures var r := BreakerStep(roles, b, env, call);
            match call
            case SetGuardian(admin, guardian) =>
              && (r.Ok? <==> ByAdmin(roles, env, admin))
              && (r.Ok? ==>
                    r.value.guardian == Some(guardian) && r.value.duration == b.duration && r.value.pause == b.pause)
            case SetGuardianPauseDuration(admin, ledgers) =>
              && (r.Ok? <==> ByAdmin(roles, env, admin) && ledgers > 0)
              && (r.Ok? ==>
                    r.value.duration == Some(ledgers) && r.value.guardian == b.guardian && r.value.pause == b.pause)
            case Pause(caller, _) =>
              && (r.Ok? <==> caller in env.auth && roles.admin.Some? && caller in {roles.admin.value} + GuardianOf(b))
              && (r.Ok? ==> r.value.guardian == b.guardian && r.value.duration == b.duration)
              && (r.Ok? && roles.admin != Some(caller) ==>
                    PauseOf(r.value).guardianExpiry ==
                    AddU32(env.ledger, if b.duration.Some? then b.duration.value else 17280))
            case Unpause(caller, _) =>
              && (r.Ok? <==> ByAdmin(roles, env, caller))
              && (r.Ok? ==> r.value.guardian == b.guardian && r.value.duration == b.duration)
  {
  }

  /**
   Exactly when a payout or operator call succeeds; what it stores is told by the
   histories of slots and allowances.
   */
  lemma PayoutCallDecides(b: Breaker, p: Payouts, env: Env, call: PayoutCall)
    ensures var paused := Withdrawals in EffectivePauseFlags(PauseOf(b), env.ledger);
            PayoutsStep(b, p, env, call).Ok? <==>
            !paused &&
            match call
            case SetPayoutAddress(creator, _) => creator in env.auth
            case CancelPayoutAddress(creator) => creator in env.auth && creator in p.pending
            case AuthorizeOperator(creator, _, _, _) => creator in env.auth
            case RevokeOperator(creator, _) => creator in env.auth
  {
    PauseCheck(b, env);
  }

  /** Exactly when a setting changes, and what it reads afterwards. */
  lemma ConfigCallDecides(roles: Roles, cfg: Config, env: Env, call: ConfigCall)
    ensures var r := ConfigStep(roles, cfg, env, call);
            match call
            case SetFee(admin, bps) =>
              && (r.Ok? <==> ByAdmin(roles, env, admin) && bps <= 1000)
              && (r.Ok? ==> Rate(r.value) == bps && r.value == cfg.(feeBps := r.value.feeBps))
            case Migrate(admin) =>
              && (r.Ok? <==> ByAdmin(roles, env, admin))
              && (r.Ok? ==> r.value == cfg.(dataVersion := r.value.dataVersion) && r.value.dataVersion.Some?
                            && r.value.dataVersion.value >= 2)
            case AddToken(admin, token) =>
              && (r.Ok? <==> ByAdmin(roles, env, admin) && !IsListed(cfg, token)
                             && (cfg.allowed.Some? ==> |cfg.allowed.value| < 50))
              && (r.Ok? ==> r.value == cfg.(allowed := r.value.allowed)
                            && forall t :: IsListed(r.value, t) <==> t == token || IsListed(cfg, t))
            case RemoveToken(admin, token) =>
              && (r.Ok? <==> ByAdmin(roles, env, admin) && IsListed(cfg, token))
              && (r.Ok? ==> r.value == cfg.(allowed := r.value.allowed)
                            && forall t :: IsListed(r.value, t) <==> t != token && IsListed(cfg, t))
  {
    if call.RemoveToken? && cfg.allowed.Some? {
      WithoutKeepsOthers(cfg.allowed.value, call.token);
    }
  }

  /** `init` succeeds once, with a timelock, and sets admin, timelock and a one-token allowlist. */
  lemma InitDecides(w: World, env: Env, token: Address, admin: Address, timelock: nat)
    ensures var r := Initialize(w, env, token, admin, timelock);
            && (r.Ok? <==> w.roles.admin.None? && timelock > 0 && admin in env.auth)
            && (r.Ok? ==>
                  && r.value.roles.admin == Some(admin) && r.value.roles.timelock == Some(timelock)
                  && r.value.cfg.token == Some(token) && r.value.cfg.feeBps == w.cfg.feeBps
                  && r.value.cfg.dataVersion == Some(2)
                  && (forall t :: IsListed(r.value.cfg, t) <==> t == token)
                  && r.value.payouts == w.payouts && r.value.breaker == w.breaker)
  {
  }

  /** A v1-style call is the same call on the first listed token. */
  lemma DelegateChooses(w: World, call: Call)
    requires w.roles.admin.Some? && w.cfg.allowed.Some? && w.cfg.allowed.value != []
    ensures var first := w.cfg.allowed.value[0];
            Delegate(w, call) ==
            match call
            case TipLegacy(sender, creator, amount) => Ok(DoTip(sender, creator, first, amount))
            case WithdrawLegacy(caller, creator, to, request) => Ok(DoWithdraw(caller, creator, first, to, request))
            case GetTotalTipsLegacy(creator) => Ok(GetTotalTips(creator, first))
            case _ => Ok(call)
  {
  }
}
