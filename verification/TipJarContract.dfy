/**
 The money entrypoints of the TipJar in the contract's own form: storage that is
 read and written step by step, loops over the allowlist, and a host that undoes
 every write of a call that panics. Each method is proved against the transition
 function on storage values, about which the run-level results are stated.
 */
module TipJarContract {
  import opened Host
  import Spec = TipJar
  import opened TipJar

  /** `spec` says what the call does; the object did it, or panicked alike and changed nothing. */
  predicate Matches(spec: Result<World>, r: Result<()>, before: World, after: World) {
    match spec
    case Ok(w) => r == Ok(()) && after == w
    case Err(e) => r == Err(e) && after == before
  }

  /** Migrating first makes no difference to booking, which migrates anyway. */
  lemma CreditAfterMigration(a: Accounts, p: Option<Address>, creator: Address, token: Address,
                             amount: int, fee: int, bps: nat)
    ensures Credit(MigrateCreator(a, p, creator, token), p, creator, token, amount, fee, bps)
         == Credit(a, p, creator, token, amount, fee, bps)
  {
    var m := MigrateCreator(a, p, creator, token);
    assert Move(m.balance, p, creator, token) == m.balance && Move(m.total, p, creator, token) == m.total;
  }

  lemma {:induction false} WithoutAppend(tokens: seq<Address>, last: Address, token: Address)
    ensures Without(tokens + [last], token) == Without(tokens, token) + if last == token then [] else [last]
  {
    if tokens != [] {
      WithoutAppend(tokens[1..], last, token);
      assert (tokens + [last])[1..] == tokens[1..] + [last];
    }
  }

  class Contract {
    const jar: Address
    var acct: Accounts
    var payouts: Payouts
    var roles: Roles
    var breaker: Breaker
    var cfg: Config
    var tokens: TokenLedger

    constructor (jar: Address, w: World)
      ensures this.jar == jar && State() == w
    {
      this.jar := jar;
      acct, payouts, roles, breaker, cfg, tokens := w.acct, w.payouts, w.roles, w.breaker, w.cfg, w.tokens;
    }

    function State(): World
      reads this
    {
      World(acct, payouts, roles, breaker, cfg, tokens)
    }

    /** The host discards the writes of a panicking call. */
    method Rollback(saved: World)
      modifies this
      ensures State() == saved
    {
      acct, payouts, roles := saved.acct, saved.payouts, saved.roles;
      breaker, cfg, tokens := saved.breaker, saved.cfg, saved.tokens;
    }

    // --------------------------------------------------------------- allowlist

    method IsTokenAllowed(token: Address) returns (found: bool)
      ensures found <==> token in Allowed(cfg)
    {
      var allowed := cfg.allowed.UnwrapOr([]);
      for i := 0 to |allowed|
        invariant token !in allowed[..i]
      {
        if allowed[i] == token {
          return true;
        }
      }
      return false;
    }

    /** The tokens other than `token`, in order, and whether it was there. */
    method SplitOff(allowed: seq<Address>, token: Address) returns (found: bool, kept: seq<Address>)
      ensures found <==> token in allowed
      ensures kept == Without(allowed, token)
    {
      found, kept := false, [];
      for i := 0 to |allowed|
        invariant found <==> token in allowed[..i]
        invariant kept == Without(allowed[..i], token)
      {
        WithoutAppend(allowed[..i], allowed[i], token);
        assert allowed[..i + 1] == allowed[..i] + [allowed[i]];
        if allowed[i] != token {
          kept := kept + [allowed[i]];
        } else {
          found := true;
        }
      }
      assert allowed[..|allowed|] == allowed;
    }

    method AddToken(env: Env, admin: Address, token: Address) returns (r: Result<()>)
      modifies this
      ensures Matches(match ConfigStep(old(roles), old(cfg), env, Spec.AddToken(admin, token))
                      case Ok(c) => Ok(old(State()).(cfg := c)) case Err(e) => Err(e),
                      r, old(State()), State())
    {
      var permitted := AdminCall(roles, env, admin);
      if permitted.Fail? {
        return Err(permitted.error);
      }
      var allowed := cfg.allowed.UnwrapOr([]);
      if |allowed| >= MAX_ALLOWED_TOKENS {
        return Err(MaxTokensReached);
      }
      var found := IsTokenAllowed(token);
      if found {
        return Err(TokenAlreadyExists);
      }
      cfg := cfg.(allowed := Some(allowed + [token]));
      return Ok(());
    }

    method RemoveToken(env: Env, admin: Address, token: Address) returns (r: Result<()>)
      modifies this
      ensures Matches(match ConfigStep(old(roles), old(cfg), env, Spec.RemoveToken(admin, token))
                      case Ok(c) => Ok(old(State()).(cfg := c)) case Err(e) => Err(e),
                      r, old(State()), State())
    {
      var permitted := AdminCall(roles, env, admin);
      if permitted.Fail? {
        return Err(permitted.error);
      }
      var found, kept := SplitOff(cfg.allowed.UnwrapOr([]), token);
      if !found {
        return Err(TokenNotAllowed);
      }
      cfg := cfg.(allowed := Some(kept));
      return Ok(());
    }

    // --------------------------------------------------------------- migration

    method MaybeMigrateCreatorData(creator: Address, token: Address)
      modifies this`acct
      ensures acct == MigrateCreator(old(acct), cfg.token, creator, token)
    {
      if cfg.token.None? || cfg.token.value != token {
        return;
      }
      if creator in acct.balance.v1 {
        var v1 := acct.balance.v1[creator];
        acct := acct.(balance := Store(acct.balance.v1, acct.balance.v2[(creator, token) := v1]));
        acct := acct.(balance := Store(acct.balance.v1 - {creator}, acct.balance.v2));
      }
      if creator in acct.total.v1 {
        var v1 := acct.total.v1[creator];
        acct := acct.(total := Store(acct.total.v1, acct.total.v2[(creator, token) := v1]));
        acct := acct.(total := Store(acct.total.v1 - {creator}, acct.total.v2));
      }
    }

    method MaybeMigrateFeeBalance(token: Address) returns (r: Result<()>)
      modifies this`acct
      ensures match MigrateFees(old(acct.fees), cfg.token, token)
              case Ok(f) => r == Ok(()) && acct == old(acct).(fees := f)
              case Err(e) => r == Err(e)
    {
      if acct.fees.v1.None? || cfg.token.None? || token != cfg.token.value {
        return Ok(());
      }
      var combined := Get(acct.fees.v2, token, 0) + acct.fees.v1.value;
      if !FitsI128(combined) {
        return Err(FeeOverflow);
      }
      acct := acct.(fees := acct.fees.(v2 := acct.fees.v2[token := combined]));
      acct := acct.(fees := acct.fees.(v1 := None));
      return Ok(());
    }

    // ----------------------------------------------------------------- entrypoints

    /** Writes balance, total and fees of a tip whose creator is already migrated. */
    method BookTip(creator: Address, token: Address, amount: int, fee: int, bps: nat) returns (r: Result<()>)
      requires cfg.token == Some(token) ==> creator !in acct.balance.v1 && creator !in acct.total.v1
      modifies this`acct
      ensures match Credit(old(acct), cfg.token, creator, token, amount, fee, bps)
              case Ok(a) => r == Ok(()) && acct == a
              case Err(e) => r == Err(e)
    {
      var k := (creator, token);
      var newBalance := Get(acct.balance.v2, k, 0) + (amount - fee);
      if !FitsI128(newBalance) {
        return Err(InvalidAmount);
      }
      var newTotal := Get(acct.total.v2, k, 0) + amount;
      if !FitsI128(newTotal) {
        return Err(InvalidAmount);
      }
      acct := acct.(balance := acct.balance.(v2 := acct.balance.v2[k := newBalance]));
      acct := acct.(total := acct.total.(v2 := acct.total.v2[k := newTotal]));
      if bps > 0 {
        var _ :- BookFee(token, fee);
      }
      return Ok(());
    }

    method BookFee(token: Address, fee: int) returns (r: Result<()>)
      modifies this`acct
      ensures match AddFee(old(acct.fees), cfg.token, token, fee)
              case Ok(f) => r == Ok(()) && acct == old(acct).(fees := f)
              case Err(e) => r == Err(e)
    {
      var _ :- MaybeMigrateFeeBalance(token);
      var newFees := Get(acct.fees.v2, token, 0) + fee;
      if !FitsI128(newFees) {
        return Err(FeeOverflow);
      }
      acct := acct.(fees := acct.fees.(v2 := acct.fees.v2[token := newFees]));
      return Ok(());
    }

    /** The body of `tip`, as far as the first panic. */
    method TipBody(env: Env, sender: Address, creator: Address, token: Address, amount: int) returns (r: Result<()>)
      modifies this`acct, this`tokens
      ensures match Spec.Tip(jar, old(State()), env, sender, creator, token, amount)
              case Ok(w) => r == Ok(()) && State() == w
              case Err(e) => r == Err(e)
    {
      if sender !in env.auth {
        return Err(AuthMissing);
      }
      var running := CheckNotPaused(breaker, env, PAUSE_FLAG_TIPS);
      if running.Fail? {
        return Err(running.error);
      }
      if amount <= 0 {
        return Err(InvalidAmount);
      }
      if roles.admin.None? {
        return Err(NotInitialized);
      }
      var found := IsTokenAllowed(token);
      if !found {
        return Err(TokenNotAllowed);
      }
      MaybeMigrateCreatorData(creator, token);
      var bps := cfg.feeBps.UnwrapOr(0);
      var fee :- FeeFor(amount, bps);
      CreditAfterMigration(old(acct), cfg.token, creator, token, amount, fee, bps);
      tokens :- Transfer(tokens, env, token, sender, jar, amount);
      r := BookTip(creator, token, amount, fee, bps);
    }

    method Tip(env: Env, sender: Address, creator: Address, token: Address, amount: int) returns (r: Result<()>)
      modifies this
      ensures Matches(Spec.Tip(jar, old(State()), env, sender, creator, token, amount), r, old(State()), State())
    {
      var saved := State();
      r := TipBody(env, sender, creator, token, amount);
      if r.Err? {
        Rollback(saved);
      }
    }

    /** Charges an operator's allowance; the entry disappears when it is used up. */
    method ChargeOperator(env: Env, caller: Address, creator: Address, amount: int) returns (r: Result<()>)
      modifies this`payouts
      ensures match SpendAllowance(old(payouts), env, creator, caller, amount)
              case Ok(p) => r == Ok(()) && payouts == p
              case Err(e) => r == Err(e)
    {
      if caller != creator {
        var k := (creator, caller);
        if k !in payouts.operator {
          return Err(InvalidOperator);
        }
        var Allowance(allowance, expiry) := payouts.operator[k];
        if env.ledger > expiry {
          return Err(OperatorExpired);
        }
        if allowance < amount {
          return Err(InsufficientAllowance);
        }
        var left := allowance - amount;
        if left == 0 {
          payouts := payouts.(operator := payouts.operator - {k});
        } else {
          payouts := payouts.(operator := payouts.operator[k := Allowance(left, expiry)]);
        }
      }
      return Ok(());
    }

    method ApplyMaturedPayout(env: Env, creator: Address)
      modifies this`payouts
      ensures payouts == ApplyPending(old(payouts), creator, env.ledger)
    {
      if creator in payouts.pending {
        var PendingPayout(payout, effective) := payouts.pending[creator];
        if env.ledger >= effective {
          payouts := payouts.(payout := payouts.payout[creator := payout]);
          payouts := payouts.(pending := payouts.pending - {creator});
        }
      }
    }

    /** From the allowance check to the transfer. */
    method PayCreator(env: Env, caller: Address, creator: Address, token: Address, to: Address, amount: int)
      returns (r: Result<()>)
      modifies this`payouts, this`tokens
      ensures match PayOut(jar, old(payouts), old(tokens), env, caller, creator, token, to, amount)
              case Ok(p) => r == Ok(()) && payouts == p.0 && tokens == p.1
              case Err(e) => r == Err(e)
    {
      var _ :- ChargeOperator(env, caller, creator, amount);
      ApplyMaturedPayout(env, creator);
      if to != Get(payouts.payout, creator, creator) {
        return Err(InvalidTarget);
      }
      tokens :- Transfer(tokens, env, token, jar, to, amount);
      return Ok(());
    }

    method WithdrawBody(env: Env, caller: Address, creator: Address, token: Address, to: Address, request: Option<int>)
      returns (r: Result<()>)
      modifies this`acct, this`payouts, this`tokens
      ensures match Spec.Withdraw(jar, old(State()), env, caller, creator, token, to, request)
              case Ok(w) => r == Ok(()) && State() == w
              case Err(e) => r == Err(e)
    {
      if caller !in env.auth {
        return Err(AuthMissing);
      }
      var running := CheckNotPaused(breaker, env, PAUSE_FLAG_WITHDRAWALS);
      if running.Fail? {
        return Err(running.error);
      }
      if roles.admin.None? {
        return Err(NotInitialized);
      }
      MaybeMigrateCreatorData(creator, token);
      var k := (creator, token);
      var balance := Get(acct.balance.v2, k, 0);
      if balance == 0 {
        return Err(NothingToWithdraw);
      }
      var amount := request.UnwrapOr(balance);
      if amount <= 0 || amount > balance {
        return Err(InvalidAmount);
      }
      var _ :- PayCreator(env, caller, creator, token, to, amount);
      acct := acct.(balance := acct.balance.(v2 := acct.balance.v2[k := balance - amount]));
      return Ok(());
    }

    method Withdraw(env: Env, caller: Address, creator: Address, token: Address, to: Address, request: Option<int>)
      returns (r: Result<()>)
      modifies this
      ensures Matches(Spec.Withdraw(jar, old(State()), env, caller, creator, token, to, request),
                      r, old(State()), State())
    {
      var saved := State();
      r := WithdrawBody(env, caller, creator, token, to, request);
      if r.Err? {
        Rollback(saved);
      }
    }

    method WithdrawFees(env: Env, caller: Address, token: Address, request: Option<int>) returns (r: Result<()>)
      modifies this
      ensures Matches(Spec.WithdrawFees(jar, old(State()), env, caller, token, request), r, old(State()), State())
    {
      if caller !in env.auth {
        return Err(AuthMissing);
      }
      if roles.collector.None? {
        return Err(NothingToWithdraw);
      }
      if caller != roles.collector.value {
        return Err(NotFeeCollector);
      }
      var saved := State();
      r := MaybeMigrateFeeBalance(token);
      if r.Ok? {
        var balance := Get(acct.fees.v2, token, 0);
        var amount := request.UnwrapOr(balance);
        if balance == 0 {
          r := Err(NothingToWithdraw);
        } else if amount <= 0 || amount > balance {
          r := Err(InvalidAmount);
        } else {
          var paid := Transfer(tokens, env, token, jar, caller, amount);
          if paid.Err? {
            r := Err(paid.error);
          } else {
            tokens := paid.value;
            acct := acct.(fees := acct.fees.(v2 := acct.fees.v2[token := balance - amount]));
          }
        }
      }
      if r.Err? {
        Rollback(saved);
      }
    }
  }
}
