/**
 Lazy migration is invisible. A jar that still holds v1 entries answers every
 call, and moves every token, exactly like the jar whose entries were all
 converted up front.
 */
module TipJarMigration {
  import opened Host
  import opened TipJar

  // ---------------------------------------------------------- one kind of amount

  /** A v1 entry still present has no v2 counterpart yet; v1 entries need a v1 token. */
  ghost predicate Unmigrated(s: Store, p: Option<Address>) {
    if p.None? then s.v1 == map[] else forall c :: c in s.v1 ==> (c, p.value) !in s.v2
  }

  /** `m` is the v2 book with the v1 entries added under the v1 token, and nothing else. */
  ghost predicate IsMerge(s: Store, token: Address, m: Book) {
    && (forall c :: c in s.v1 ==> (c, token) in m && m[(c, token)] == s.v1[c])
    && (forall k :: k in s.v2 && !(k.1 == token && k.0 in s.v1) ==> k in m && m[k] == s.v2[k])
    && (forall k :: k in m ==> k in s.v2 || (k.1 == token && k.0 in s.v1))
  }

  /** `e` is `s` with every v1 entry converted. */
  ghost predicate Converted(s: Store, p: Option<Address>, e: Store) {
    && e.v1 == map[]
    && (if p.None? then e == s else IsMerge(s, p.value, e.v2))
  }

  lemma ConversionExists(s: Store, p: Option<Address>) returns (e: Store)
    requires Unmigrated(s, p)
    ensures Converted(s, p, e)
  {
    if p.None? {
      e := s;
    } else {
      var t := p.value;
      var moved := map c | c in s.v1 :: (c, t) := s.v1[c];
      e := Store(map[], s.v2 + moved);
      forall c | c in s.v1 ensures (c, t) in e.v2 && e.v2[(c, t)] == s.v1[c] {
        assert (c, t) in moved;
      }
    }
  }

  /** Moving one v1 entry leaves the conversion as it is, and the entry reads the same. */
  lemma MoveConverted(s: Store, p: Option<Address>, creator: Address, token: Address, e: Store)
    requires Unmigrated(s, p) && Converted(s, p, e)
    ensures Move(e, p, creator, token) == e
    ensures var m := Move(s, p, creator, token);
            && Unmigrated(m, p) && Converted(m, p, e)
            && (p == Some(token) ==> creator !in m.v1)
            && Get(m.v2, (creator, token), 0) == Get(e.v2, (creator, token), 0)
  {
  }

  function Written(s: Store, k: (Address, Address), v: int): Store {
    s.(v2 := s.v2[k := v])
  }

  /** Writing an entry that is not a v1 entry writes it in the conversion. */
  lemma WriteConverted(s: Store, p: Option<Address>, k: (Address, Address), v: int, e: Store)
    requires Unmigrated(s, p) && Converted(s, p, e)
    requires p == Some(k.1) ==> k.0 !in s.v1
    ensures Unmigrated(Written(s, k, v), p)
    ensures Converted(Written(s, k, v), p, Written(e, k, v))
  {
  }

  lemma TakeFromWrites(s: Store, p: Option<Address>, creator: Address, token: Address, request: Option<int>)
    ensures var m := Move(s, p, creator, token);
            var balance := Get(m.v2, (creator, token), 0);
            var amount := Requested(balance, request);
            TakeFrom(s, p, creator, token, request) ==
            if amount.Err? then Err(amount.error)
            else Ok((Written(m, (creator, token), balance - amount.value), amount.value))
  {
  }

  lemma AddToConverted(s: Store, p: Option<Address>, creator: Address, token: Address, amount: int, e: Store)
    requires Unmigrated(s, p) && Converted(s, p, e)
    ensures var r, q := AddTo(s, p, creator, token, amount), AddTo(e, p, creator, token, amount);
            if r.Err? then q == r else q.Ok? && Unmigrated(r.value, p) && Converted(r.value, p, q.value)
  {
    MoveConverted(s, p, creator, token, e);
    var m := Move(s, p, creator, token);
    WriteConverted(m, p, (creator, token), Get(m.v2, (creator, token), 0) + amount, e);
  }

  lemma TakeFromConverted(s: Store, p: Option<Address>, creator: Address, token: Address, request: Option<int>,
                          e: Store)
    requires Unmigrated(s, p) && Converted(s, p, e)
    ensures var r, q := TakeFrom(s, p, creator, token, request), TakeFrom(e, p, creator, token, request);
            if r.Err? then q == r
            else q.Ok? && q.value.1 == r.value.1 && Unmigrated(r.value.0, p) && Converted(r.value.0, p, q.value.0)
  {
    MoveConverted(s, p, creator, token, e);
    var m := Move(s, p, creator, token);
    var balance := Get(m.v2, (creator, token), 0);
    var amount := Requested(balance, request);
    if amount.Ok? {
      WriteConverted(m, p, (creator, token), balance - amount.value, e);
    }
    TakeFromWrites(s, p, creator, token, request);
    TakeFromWrites(e, p, creator, token, request);
  }

  // ------------------------------------------------------------------------- fees

  /** The v1 fee counter needs a v1 token and can be added to that token's fees. */
  ghost predicate UnmigratedFees(f: FeeStore, p: Option<Address>) {
    f.v1.Some? ==> p.Some? && FitsI128(Get(f.v2, p.value, 0) + f.v1.value)
  }

  ghost predicate ConvertedFees(f: FeeStore, p: Option<Address>, e: FeeStore) {
    && e.v1.None?
    && (f.v1.Some? ==> p.Some?)
    && e.v2 == if f.v1.None? then f.v2 else f.v2[p.value := Get(f.v2, p.value, 0) + f.v1.value]
  }

  lemma MigrateFeesConverted(f: FeeStore, p: Option<Address>, token: Address, e: FeeStore)
    requires UnmigratedFees(f, p) && ConvertedFees(f, p, e)
    ensures MigrateFees(e, p, token) == Ok(e)
    ensures var r := MigrateFees(f, p, token);
            && r.Ok? && UnmigratedFees(r.value, p) && ConvertedFees(r.value, p, e)
            && (p == Some(token) ==> r.value.v1.None?)
            && Get(r.value.v2, token, 0) == Get(e.v2, token, 0)
  {
  }

  lemma WriteFeesConverted(f: FeeStore, p: Option<Address>, token: Address, v: int, e: FeeStore)
    requires UnmigratedFees(f, p) && ConvertedFees(f, p, e) && (p == Some(token) ==> f.v1.None?)
    ensures UnmigratedFees(f.(v2 := f.v2[token := v]), p)
    ensures ConvertedFees(f.(v2 := f.v2[token := v]), p, e.(v2 := e.v2[token := v]))
  {
    if f.v1.Some? {
      var t := p.value;
      var sum := Get(f.v2, t, 0) + f.v1.value;
      assert f.v2[token := v][t := sum] == f.v2[t := sum][token := v];
    }
  }

  lemma AddFeeConverted(f: FeeStore, p: Option<Address>, token: Address, fee: int, e: FeeStore)
    requires UnmigratedFees(f, p) && ConvertedFees(f, p, e)
    ensures var r, q := AddFee(f, p, token, fee), AddFee(e, p, token, fee);
            if r.Err? then q == r else q.Ok? && UnmigratedFees(r.value, p) && ConvertedFees(r.value, p, q.value)
  {
    MigrateFeesConverted(f, p, token, e);
    var m := MigrateFees(f, p, token).value;
    WriteFeesConverted(m, p, token, Get(m.v2, token, 0) + fee, e);
  }

  lemma TakeFeesConverted(f: FeeStore, p: Option<Address>, token: Address, request: Option<int>, e: FeeStore)
    requires UnmigratedFees(f, p) && ConvertedFees(f, p, e)
    ensures var r, q := TakeFees(f, p, token, request), TakeFees(e, p, token, request);
            if r.Err? then q == r
            else q.Ok? && q.value.1 == r.value.1
                 && UnmigratedFees(r.value.0, p) && ConvertedFees(r.value.0, p, q.value.0)
  {
    MigrateFeesConverted(f, p, token, e);
    var m := MigrateFees(f, p, token).value;
    var balance := Get(m.v2, token, 0);
    WriteFeesConverted(m, p, token, balance - request.UnwrapOr(balance), e);
  }

  // ---------------------------------------------------------------------- accounts

  ghost predicate UnmigratedAccounts(a: Accounts, p: Option<Address>) {
    Unmigrated(a.balance, p) && Unmigrated(a.total, p) && UnmigratedFees(a.fees, p)
  }

  ghost predicate ConvertedAccounts(a: Accounts, p: Option<Address>, e: Accounts) {
    Converted(a.balance, p, e.balance) && Converted(a.total, p, e.total) && ConvertedFees(a.fees, p, e.fees)
  }

  ghost predicate Consistent(w: World) {
    && UnmigratedAccounts(w.acct, w.cfg.token)
    && (w.roles.admin.None? ==> w.cfg.token.None?)
  }

  /** `v` is the world `w` with all accounts converted up front. */
  ghost predicate ConvertedWorld(w: World, v: World) {
    v == w.(acct := v.acct) && ConvertedAccounts(w.acct, w.cfg.token, v.acct)
  }

  lemma WorldConversionExists(w: World) returns (v: World)
    requires Consistent(w)
    ensures ConvertedWorld(w, v)
  {
    var p := w.cfg.token;
    var balance := ConversionExists(w.acct.balance, p);
    var total := ConversionExists(w.acct.total, p);
    var f := w.acct.fees;
    var fees := FeeStore(None, if f.v1.None? then f.v2 else f.v2[p.value := Get(f.v2, p.value, 0) + f.v1.value]);
    v := w.(acct := Accounts(balance, total, fees));
  }

  lemma MigrateCreatorConverted(a: Accounts, p: Option<Address>, creator: Address, token: Address, e: Accounts)
    requires UnmigratedAccounts(a, p) && ConvertedAccounts(a, p, e)
    ensures MigrateCreator(e, p, creator, token) == e
    ensures var m := MigrateCreator(a, p, creator, token);
            && UnmigratedAccounts(m, p) && ConvertedAccounts(m, p, e)
            && (p == Some(token) ==> creator !in m.balance.v1)
            && Get(m.balance.v2, (creator, token), 0) == Get(e.balance.v2, (creator, token), 0)
            && Get(m.total.v2, (creator, token), 0) == Get(e.total.v2, (creator, token), 0)
  {
    MoveConverted(a.balance, p, creator, token, e.balance);
    MoveConverted(a.total, p, creator, token, e.total);
  }

  lemma CreditConverted(a: Accounts, p: Option<Address>, creator: Address, token: Address,
                        amount: int, fee: int, bps: nat, e: Accounts)
    requires UnmigratedAccounts(a, p) && ConvertedAccounts(a, p, e)
    ensures var r := Credit(a, p, creator, token, amount, fee, bps);
            var q := Credit(e, p, creator, token, amount, fee, bps);
            if r.Err? then q == r
            else q.Ok? && UnmigratedAccounts(r.value, p) && ConvertedAccounts(r.value, p, q.value)
  {
    AddToConverted(a.balance, p, creator, token, amount - fee, e.balance);
    AddToConverted(a.total, p, creator, token, amount, e.total);
    if bps != 0 {
      AddFeeConverted(a.fees, p, token, fee, e.fees);
    }
  }

  lemma DebitConverted(a: Accounts, p: Option<Address>, creator: Address, token: Address, request: Option<int>,
                       e: Accounts)
    requires UnmigratedAccounts(a, p) && ConvertedAccounts(a, p, e)
    ensures var r, q := Debit(a, p, creator, token, request), Debit(e, p, creator, token, request);
            if r.Err? then q == r
            else q.Ok? && q.value.1 == r.value.1
                 && UnmigratedAccounts(r.value.0, p) && ConvertedAccounts(r.value.0, p, q.value.0)
  {
    TakeFromConverted(a.balance, p, creator, token, request, e.balance);
    MoveConverted(a.total, p, creator, token, e.total);
  }

  // ------------------------------------------------------------------- entrypoints

  /** Both calls fail alike, or both succeed and leave worlds that convert to each other. */
  ghost predicate SameResult(r: Result<World>, q: Result<World>) {
    if r.Err? then q == r else q.Ok? && Consistent(r.value) && ConvertedWorld(r.value, q.value)
  }

  lemma TipConverted(jar: Address, w: World, env: Env, sender: Address, creator: Address, token: Address,
                     amount: int, v: World)
    requires Consistent(w) && ConvertedWorld(w, v)
    ensures SameResult(Tip(jar, w, env, sender, creator, token, amount),
                       Tip(jar, v, env, sender, creator, token, amount))
  {
    var bps := w.cfg.feeBps.UnwrapOr(0);
    var fee := FeeFor(amount, bps);
    if fee.Ok? {
      CreditConverted(w.acct, w.cfg.token, creator, token, amount, fee.value, bps, v.acct);
    }
  }

  lemma WithdrawConverted(jar: Address, w: World, env: Env, caller: Address, creator: Address, token: Address,
                          to: Address, request: Option<int>, v: World)
    requires Consistent(w) && ConvertedWorld(w, v)
    ensures SameResult(Withdraw(jar, w, env, caller, creator, token, to, request),
                       Withdraw(jar, v, env, caller, creator, token, to, request))
  {
    DebitConverted(w.acct, w.cfg.token, creator, token, request, v.acct);
  }

  lemma WithdrawFeesConverted(jar: Address, w: World, env: Env, caller: Address, token: Address,
                              request: Option<int>, v: World)
    requires Consistent(w) && ConvertedWorld(w, v)
    ensures SameResult(WithdrawFees(jar, w, env, caller, token, request),
                       WithdrawFees(jar, v, env, caller, token, request))
  {
    TakeFeesConverted(w.acct.fees, w.cfg.token, token, request, v.acct.fees);
  }

  lemma InitConverted(w: World, env: Env, token: Address, admin: Address, timelock: nat, v: World)
    requires Consistent(w) && ConvertedWorld(w, v)
    ensures SameResult(Initialize(w, env, token, admin, timelock), Initialize(v, env, token, admin, timelock))
  {
  }

  ghost predicate SameDone(r: Result<Done>, q: Result<Done>) {
    if r.Err? then q == r else
      q.Ok? && q.value.ret == r.value.ret && Consistent(r.value.world) && ConvertedWorld(r.value.world, q.value.world)
  }

  /** Role calls never unset the admin. */
  lemma RolesKeep(r: Roles, env: Env, c: RoleCall)
    ensures var s := RolesStep(r, env, c); s.Ok? && s.value.admin.None? ==> r.admin.None?
  {
  }

  /** Configuration calls never change the v1 token. */
  lemma ConfigKeep(w: World, env: Env, c: ConfigCall)
    ensures var r := ConfigStep(w.roles, w.cfg, env, c); r.Ok? ==> r.value.token == w.cfg.token
  {
  }

  lemma SettingsConverted(jar: Address, w: World, env: Env, call: Call, v: World)
    requires Consistent(w) && ConvertedWorld(w, v)
    requires call.OnRoles? || call.OnConfig? || call.OnBreaker? || call.OnPayouts? || call.Outside?
    ensures SameDone(Perform(jar, w, env, call), Perform(jar, v, env, call))
  {
    if call.OnRoles? {
      RolesKeep(w.roles, env, call.role);
    } else if call.OnConfig? {
      ConfigKeep(w, env, call.config);
    }
  }

  lemma GetterConverted(jar: Address, w: World, env: Env, call: Call, v: World)
    requires Consistent(w) && ConvertedWorld(w, v)
    requires call.GetTotalTips? || call.GetBalance? || call.GetFeeBalance?
    ensures SameDone(Perform(jar, w, env, call), Perform(jar, v, env, call))
  {
    if call.GetFeeBalance? {
      MigrateFeesConverted(w.acct.fees, w.cfg.token, call.token, v.acct.fees);
    } else {
      MigrateCreatorConverted(w.acct, w.cfg.token, call.creator, call.token, v.acct);
    }
  }

  lemma PerformConverted(jar: Address, w: World, env: Env, call: Call, v: World)
    requires Consistent(w) && ConvertedWorld(w, v)
    ensures SameDone(Perform(jar, w, env, call), Perform(jar, v, env, call))
  {
    match call
    case Init(token, admin, timelock) => InitConverted(w, env, token, admin, timelock, v);
    case DoTip(sender, creator, token, amount) => TipConverted(jar, w, env, sender, creator, token, amount, v);
    case DoWithdraw(caller, creator, token, to, request) =>
      WithdrawConverted(jar, w, env, caller, creator, token, to, request, v);
    case DoWithdrawFees(caller, token, request) => WithdrawFeesConverted(jar, w, env, caller, token, request, v);
    case TipLegacy(_, _, _) =>
    case WithdrawLegacy(_, _, _, _) =>
    case GetTotalTipsLegacy(_) =>
    case GetTotalTips(_, _) => GetterConverted(jar, w, env, call, v);
    case GetBalance(_, _) => GetterConverted(jar, w, env, call, v);
    case GetFeeBalance(_) => GetterConverted(jar, w, env, call, v);
    case _ => SettingsConverted(jar, w, env, call, v);
  }

  // ------------------------------------------------------------------------- runs

  /** One call: same error or same return value, and the worlds stay conversions of each other. */
  lemma LazyStepMatchesEager(jar: Address, w: World, env: Env, call: Call, v: World)
    requires Consistent(w) && ConvertedWorld(w, v)
    ensures SameDone(Exec(jar, w, env, call), Exec(jar, v, env, call))
  {
    var d := Delegate(w, call);
    assert Delegate(v, call) == d;
    if d.Ok? {
      PerformConverted(jar, w, env, d.value, v);
    }
  }

  /**
   Whole runs: started from a v1 storage and from its conversion, the same steps
   give the same answers, and the worlds stay conversions of each other.
   */
  lemma {:induction false} LazyRunMatchesEager(jar: Address, lazy: Run, eager: Run, i: nat)
    requires IsRun(jar, lazy) && IsRun(jar, eager) && lazy.steps == eager.steps
    requires Consistent(lazy.states[0]) && ConvertedWorld(lazy.states[0], eager.states[0])
    requires i <= |lazy.steps|
    ensures Consistent(lazy.states[i]) && ConvertedWorld(lazy.states[i], eager.states[i])
    ensures forall j :: 0 <= j < i ==>
              SameDone(Exec(jar, lazy.states[j], lazy.steps[j].env, lazy.steps[j].call),
                       Exec(jar, eager.states[j], eager.steps[j].env, eager.steps[j].call))
  {
    if i > 0 {
      LazyRunMatchesEager(jar, lazy, eager, i - 1);
      var step := lazy.steps[i - 1];
      LazyStepMatchesEager(jar, lazy.states[i - 1], step.env, step.call, eager.states[i - 1]);
    }
  }
}
