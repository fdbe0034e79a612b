/**
 Escrow accounting of the TipJar: what each call does to the amounts anyone can
 read, and that the jar always holds what it owes.
 */
module TipJarSolvency {
  import opened Host
  import opened TipJar
  import opened TipJarMigration

  // ---------------------------------------------------------- one kind of amount

  /** The amount of (creator, token), whichever storage format holds it. */
  function Read(s: Store, p: Option<Address>, creator: Address, token: Address): int {
    if p == Some(token) && creator in s.v1 then s.v1[creator] else Get(s.v2, (creator, token), 0)
  }

  ghost function OfToken(book: Book, token: Address): Book {
    map k | k in book && k.1 == token :: book[k]
  }

  /** Everything recorded in `token`, in both storage formats. */
  ghost function SumIn(s: Store, p: Option<Address>, token: Address): int {
    Sum(OfToken(s.v2, token)) + if p == Some(token) then Sum(s.v1) else 0
  }

  /** `r` differs from `s` by `d` at (creator, token) and nowhere else. */
  ghost predicate Changed(s: Store, r: Store, p: Option<Address>, creator: Address, token: Address, d: int) {
    forall c, t :: Read(r, p, c, t) == Read(s, p, c, t) + if c == creator && t == token then d else 0
  }

  ghost predicate SumChanged(s: Store, r: Store, p: Option<Address>, token: Address, d: int) {
    forall t :: SumIn(r, p, t) == SumIn(s, p, t) + if t == token then d else 0
  }

  lemma MoveReads(s: Store, p: Option<Address>, creator: Address, token: Address)
    requires Unmigrated(s, p)
    ensures var m := Move(s, p, creator, token);
            Unmigrated(m, p) && Changed(s, m, p, creator, token, 0) && (p == Some(token) ==> creator !in m.v1)
  {
  }

  lemma WriteReads(s: Store, p: Option<Address>, creator: Address, token: Address, v: int)
    requires Unmigrated(s, p) && (p == Some(token) ==> creator !in s.v1)
    ensures var w := s.(v2 := s.v2[(creator, token) := v]);
            Unmigrated(w, p) && Changed(s, w, p, creator, token, v - Read(s, p, creator, token))
  {
  }

  lemma WriteSum(s: Store, p: Option<Address>, creator: Address, token: Address, v: int, t: Address)
    ensures SumIn(s.(v2 := s.v2[(creator, token) := v]), p, t) ==
            SumIn(s, p, t) + if t == token then v - Get(s.v2, (creator, token), 0) else 0
  {
    var w := s.v2[(creator, token) := v];
    if t == token {
      SumUpdate(OfToken(s.v2, t), (creator, token), v);
      assert OfToken(w, t) == OfToken(s.v2, t)[(creator, token) := v];
    } else {
      assert OfToken(w, t) == OfToken(s.v2, t);
    }
  }

  lemma MoveSum(s: Store, p: Option<Address>, creator: Address, token: Address, t: Address)
    requires Unmigrated(s, p)
    ensures SumIn(Move(s, p, creator, token), p, t) == SumIn(s, p, t)
  {
    if p == Some(token) && creator in s.v1 {
      WriteSum(s, p, creator, token, s.v1[creator], t);
      SumRemove(s.v1, creator);
    }
  }

  /** The store with one entry migrated and then changed by `d`. */
  function Rewritten(s: Store, p: Option<Address>, creator: Address, token: Address, d: int): Store {
    var m := Move(s, p, creator, token);
    m.(v2 := m.v2[(creator, token) := Get(m.v2, (creator, token), 0) + d])
  }

  lemma RewriteReads(s: Store, p: Option<Address>, creator: Address, token: Address, d: int)
    requires Unmigrated(s, p)
    ensures var r := Rewritten(s, p, creator, token, d); Unmigrated(r, p) && Changed(s, r, p, creator, token, d)
    ensures Get(Move(s, p, creator, token).v2, (creator, token), 0) == Read(s, p, creator, token)
  {
    MoveReads(s, p, creator, token);
    var m := Move(s, p, creator, token);
    assert Read(m, p, creator, token) == Read(s, p, creator, token);
    WriteReads(m, p, creator, token, Read(m, p, creator, token) + d);
  }

  lemma RewriteSum(s: Store, p: Option<Address>, creator: Address, token: Address, d: int)
    requires Unmigrated(s, p)
    ensures SumChanged(s, Rewritten(s, p, creator, token, d), p, token, d)
  {
    var m, r := Move(s, p, creator, token), Rewritten(s, p, creator, token, d);
    forall t ensures SumIn(r, p, t) == SumIn(s, p, t) + if t == token then d else 0 {
      MoveSum(s, p, creator, token, t);
      WriteSum(m, p, creator, token, Get(m.v2, (creator, token), 0) + d, t);
    }
  }

  lemma AddToEffect(s: Store, p: Option<Address>, creator: Address, token: Address, amount: int, r: Store)
    requires Unmigrated(s, p) && AddTo(s, p, creator, token, amount) == Ok(r)
    ensures Unmigrated(r, p) && Changed(s, r, p, creator, token, amount) && SumChanged(s, r, p, token, amount)
  {
    RewriteReads(s, p, creator, token, amount);
    RewriteSum(s, p, creator, token, amount);
    assert r == Rewritten(s, p, creator, token, amount);
  }

  lemma TakeFromEffect(s: Store, p: Option<Address>, creator: Address, token: Address, request: Option<int>)
    requires Unmigrated(s, p)
    ensures var r := TakeFrom(s, p, creator, token, request); r.Ok? ==>
              && Unmigrated(r.value.0, p)
              && r.value.1 == request.UnwrapOr(Read(s, p, creator, token))
              && 0 < r.value.1 <= Read(s, p, creator, token)
              && Changed(s, r.value.0, p, creator, token, -r.value.1) && SumChanged(s, r.value.0, p, token, -r.value.1)
  {
    var amount := request.UnwrapOr(Read(s, p, creator, token));
    RewriteReads(s, p, creator, token, -amount);
    RewriteSum(s, p, creator, token, -amount);
    var r := TakeFrom(s, p, creator, token, request);
    assert r.Ok? ==> r.value == (Rewritten(s, p, creator, token, -amount), amount);
  }

  // ------------------------------------------------------------------------- fees

  function ReadFees(f: FeeStore, p: Option<Address>, token: Address): int {
    Get(f.v2, token, 0) + if p == Some(token) then f.v1.UnwrapOr(0) else 0
  }

  ghost predicate FeesChanged(f: FeeStore, r: FeeStore, p: Option<Address>, token: Address, d: int) {
    forall t :: ReadFees(r, p, t) == ReadFees(f, p, t) + if t == token then d else 0
  }

  lemma AddFeeEffect(f: FeeStore, p: Option<Address>, token: Address, fee: int)
    requires UnmigratedFees(f, p)
    ensures var r := AddFee(f, p, token, fee);
            r.Ok? ==> UnmigratedFees(r.value, p) && FeesChanged(f, r.value, p, token, fee)
  {
  }

  lemma TakeFeesEffect(f: FeeStore, p: Option<Address>, token: Address, request: Option<int>)
    requires UnmigratedFees(f, p)
    ensures var r := TakeFees(f, p, token, request); r.Ok? ==>
              && UnmigratedFees(r.value.0, p)
              && r.value.1 == request.UnwrapOr(ReadFees(f, p, token)) && 0 < r.value.1 <= ReadFees(f, p, token)
              && FeesChanged(f, r.value.0, p, token, -r.value.1)
  {
  }

  lemma MigrateFeesEffect(f: FeeStore, p: Option<Address>, token: Address)
    requires UnmigratedFees(f, p)
    ensures var r := MigrateFees(f, p, token);
            r.Ok? && UnmigratedFees(r.value, p) && FeesChanged(f, r.value, p, token, 0)
  {
  }

  // --------------------------------------------------------------------- invariant

  /** No creator is owed more than was ever tipped to them, and nothing is negative. */
  ghost predicate Bounded(a: Accounts, p: Option<Address>) {
    && (forall c, t :: 0 <= Read(a.balance, p, c, t) <= Read(a.total, p, c, t))
    && (forall t :: 0 <= ReadFees(a.fees, p, t))
  }

  /** Holds of empty storage and of any well-formed v1 storage, and is kept by every call. */
  ghost predicate Good(w: World) {
    && Consistent(w)
    && Bounded(w.acct, w.cfg.token)
    && w.cfg.feeBps.UnwrapOr(0) <= MAX_FEE_BPS
  }

  /** Everything the jar owes in `token`: creators' balances in both formats, and fees in both. */
  ghost function Owed(a: Accounts, p: Option<Address>, token: Address): int {
    SumIn(a.balance, p, token) + ReadFees(a.fees, p, token)
  }

  /** What the jar holds in `token` beyond what it owes. */
  ghost function Slack(jar: Address, w: World, token: Address): int {
    Held(w.tokens, token, jar) - Owed(w.acct, w.cfg.token, token)
  }

  /** What one call does to the accounts, and what the jar gains without owing it. */
  datatype Entry = Entry(creator: Address, token: Address, balance: int, total: int, fee: int)

  ghost predicate Booked(a: Accounts, b: Accounts, p: Option<Address>, e: Entry) {
    && Changed(a.balance, b.balance, p, e.creator, e.token, e.balance)
    && Changed(a.total, b.total, p, e.creator, e.token, e.total)
    && FeesChanged(a.fees, b.fees, p, e.token, e.fee)
    && SumChanged(a.balance, b.balance, p, e.token, e.balance)
  }

  lemma BoundedKept(a: Accounts, b: Accounts, p: Option<Address>, e: Entry)
    requires Bounded(a, p) && Booked(a, b, p, e)
    requires e.balance <= e.total && 0 <= Read(a.balance, p, e.creator, e.token) + e.balance
    requires 0 <= ReadFees(a.fees, p, e.token) + e.fee
    ensures Bounded(b, p)
  {
  }

  // ------------------------------------------------------------------- entrypoints

  lemma ShareSign(amount: int, bps: nat)
    ensures amount >= 0 ==> 0 <= amount * bps
    ensures amount <= 0 ==> amount * bps <= 0
    ensures amount >= 0 && bps <= MAX_FEE_BPS ==> amount * bps <= amount * MAX_FEE_BPS
  {
  }

  /**
   Fee and net add up to any amount at any rate; the fee is the exact share, cut
   toward zero. At the rates that can be set, a tip's fee is at most a ninth of
   its net.
   */
  lemma FeeSplit(amount: int, bps: nat)
    ensures PreviewFee(amount, bps).Ok? <==> bps == 0 || FitsI128(amount * bps)
    ensures PreviewFee(amount, bps).Ok? ==>
              var (fee, net) := PreviewFee(amount, bps).value;
              && fee + net == amount
              && (amount >= 0 ==> 0 <= fee && fee * BPS_DENOMINATOR <= amount * bps < (fee + 1) * BPS_DENOMINATOR)
              && (amount <= 0 ==> fee <= 0 && (fee - 1) * BPS_DENOMINATOR < amount * bps <= fee * BPS_DENOMINATOR)
              && (amount > 0 && bps <= MAX_FEE_BPS ==> 9 * fee <= net)
  {
    ShareSign(amount, bps);
  }

  lemma BookedAll(a: Accounts, b: Accounts, p: Option<Address>, e: Entry)
    requires Changed(a.balance, b.balance, p, e.creator, e.token, e.balance)
    requires SumChanged(a.balance, b.balance, p, e.token, e.balance)
    requires Changed(a.total, b.total, p, e.creator, e.token, e.total) && FeesChanged(a.fees, b.fees, p, e.token, e.fee)
    ensures Booked(a, b, p, e)
  {
  }

  lemma CreditAmounts(a: Accounts, p: Option<Address>, creator: Address, token: Address, amount: int, fee: int,
                      bps: nat, b: Accounts)
    requires UnmigratedAccounts(a, p) && Credit(a, p, creator, token, amount, fee, bps) == Ok(b)
    ensures Unmigrated(b.balance, p) && Changed(a.balance, b.balance, p, creator, token, amount - fee)
    ensures Unmigrated(b.total, p) && Changed(a.total, b.total, p, creator, token, amount)
    ensures SumChanged(a.balance, b.balance, p, token, amount - fee)
  {
    AddToEffect(a.balance, p, creator, token, amount - fee, b.balance);
    AddToEffect(a.total, p, creator, token, amount, b.total);
  }

  lemma CreditFees(a: Accounts, p: Option<Address>, creator: Address, token: Address, amount: int, fee: int, bps: nat,
                   b: Accounts)
    requires UnmigratedFees(a.fees, p) && (bps == 0 ==> fee == 0)
    requires Credit(a, p, creator, token, amount, fee, bps) == Ok(b)
    ensures UnmigratedFees(b.fees, p) && FeesChanged(a.fees, b.fees, p, token, fee)
  {
    if bps != 0 {
      AddFeeEffect(a.fees, p, token, fee);
    }
  }

  lemma CreditEffect(a: Accounts, p: Option<Address>, creator: Address, token: Address, amount: int, fee: int, bps: nat,
                     b: Accounts)
    requires UnmigratedAccounts(a, p) && (bps == 0 ==> fee == 0)
    requires Credit(a, p, creator, token, amount, fee, bps) == Ok(b)
    ensures UnmigratedAccounts(b, p) && Booked(a, b, p, Entry(creator, token, amount - fee, amount, fee))
  {
    CreditAmounts(a, p, creator, token, amount, fee, bps, b);
    CreditFees(a, p, creator, token, amount, fee, bps, b);
    BookedAll(a, b, p, Entry(creator, token, amount - fee, amount, fee));
  }

  /** A tip books the net amount, the gross total and the fee, and moves exactly `amount` out of the sender. */
  lemma TipEffect(jar: Address, w: World, env: Env, sender: Address, creator: Address, token: Address, amount: int)
    requires Good(w)
    ensures var r := Tip(jar, w, env, sender, creator, token, amount); r.Ok? ==>
              var fee := FeeFor(amount, w.cfg.feeBps.UnwrapOr(0)).value;
              && Good(r.value) && 0 <= fee <= amount
              && Booked(w.acct, r.value.acct, w.cfg.token, Entry(creator, token, amount - fee, amount, fee))
              && r.value == w.(acct := r.value.acct, tokens := r.value.tokens)
              && (sender != jar ==> Held(r.value.tokens, token, sender) == Held(w.tokens, token, sender) - amount)
              && (forall t :: Held(r.value.tokens, t, jar) ==
                    Held(w.tokens, t, jar) + if t == token && sender != jar then amount else 0)
  {
    var r := Tip(jar, w, env, sender, creator, token, amount);
    if r.Ok? {
      var bps := w.cfg.feeBps.UnwrapOr(0);
      FeeSplit(amount, bps);
      var fee := FeeFor(amount, bps).value;
      CreditEffect(w.acct, w.cfg.token, creator, token, amount, fee, bps, r.value.acct);
      BoundedKept(w.acct, r.value.acct, w.cfg.token, Entry(creator, token, amount - fee, amount, fee));
    }
  }

  /** The accounts of a withdrawal: one balance falls, and nothing else reads differently. */
  lemma DebitEffect(a: Accounts, p: Option<Address>, creator: Address, token: Address, request: Option<int>)
    requires UnmigratedAccounts(a, p) && Bounded(a, p)
    ensures var r := Debit(a, p, creator, token, request); r.Ok? ==>
              var amount := request.UnwrapOr(Read(a.balance, p, creator, token));
              && r.value.1 == amount && 0 < amount <= Read(a.balance, p, creator, token)
              && UnmigratedAccounts(r.value.0, p) && Bounded(r.value.0, p)
              && Booked(a, r.value.0, p, Entry(creator, token, -amount, 0, 0))
  {
    var r := Debit(a, p, creator, token, request);
    if r.Ok? {
      TakeFromEffect(a.balance, p, creator, token, request);
      MoveReads(a.total, p, creator, token);
      var b := r.value.0;
      var e := Entry(creator, token, -r.value.1, 0, 0);
      assert FeesChanged(a.fees, b.fees, p, token, 0);
      BoundedKept(a, b, p, e);
    }
  }

  lemma PayOutEffect(jar: Address, p: Payouts, held: TokenLedger, env: Env, caller: Address, creator: Address,
                     token: Address, to: Address, amount: int)
    ensures var r := PayOut(jar, p, held, env, caller, creator, token, to, amount); r.Ok? ==>
              && (to != jar ==> Held(r.value.1, token, to) == Held(held, token, to) + amount)
              && (forall t :: Held(r.value.1, t, jar) ==
                    Held(held, t, jar) - if t == token && to != jar then amount else 0)
  {
  }

  /** A withdrawal takes `amount` off one balance and pays exactly that to the payout address. */
  lemma WithdrawEffect(jar: Address, w: World, env: Env, caller: Address, creator: Address, token: Address,
                       to: Address, request: Option<int>)
    requires Good(w)
    ensures var r := Withdraw(jar, w, env, caller, creator, token, to, request); r.Ok? ==>
              var amount := request.UnwrapOr(Read(w.acct.balance, w.cfg.token, creator, token));
              && Good(r.value) && 0 < amount <= Read(w.acct.balance, w.cfg.token, creator, token)
              && Booked(w.acct, r.value.acct, w.cfg.token, Entry(creator, token, -amount, 0, 0))
              && r.value == w.(acct := r.value.acct, payouts := r.value.payouts, tokens := r.value.tokens)
              && (to != jar ==> Held(r.value.tokens, token, to) == Held(w.tokens, token, to) + amount)
              && (forall t :: Held(r.value.tokens, t, jar) ==
                    Held(w.tokens, t, jar) - if t == token && to != jar then amount else 0)
  {
    var r := Withdraw(jar, w, env, caller, creator, token, to, request);
    if r.Ok? {
      var amount := Debit(w.acct, w.cfg.token, creator, token, request).value.1;
      DebitEffect(w.acct, w.cfg.token, creator, token, request);
      PayOutEffect(jar, w.payouts, w.tokens, env, caller, creator, token, to, amount);
    }
  }

  /** A fee withdrawal pays the collector out of that token's fees and touches no creator. */
  lemma WithdrawFeesEffect(jar: Address, w: World, env: Env, caller: Address, token: Address, request: Option<int>)
    requires Good(w)
    ensures var r := WithdrawFees(jar, w, env, caller, token, request); r.Ok? ==>
              var amount := request.UnwrapOr(ReadFees(w.acct.fees, w.cfg.token, token));
              && Good(r.value) && 0 < amount <= ReadFees(w.acct.fees, w.cfg.token, token)
              && w.roles.collector == Some(caller)
              && Booked(w.acct, r.value.acct, w.cfg.token, Entry(caller, token, 0, 0, -amount))
              && r.value == w.(acct := r.value.acct, tokens := r.value.tokens)
              && (caller != jar ==> Held(r.value.tokens, token, caller) == Held(w.tokens, token, caller) + amount)
              && (forall t :: Held(r.value.tokens, t, jar) ==
                    Held(w.tokens, t, jar) - if t == token && caller != jar then amount else 0)
  {
    var r := WithdrawFees(jar, w, env, caller, token, request);
    if r.Ok? {
      var p := w.cfg.token;
      TakeFeesEffect(w.acct.fees, p, token, request);
      var amount := request.UnwrapOr(ReadFees(w.acct.fees, p, token));
      BoundedKept(w.acct, r.value.acct, p, Entry(caller, token, 0, 0, -amount));
    }
  }

  // -------------------------------------------------------------------- one step

  /** The entry a successful call books. */
  function EntryOf(w: World, call: Call): Entry {
    match call
    case DoTip(_, creator, token, amount) =>
      var f := FeeFor(amount, w.cfg.feeBps.UnwrapOr(0));
      var fee := if f.Ok? then f.value else 0;
      Entry(creator, token, amount - fee, amount, fee)
    case DoWithdraw(_, creator, token, _, request) =>
      Entry(creator, token, -request.UnwrapOr(Read(w.acct.balance, w.cfg.token, creator, token)), 0, 0)
    case DoWithdrawFees(caller, token, request) =>
      Entry(caller, token, 0, 0, -request.UnwrapOr(ReadFees(w.acct.fees, w.cfg.token, token)))
    case GetTotalTips(creator, token) => Entry(creator, token, 0, 0, 0)
    case GetBalance(creator, token) => Entry(creator, token, 0, 0, 0)
    case GetFeeBalance(token) => Entry(token, token, 0, 0, 0)
    case _ => Entry(Address(0), Address(0), 0, 0, 0)
  }

  /** Tokens the jar gains without owing them: a gift, or a payout that names the jar itself. */
  function Windfall(jar: Address, w: World, call: Call, token: Address): int {
    match call
    case Outside(t, holder, newBalance) =>
      if t == token && holder == jar then newBalance - Held(w.tokens, token, jar) else 0
    case DoWithdraw(_, creator, t, to, request) =>
      if t == token && to == jar then request.UnwrapOr(Read(w.acct.balance, w.cfg.token, creator, t)) else 0
    case _ => 0
  }

  lemma GetterEffect(jar: Address, w: World, env: Env, call: Call)
    requires Good(w)
    requires call.GetTotalTips? || call.GetBalance? || call.GetFeeBalance?
    ensures var r := Perform(jar, w, env, call);
            && r.Ok? && Good(r.value.world) && r.value.world == w.(acct := r.value.world.acct)
            && Booked(w.acct, r.value.world.acct, w.cfg.token, EntryOf(w, call))
  {
    var p := w.cfg.token;
    var after := Perform(jar, w, env, call).value.world.acct;
    if call.GetFeeBalance? {
      MigrateFeesEffect(w.acct.fees, p, call.token);
    } else {
      MoveReads(w.acct.balance, p, call.creator, call.token);
      MoveReads(w.acct.total, p, call.creator, call.token);
      forall t ensures SumIn(after.balance, p, t) == SumIn(w.acct.balance, p, t) {
        MoveSum(w.acct.balance, p, call.creator, call.token, t);
      }
    }
    BoundedKept(w.acct, after, p, EntryOf(w, call));
  }

  /** Getters return what anyone can compute from either storage format. */
  lemma GettersRead(jar: Address, w: World, env: Env, creator: Address, token: Address)
    requires Good(w)
    ensures Perform(jar, w, env, GetBalance(creator, token)).value.ret ==
            Read(w.acct.balance, w.cfg.token, creator, token)
    ensures Perform(jar, w, env, GetTotalTips(creator, token)).value.ret ==
            Read(w.acct.total, w.cfg.token, creator, token)
    ensures Perform(jar, w, env, GetFeeBalance(token)).value.ret == ReadFees(w.acct.fees, w.cfg.token, token)
  {
    MoveReads(w.acct.balance, w.cfg.token, creator, token);
    MoveReads(w.acct.total, w.cfg.token, creator, token);
    MigrateFeesEffect(w.acct.fees, w.cfg.token, token);
  }

  lemma InitEffect(w: World, env: Env, token: Address, admin: Address, timelock: nat)
    requires Good(w)
    ensures var r := Initialize(w, env, token, admin, timelock); r.Ok? ==>
              && Good(r.value) && r.value.acct == w.acct && r.value.tokens == w.tokens
              && Booked(w.acct, w.acct, r.value.cfg.token, Entry(Address(0), Address(0), 0, 0, 0))
              && (forall c, t :: Read(w.acct.total, r.value.cfg.token, c, t) == Read(w.acct.total, w.cfg.token, c, t))
              && (forall t :: Owed(w.acct, r.value.cfg.token, t) == Owed(w.acct, w.cfg.token, t))
  {
    var r := Initialize(w, env, token, admin, timelock);
    if r.Ok? {
      var p := r.value.cfg.token;
      forall c, t ensures Read(w.acct.balance, p, c, t) == Read(w.acct.balance, w.cfg.token, c, t)
                  ensures Read(w.acct.total, p, c, t) == Read(w.acct.total, w.cfg.token, c, t) {
      }
      forall t ensures Owed(w.acct, p, t) == Owed(w.acct, w.cfg.token, t) {
        assert Sum(w.acct.balance.v1) == 0;
      }
      assert forall t :: ReadFees(w.acct.fees, p, t) == ReadFees(w.acct.fees, w.cfg.token, t);
    }
  }

  /** Role, pause, payout and configuration calls keep the invariant and move no money. */
  lemma SettingsEffect(jar: Address, w: World, env: Env, call: Call)
    requires Good(w)
    requires call.OnRoles? || call.OnBreaker? || call.OnPayouts? || call.OnConfig?
    ensures var r := Perform(jar, w, env, call); r.Ok? ==>
              && Good(r.value.world) && r.value.world.acct == w.acct
              && r.value.world.tokens == w.tokens && r.value.world.cfg.token == w.cfg.token
  {
  }

  /** What the jar holds beyond what it owes changes by the windfall alone, and totals never fall. */
  ghost predicate Conserves(jar: Address, w: World, v: World, call: Call) {
    && Good(v)
    && (forall t :: Slack(jar, v, t) == Slack(jar, w, t) + Windfall(jar, w, call, t))
    && (forall t :: Windfall(jar, w, call, t) >= 0)
    && (forall c, t :: Read(w.acct.total, w.cfg.token, c, t) <= Read(v.acct.total, v.cfg.token, c, t))
  }

  lemma BookedConserves(jar: Address, w: World, v: World, call: Call)
    requires Good(v) && v.cfg.token == w.cfg.token
    requires var e := EntryOf(w, call);
             && Booked(w.acct, v.acct, w.cfg.token, e) && 0 <= e.total
             && (forall t :: Held(v.tokens, t, jar) == Held(w.tokens, t, jar)
                   + (if t == e.token then e.balance + e.fee else 0) + Windfall(jar, w, call, t))
    requires forall t :: Windfall(jar, w, call, t) >= 0
    ensures Conserves(jar, w, v, call)
  {
  }

  lemma MoneyConserves(jar: Address, w: World, env: Env, call: Call)
    requires Good(w) && jar !in env.auth
    requires call.DoTip? || call.DoWithdraw? || call.DoWithdrawFees?
    ensures var r := Perform(jar, w, env, call); r.Ok? ==> Conserves(jar, w, r.value.world, call)
  {
    var r := Perform(jar, w, env, call);
    if r.Ok? {
      match call
      case DoTip(sender, creator, token, amount) => TipEffect(jar, w, env, sender, creator, token, amount);
      case DoWithdraw(caller, creator, token, to, request) =>
        WithdrawEffect(jar, w, env, caller, creator, token, to, request);
      case DoWithdrawFees(caller, token, request) => WithdrawFeesEffect(jar, w, env, caller, token, request);
      BookedConserves(jar, w, r.value.world, call);
    }
  }

  /** Every successful call conserves each token exactly. */
  lemma PerformConserves(jar: Address, w: World, env: Env, call: Call)
    requires Good(w) && jar !in env.auth
    ensures var r := Perform(jar, w, env, call); r.Ok? ==> Conserves(jar, w, r.value.world, call)
  {
    var r := Perform(jar, w, env, call);
    if call.DoTip? || call.DoWithdraw? || call.DoWithdrawFees? {
      MoneyConserves(jar, w, env, call);
    } else if call.GetTotalTips? || call.GetBalance? || call.GetFeeBalance? {
      GetterEffect(jar, w, env, call);
      BookedConserves(jar, w, r.value.world, call);
    } else if call.Init? {
      InitEffect(w, env, call.token, call.admin, call.timelock);
    } else if call.OnRoles? || call.OnBreaker? || call.OnPayouts? || call.OnConfig? {
      SettingsEffect(jar, w, env, call);
    }
  }

  /** Tipping from the jar itself would break solvency, which is why a run excludes the jar's authorisation. */
  lemma SelfTipLosesSlack(jar: Address, w: World, env: Env, creator: Address, token: Address, amount: int)
    requires Good(w)
    ensures var r := Tip(jar, w, env, jar, creator, token, amount);
            r.Ok? ==> Slack(jar, r.value, token) == Slack(jar, w, token) - amount
  {
    TipEffect(jar, w, env, jar, creator, token, amount);
  }

  // ------------------------------------------------------------------------- runs

  /** The windfall of the first `i` steps of a run, in one token. */
  ghost function Windfalls(jar: Address, r: Run, token: Address, i: nat): int
    requires i <= |r.steps| && i <= |r.states|
  {
    if i == 0 then 0 else
      Windfalls(jar, r, token, i - 1)
      + if r.Ok(jar, i - 1) then Windfall(jar, r.states[i - 1], r.Performed(i - 1), token) else 0
  }

  lemma StepConserves(jar: Address, r: Run, i: nat)
    requires IsRun(jar, r) && i < |r.steps| && Good(r.states[i])
    ensures Good(r.states[i + 1])
    ensures if r.Ok(jar, i) then Conserves(jar, r.states[i], r.states[i + 1], r.Performed(i))
            else r.states[i + 1] == r.states[i]
  {
    if r.Ok(jar, i) {
      PerformConserves(jar, r.states[i], r.steps[i].env, r.Performed(i));
    }
  }

  lemma {:induction false} RunConserves(jar: Address, r: Run, token: Address, i: nat)
    requires IsRun(jar, r) && Good(r.states[0]) && i <= |r.steps|
    ensures Good(r.states[i])
    ensures Slack(jar, r.states[i], token) == Slack(jar, r.states[0], token) + Windfalls(jar, r, token, i)
    ensures 0 <= Windfalls(jar, r, token, i)
  {
    if i > 0 {
      RunConserves(jar, r, token, i - 1);
      StepConserves(jar, r, i - 1);
    }
  }

  /**
   Solvency over every run: if the jar holds what it owes at the start, it holds
   what it owes, in every token and both storage formats, at every later point.
   */
  lemma Solvency(jar: Address, r: Run, i: nat)
    requires IsRun(jar, r) && Good(r.states[0]) && i <= |r.steps|
    requires forall t :: Owed(r.states[0].acct, r.states[0].cfg.token, t) <= Held(r.states[0].tokens, t, jar)
    ensures forall t :: Owed(r.states[i].acct, r.states[i].cfg.token, t) <= Held(r.states[i].tokens, t, jar)
  {
    forall t ensures Owed(r.states[i].acct, r.states[i].cfg.token, t) <= Held(r.states[i].tokens, t, jar) {
      RunConserves(jar, r, t, i);
      assert Slack(jar, r.states[0], t) >= 0;
    }
  }

  /** The accounts of a fresh contract are in order, and it owes nothing. */
  lemma EmptyStorageIsGood(jar: Address, tokens: TokenLedger)
    ensures Good(EMPTY_STORAGE.(tokens := tokens))
    ensures forall t :: Owed(EMPTY_STORAGE.acct, None, t) == 0
  {
    forall t ensures Owed(EMPTY_STORAGE.acct, None, t) == 0 {
      assert OfToken(map[], t) == map[];
    }
  }

  /** Over any stretch of a run: totals never fall, and a balance stays within its total. */
  lemma {:induction false} TotalsNeverFall(jar: Address, r: Run, i: nat, j: nat, c: Address, t: Address)
    requires IsRun(jar, r) && Good(r.states[0]) && i <= j <= |r.steps|
    ensures var u, v := r.states[i], r.states[j];
            && Read(u.acct.total, u.cfg.token, c, t) <= Read(v.acct.total, v.cfg.token, c, t)
            && 0 <= Read(v.acct.balance, v.cfg.token, c, t) <= Read(v.acct.total, v.cfg.token, c, t)
    decreases j
  {
    RunConserves(jar, r, t, j);
    if i < j {
      TotalsNeverFall(jar, r, i, j - 1, c, t);
      RunConserves(jar, r, t, j - 1);
      StepConserves(jar, r, j - 1);
    }
  }
}
