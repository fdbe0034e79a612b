/**
 Operator allowances over whole runs of the TipJar: whatever an operator takes
 is charged to one authorisation by the creator, and never exceeds it.
 */
module TipJarOperators {
  import opened Host
  import opened TipJar

  /** What a step of a run means for one (creator, operator) pair. */
  datatype Event =
    | Granted(amount: int, expiry: nat)
    | Revoked
    | Spent(amount: int, ledger: nat)
    | Nothing

  function After(s: Option<Allowance>, e: Event): Option<Allowance> {
    match e
    case Granted(amount, expiry) => Some(Allowance(amount, expiry))
    case Revoked => None
    case Spent(amount, _) =>
      if s.None? || s.value.amount == amount then None else Some(s.value.(amount := s.value.amount - amount))
    case Nothing => s
  }

  /** What the contract checks before an operator's withdrawal. */
  predicate Legal(s: Option<Allowance>, e: Event) {
    e.Spent? ==> s.Some? && 0 < e.amount <= s.value.amount && e.ledger <= s.value.expiry
  }

  function SpentBetween(es: seq<Event>, i: nat, j: nat): int
    requires i <= j <= |es|
  {
    if i == j then 0 else SpentBetween(es, i, j - 1) + if es[j - 1].Spent? then es[j - 1].amount else 0
  }

  /** Before point `i`, the grant made at `j` is the one in use. */
  ghost predicate InUse(es: seq<Event>, i: int, j: int) {
    0 <= j < i <= |es| && es[j].Granted? && forall m :: j < m < i ==> !es[m].Granted? && !es[m].Revoked?
  }

  ghost predicate Follows(ss: seq<Option<Allowance>>, es: seq<Event>) {
    && |ss| == |es| + 1 && ss[0].None?
    && forall i :: 0 <= i < |es| ==> ss[i + 1] == After(ss[i], es[i]) && Legal(ss[i], es[i])
  }

  /** What is left of a stored allowance is what was granted, at the grant in use, less everything spent since. */
  lemma {:induction false} AllowanceExplained(ss: seq<Option<Allowance>>, es: seq<Event>, i: nat) returns (j: nat)
    requires Follows(ss, es) && i <= |es| && ss[i].Some?
    ensures InUse(es, i, j) && ss[i].value.expiry == es[j].expiry
    ensures ss[i].value.amount + SpentBetween(es, j + 1, i) == es[j].amount
  {
    if es[i - 1].Granted? {
      j := i - 1;
      assert SpentBetween(es, i, i) == 0;
    } else {
      j := AllowanceExplained(ss, es, i - 1);
    }
  }

  // ------------------------------------------------------------------------- runs

  function AllowanceOf(p: Payouts, c: Address, o: Address): Option<Allowance> {
    if (c, o) in p.operator then Some(p.operator[(c, o)]) else None
  }

  /** The amount a withdrawal takes out of the escrow. */
  function Taken(w: World, call: Call): int
    requires call.DoWithdraw?
  {
    var r := TakeFrom(w.acct.balance, w.cfg.token, call.creator, call.token, call.request);
    if r.Ok? then r.value.1 else 0
  }

  function CallEvent(w: World, env: Env, call: Call, c: Address, o: Address): Event {
    match call
    case OnPayouts(AuthorizeOperator(creator, operator, allowance, expiry)) =>
      if (creator, operator) == (c, o) then Granted(allowance, expiry) else Nothing
    case OnPayouts(RevokeOperator(creator, operator)) => if (creator, operator) == (c, o) then Revoked else Nothing
    case DoWithdraw(caller, creator, _, _, _) =>
      if (creator, caller) == (c, o) && c != o then Spent(Taken(w, call), env.ledger) else Nothing
    case _ => Nothing
  }

  lemma PayOutAllowance(jar: Address, p: Payouts, held: TokenLedger, env: Env, caller: Address, creator: Address,
                        token: Address, to: Address, amount: int, c: Address, o: Address)
    requires PayOut(jar, p, held, env, caller, creator, token, to, amount).Ok? && amount > 0
    ensures var q := PayOut(jar, p, held, env, caller, creator, token, to, amount).value.0;
            if (creator, caller) == (c, o) && c != o
            then AllowanceOf(q, c, o) == After(AllowanceOf(p, c, o), Spent(amount, env.ledger))
                 && Legal(AllowanceOf(p, c, o), Spent(amount, env.ledger))
            else AllowanceOf(q, c, o) == AllowanceOf(p, c, o)
  {
  }

  /** Grants and revocations, and the other payout calls, which leave allowances alone. */
  lemma PayoutCallFollows(b: Breaker, p: Payouts, env: Env, call: PayoutCall, w: World, c: Address, o: Address)
    requires PayoutsStep(b, p, env, call).Ok?
    ensures var e := CallEvent(w, env, OnPayouts(call), c, o);
            && AllowanceOf(PayoutsStep(b, p, env, call).value, c, o) == After(AllowanceOf(p, c, o), e)
            && Legal(AllowanceOf(p, c, o), e) && (e.Granted? || e.Revoked? ==> c in env.auth) && !e.Spent?
  {
  }

  lemma CallFollows(jar: Address, w: World, env: Env, call: Call, c: Address, o: Address)
    requires Perform(jar, w, env, call).Ok?
    ensures var e := CallEvent(w, env, call, c, o);
            var next := Perform(jar, w, env, call).value.world.payouts;
            && AllowanceOf(next, c, o) == After(AllowanceOf(w.payouts, c, o), e)
            && Legal(AllowanceOf(w.payouts, c, o), e)
            && (e.Granted? || e.Revoked? ==> c in env.auth)
            && (e.Spent? ==> o in env.auth)
  {
    if call.OnPayouts? {
      PayoutCallFollows(w.breaker, w.payouts, env, call.payout, w, c, o);
    } else if call.DoWithdraw? {
      PayOutAllowance(jar, w.payouts, w.tokens, env, call.caller, call.creator, call.token, call.to, Taken(w, call),
                      c, o);
    }
  }

  function StepEvent(jar: Address, w: World, step: Step, c: Address, o: Address): Event {
    if Exec(jar, w, step.env, step.call).Err? then Nothing
    else CallEvent(w, step.env, Delegate(w, step.call).value, c, o)
  }

  ghost predicate IsEvent(jar: Address, r: Run, c: Address, o: Address, i: int, e: Event) {
    0 <= i < |r.steps| && i < |r.states| && e == StepEvent(jar, r.states[i], r.steps[i], c, o)
  }

  ghost predicate IsHistory(jar: Address, r: Run, c: Address, o: Address, es: seq<Event>) {
    && |es| == |r.steps|
    && forall i {:trigger IsEvent(jar, r, c, o, i, es[i])} :: 0 <= i < |es| ==> IsEvent(jar, r, c, o, i, es[i])
  }

  lemma HistoryExists(jar: Address, r: Run, c: Address, o: Address) returns (es: seq<Event>)
    requires |r.states| == |r.steps| + 1
    ensures IsHistory(jar, r, c, o, es)
  {
    es := seq(|r.steps|, i requires 0 <= i < |r.steps| => StepEvent(jar, r.states[i], r.steps[i], c, o));
  }

  lemma HistoryStep(jar: Address, r: Run, c: Address, o: Address, es: seq<Event>, i: nat)
    requires IsRun(jar, r) && IsHistory(jar, r, c, o, es) && i < |es|
    ensures AllowanceOf(r.states[i + 1].payouts, c, o) == After(AllowanceOf(r.states[i].payouts, c, o), es[i])
    ensures Legal(AllowanceOf(r.states[i].payouts, c, o), es[i])
    ensures es[i].Granted? || es[i].Revoked? ==> c in r.steps[i].env.auth
    ensures es[i].Spent? ==> o in r.steps[i].env.auth
  {
    assert IsEvent(jar, r, c, o, i, es[i]);
    if Exec(jar, r.states[i], r.steps[i].env, r.steps[i].call).Ok? {
      CallFollows(jar, r.states[i], r.steps[i].env, r.Performed(i), c, o);
    }
  }

  /**
   Whenever an operator takes money, the creator had granted an allowance that is
   neither revoked nor replaced, has not expired, and covers this withdrawal
   together with everything taken under it before.
   */
  lemma OperatorBudget(jar: Address, r: Run, c: Address, o: Address, es: seq<Event>, i: nat) returns (j: nat)
    requires IsRun(jar, r) && IsHistory(jar, r, c, o, es) && AllowanceOf(r.states[0].payouts, c, o).None?
    requires i < |es| && es[i].Spent?
    ensures InUse(es, i, j) && c in r.steps[j].env.auth && o in r.steps[i].env.auth
    ensures 0 < es[i].amount && es[i].ledger <= es[j].expiry
    ensures SpentBetween(es, j + 1, i) + es[i].amount <= es[j].amount
  {
    var ss := seq(|r.states|, n requires 0 <= n < |r.states| => AllowanceOf(r.states[n].payouts, c, o));
    forall n | 0 <= n < |es| ensures ss[n + 1] == After(ss[n], es[n]) && Legal(ss[n], es[n]) {
      HistoryStep(jar, r, c, o, es, n);
    }
    j := AllowanceExplained(ss, es, i);
    HistoryStep(jar, r, c, o, es, j);
    HistoryStep(jar, r, c, o, es, i);
  }
}
