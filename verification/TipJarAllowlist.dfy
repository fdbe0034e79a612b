/**
 The allowlist of the TipJar equals its history: a token is listed exactly when it
 was added, or named by `init`, and not removed since. A tip in any other token
 never succeeds.
 */
module TipJarAllowlist {
  import opened Host
  import opened TipJar
  import opened TipJarMigration
  import opened TipJarSolvency
  import opened TipJarAnswers

  /** What a step of a run means for one token. */
  datatype Event = Added | Removed | Nothing

  function StepEvent(jar: Address, w: World, step: Step, token: Address): Event {
    if Exec(jar, w, step.env, step.call).Err? then Nothing else
      match step.call
      case Init(first, _, _) => if first == token then Added else Removed
      case OnConfig(AddToken(_, t)) => if t == token then Added else Nothing
      case OnConfig(RemoveToken(_, t)) => if t == token then Removed else Nothing
      case _ => Nothing
  }

  /** Before point `i`, the token was added and not removed since. */
  ghost predicate ListedAt(es: seq<Event>, i: int, k: int) {
    0 <= k < i <= |es| && es[k].Added? && forall m :: k < m < i ==> !es[m].Removed?
  }

  ghost predicate ListedByHistory(es: seq<Event>, i: int) {
    exists k :: ListedAt(es, i, k)
  }

  lemma HistoryNext(es: seq<Event>, i: nat)
    requires i < |es|
    ensures ListedByHistory(es, i + 1) <==> es[i].Added? || (ListedByHistory(es, i) && !es[i].Removed?)
  {
    var n := i + 1;
    if es[i].Added? {
      assert ListedAt(es, n, i);
    } else {
      forall k | ListedAt(es, n, k) ensures ListedAt(es, i, k) && !es[i].Removed? {
      }
      if ListedByHistory(es, i) && !es[i].Removed? {
        var k :| ListedAt(es, i, k);
        assert ListedAt(es, n, k);
      }
    }
  }

  lemma OtherCallsKeepList(jar: Address, w: World, env: Env, call: Call)
    requires Perform(jar, w, env, call).Ok? && !call.OnConfig? && !call.Init?
    ensures Perform(jar, w, env, call).value.world.cfg == w.cfg
  {
  }

  /** One step lists and delists exactly by its event. */
  lemma StepLists(jar: Address, w: World, step: Step, token: Address)
    ensures var e := StepEvent(jar, w, step, token);
            IsListed(Next(jar, w, step).cfg, token) <==> e.Added? || (IsListed(w.cfg, token) && !e.Removed?)
  {
    if Exec(jar, w, step.env, step.call).Ok? {
      match step.call
      case Init(first, admin, timelock) => InitDecides(w, step.env, first, admin, timelock);
      case OnConfig(c) => ConfigCallDecides(w.roles, w.cfg, step.env, c);
      case _ => OtherCallsKeepList(jar, w, step.env, Delegate(w, step.call).value);
    }
  }

  ghost predicate IsEvent(jar: Address, r: Run, token: Address, i: int, e: Event) {
    0 <= i < |r.steps| && i < |r.states| && e == StepEvent(jar, r.states[i], r.steps[i], token)
  }

  /** `es` is the history of the token in the run. */
  ghost predicate IsHistory(jar: Address, r: Run, token: Address, es: seq<Event>) {
    && |es| == |r.steps|
    && forall i {:trigger IsEvent(jar, r, token, i, es[i])} :: 0 <= i < |es| ==> IsEvent(jar, r, token, i, es[i])
  }

  /** At every point of a run a token is listed exactly when its history says so. */
  lemma {:induction false} ListEqualsHistory(jar: Address, r: Run, token: Address, es: seq<Event>, i: nat)
    requires IsRun(jar, r) && IsHistory(jar, r, token, es) && !IsListed(r.states[0].cfg, token) && i <= |es|
    ensures IsListed(r.states[i].cfg, token) <==> ListedByHistory(es, i)
  {
    if i > 0 {
      ListEqualsHistory(jar, r, token, es, i - 1);
      assert IsEvent(jar, r, token, i - 1, es[i - 1]);
      StepLists(jar, r.states[i - 1], r.steps[i - 1], token);
      HistoryNext(es, i - 1);
    }
  }

  /**
   The answer of a tip at any step of any run: it goes through exactly when the
   code is still in place, the token is listed by its history, and nothing else
   refuses it.
   */
  lemma RunTipDecides(jar: Address, r: Run, token: Address, es: seq<Event>, i: nat, fee: int)
    requires IsRun(jar, r) && Good(r.states[0]) && IsHistory(jar, r, token, es) && !IsListed(r.states[0].cfg, token)
    requires i < |es| && r.steps[i].call.DoTip? && r.steps[i].call.token == token
    requires var amount := r.steps[i].call.amount;
             amount > 0 ==> fee * 10000 <= amount * Rate(r.states[i].cfg) < (fee + 1) * 10000
    ensures var w, env, call := r.states[i], r.steps[i].env, r.steps[i].call;
            r.Ok(jar, i) <==>
            && w.roles.replacedBy.None? && ListedByHistory(es, i)
            && TipRefusal(w, env, call.sender, token, call.amount).None?
            && BookingRefusal(w, call.creator, token, call.amount, fee).None?
  {
    var w, env, call := r.states[i], r.steps[i].env, r.steps[i].call;
    RunConserves(jar, r, token, i);
    ListEqualsHistory(jar, r, token, es, i);
    TipDecides(jar, w, env, call.sender, call.creator, token, call.amount, fee);
    assert Delegate(w, call) == Ok(call);
  }
}
