/**
 The pause state of the TipJar equals its history: for each feature bit, which
 admin and guardian actions touched it, and when the last guardian pause ends.
 */
module TipJarPause {
  import opened Host
  import opened TipJar

  /** What a step of a run means for the pause state. */
  datatype Event =
    | AdminPause(flag: Flags)
    | AdminUnpause(flag: Flags)
    | GuardianPause(flag: Flags, expiry: nat)
    | Nothing

  function After(p: PauseState, e: Event): PauseState {
    match e
    case AdminPause(flag) => p.(adminFlags := p.adminFlags + flag, guardianFlags := p.guardianFlags - flag)
    case AdminUnpause(flag) => p.(adminFlags := p.adminFlags - flag, guardianFlags := p.guardianFlags - flag)
    case GuardianPause(flag, expiry) => p.(guardianFlags := p.guardianFlags + flag, guardianExpiry := expiry)
    case Nothing => p
  }

  // ---------------------------------------------------------------------- history

  predicate AdminTouches(e: Event, bit: Feature) {
    (e.AdminPause? || e.AdminUnpause?) && bit in e.flag
  }

  /** `k` is the last admin action on the bit before `i`, and it was a pause. */
  ghost predicate AdminPausedAt(es: seq<Event>, i: int, bit: Feature, k: int) {
    && 0 <= k < i <= |es| && es[k].AdminPause? && bit in es[k].flag
    && forall m :: k < m < i ==> !AdminTouches(es[m], bit)
  }

  /** At `k` the guardian paused the bit, and no admin action touched it since. */
  ghost predicate GuardianPausedAt(es: seq<Event>, i: int, bit: Feature, k: int) {
    && 0 <= k < i <= |es| && es[k].GuardianPause? && bit in es[k].flag
    && forall m :: k < m < i ==> !AdminTouches(es[m], bit)
  }

  /** `k` is the most recent guardian pause of any bit. */
  ghost predicate LastGuardianPause(es: seq<Event>, i: int, k: int) {
    0 <= k < i <= |es| && es[k].GuardianPause? && forall m :: k < m < i ==> !es[m].GuardianPause?
  }

  ghost predicate AdminPaused(es: seq<Event>, i: int, bit: Feature) {
    exists k :: AdminPausedAt(es, i, bit, k)
  }

  ghost predicate GuardianPaused(es: seq<Event>, i: int, bit: Feature) {
    exists k :: GuardianPausedAt(es, i, bit, k)
  }

  ghost predicate BeforeExpiry(es: seq<Event>, i: int, ledger: nat) {
    exists k :: LastGuardianPause(es, i, k) && ledger < es[k].expiry
  }

  /** The state before `i` says about `bit` what the history says. */
  ghost predicate BitExplained(p: PauseState, es: seq<Event>, i: int, bit: Feature) {
    && (bit in p.adminFlags <==> AdminPaused(es, i, bit))
    && (bit in p.guardianFlags <==> GuardianPaused(es, i, bit))
  }

  ghost predicate ExpiryExplained(p: PauseState, es: seq<Event>, i: int) {
    || (p.guardianExpiry == 0 && forall k :: !LastGuardianPause(es, i, k))
    || exists k :: LastGuardianPause(es, i, k) && p.guardianExpiry == es[k].expiry
  }

  lemma AdminStep(es: seq<Event>, i: nat, bit: Feature)
    requires i < |es|
    ensures AdminPaused(es, i + 1, bit) <==>
            if AdminTouches(es[i], bit) then es[i].AdminPause? else AdminPaused(es, i, bit)
  {
    var n := i + 1;
    if AdminTouches(es[i], bit) {
      if es[i].AdminPause? {
        assert AdminPausedAt(es, n, bit, i);
      }
    } else {
      forall k | AdminPausedAt(es, n, bit, k) ensures AdminPausedAt(es, i, bit, k) {
      }
      forall k | AdminPausedAt(es, i, bit, k) ensures AdminPausedAt(es, n, bit, k) {
      }
    }
  }

  lemma GuardianStep(es: seq<Event>, i: nat, bit: Feature)
    requires i < |es|
    ensures GuardianPaused(es, i + 1, bit) <==>
            !AdminTouches(es[i], bit) &&
            ((es[i].GuardianPause? && bit in es[i].flag) || GuardianPaused(es, i, bit))
  {
    var n := i + 1;
    if !AdminTouches(es[i], bit) {
      if es[i].GuardianPause? && bit in es[i].flag {
        assert GuardianPausedAt(es, n, bit, i);
      }
      forall k | GuardianPausedAt(es, n, bit, k) && k < i ensures GuardianPausedAt(es, i, bit, k) {
      }
      forall k | GuardianPausedAt(es, i, bit, k) ensures GuardianPausedAt(es, n, bit, k) {
      }
    }
  }

  lemma BitStep(p: PauseState, es: seq<Event>, i: nat, bit: Feature)
    requires i < |es| && BitExplained(p, es, i, bit)
    ensures BitExplained(After(p, es[i]), es, i + 1, bit)
  {
    AdminStep(es, i, bit);
    GuardianStep(es, i, bit);
  }

  lemma ExpiryStep(p: PauseState, es: seq<Event>, i: nat)
    requires i < |es| && ExpiryExplained(p, es, i)
    ensures ExpiryExplained(After(p, es[i]), es, i + 1)
  {
    var n := i + 1;
    if es[i].GuardianPause? {
      assert LastGuardianPause(es, n, i);
    } else {
      forall k | LastGuardianPause(es, n, k) ensures LastGuardianPause(es, i, k) {
      }
      forall k | LastGuardianPause(es, i, k) ensures LastGuardianPause(es, n, k) {
      }
    }
  }

  ghost predicate Follows(ps: seq<PauseState>, es: seq<Event>) {
    && |ps| == |es| + 1 && ps[0] == PauseState({}, {}, 0)
    && forall i :: 0 <= i < |es| ==> ps[i + 1] == After(ps[i], es[i])
  }

  lemma {:induction false} StatesExplained(ps: seq<PauseState>, es: seq<Event>, i: nat, bit: Feature)
    requires Follows(ps, es) && i <= |es|
    ensures BitExplained(ps[i], es, i, bit) && ExpiryExplained(ps[i], es, i)
  {
    if i > 0 {
      StatesExplained(ps, es, i - 1, bit);
      BitStep(ps[i - 1], es, i - 1, bit);
      ExpiryStep(ps[i - 1], es, i - 1);
    }
  }

  /** Whether a feature is paused at a ledger, said in terms of the history alone. */
  ghost predicate PausedByHistory(es: seq<Event>, i: int, bit: Feature, ledger: nat) {
    AdminPaused(es, i, bit) || (GuardianPaused(es, i, bit) && BeforeExpiry(es, i, ledger))
  }

  lemma EffectiveFlags(p: PauseState, es: seq<Event>, i: int, bit: Feature, ledger: nat)
    requires BitExplained(p, es, i, bit) && ExpiryExplained(p, es, i)
    ensures bit in EffectivePauseFlags(p, ledger) <==> PausedByHistory(es, i, bit, ledger)
  {
    if bit in p.guardianFlags {
      assert p.guardianFlags != {};
    }
    forall k, m | LastGuardianPause(es, i, k) && LastGuardianPause(es, i, m) ensures k == m {
    }
    if ledger < p.guardianExpiry {
      assert BeforeExpiry(es, i, ledger);
    }
  }

  // ------------------------------------------------------------------------- runs

  function StepEvent(jar: Address, w: World, step: Step): Event {
    if !step.call.OnBreaker? || Exec(jar, w, step.env, step.call).Err? then Nothing else
      match step.call.breaker
      case Pause(caller, flag) =>
        if w.roles.admin == Some(caller) then AdminPause(flag)
        else
          var duration := w.breaker.duration.UnwrapOr(DEFAULT_GUARDIAN_PAUSE_DURATION_LEDGERS);
          GuardianPause(flag, AddU32(step.env.ledger, duration))
      case Unpause(_, flag) => AdminUnpause(flag)
      case _ => Nothing
  }

  lemma OtherCallsKeepPause(jar: Address, w: World, env: Env, call: Call)
    requires Perform(jar, w, env, call).Ok? && !call.OnBreaker?
    ensures Perform(jar, w, env, call).value.world.breaker == w.breaker
  {
  }

  /** One step moves the pause state by its event; pausing is for the admin or the guardian, clearing for the admin. */
  lemma StepFollows(jar: Address, w: World, step: Step)
    ensures var e := StepEvent(jar, w, step);
            && PauseOf(Next(jar, w, step).breaker) == After(PauseOf(w.breaker), e)
            && (e.AdminPause? || e.AdminUnpause? ==> w.roles.admin.Some? && w.roles.admin.value in step.env.auth)
            && (e.GuardianPause? ==> w.breaker.guardian.Some? && w.breaker.guardian.value in step.env.auth)
  {
    if Exec(jar, w, step.env, step.call).Ok? && !step.call.OnBreaker? {
      OtherCallsKeepPause(jar, w, step.env, Delegate(w, step.call).value);
    }
  }

  ghost predicate IsEvent(jar: Address, r: Run, i: int, e: Event) {
    0 <= i < |r.steps| && i < |r.states| && e == StepEvent(jar, r.states[i], r.steps[i])
  }

  ghost predicate IsHistory(jar: Address, r: Run, es: seq<Event>) {
    |es| == |r.steps| && forall i {:trigger IsEvent(jar, r, i, es[i])} :: 0 <= i < |es| ==> IsEvent(jar, r, i, es[i])
  }

  lemma HistoryExists(jar: Address, r: Run) returns (es: seq<Event>)
    requires |r.states| == |r.steps| + 1
    ensures IsHistory(jar, r, es)
  {
    es := seq(|r.steps|, i requires 0 <= i < |r.steps| => StepEvent(jar, r.states[i], r.steps[i]));
  }

  /**
   At any point of any run and any ledger, a feature is paused exactly when the
   last admin action on it was a pause, or the guardian paused it since then and
   the expiry set by the most recent guardian pause of any feature is not reached.
   */
  lemma PauseEqualsHistory(jar: Address, r: Run, es: seq<Event>, i: nat, bit: Feature, ledger: nat)
    requires IsRun(jar, r) && IsHistory(jar, r, es) && PauseOf(r.states[0].breaker) == PauseState({}, {}, 0)
    requires i <= |es|
    ensures bit in EffectivePauseFlags(PauseOf(r.states[i].breaker), ledger) <==> PausedByHistory(es, i, bit, ledger)
  {
    var ps := seq(|r.states|, n requires 0 <= n < |r.states| => PauseOf(r.states[n].breaker));
    forall n | 0 <= n < |es| ensures ps[n + 1] == After(ps[n], es[n]) {
      assert IsEvent(jar, r, n, es[n]);
      StepFollows(jar, r.states[n], r.steps[n]);
    }
    StatesExplained(ps, es, i, bit);
    EffectiveFlags(ps[i], es, i, bit, ledger);
  }

  lemma PausedCallsFail(jar: Address, w: World, env: Env, call: Call)
    requires Perform(jar, w, env, call).Ok?
    ensures call.DoTip? ==> Tips !in EffectivePauseFlags(PauseOf(w.breaker), env.ledger)
    ensures call.DoWithdraw? || call.OnPayouts? ==> Withdrawals !in EffectivePauseFlags(PauseOf(w.breaker), env.ledger)
  {
    var flags := EffectivePauseFlags(PauseOf(w.breaker), env.ledger);
    assert Tips in flags ==> Tips in flags * {Tips};
    assert Withdrawals in flags ==> Withdrawals in flags * {Withdrawals};
  }

  /** No tip, withdrawal or payout change goes through while the history says its feature is paused. */
  lemma PauseBlocks(jar: Address, r: Run, es: seq<Event>, i: nat)
    requires IsRun(jar, r) && IsHistory(jar, r, es) && PauseOf(r.states[0].breaker) == PauseState({}, {}, 0)
    requires i < |es| && r.Ok(jar, i)
    ensures r.Performed(i).DoTip? ==> !PausedByHistory(es, i, Tips, r.Ledger(i))
    ensures r.Performed(i).DoWithdraw? || r.Performed(i).OnPayouts? ==>
              !PausedByHistory(es, i, Withdrawals, r.Ledger(i))
  {
    PauseEqualsHistory(jar, r, es, i, Tips, r.Ledger(i));
    PauseEqualsHistory(jar, r, es, i, Withdrawals, r.Ledger(i));
    PausedCallsFail(jar, r.states[i], r.steps[i].env, r.Performed(i));
  }

  /** A guardian action clears no stored bit, and admin pauses stay in effect at every ledger. */
  lemma GuardianNeverClears(p: PauseState, flag: Flags, expiry: nat, bit: Feature, ledger: nat)
    ensures var q := After(p, GuardianPause(flag, expiry));
            && (bit in p.adminFlags ==> bit in EffectivePauseFlags(q, ledger))
            && (bit in p.guardianFlags || bit in flag ==>
                  (bit in EffectivePauseFlags(q, ledger) <==> bit in p.adminFlags || ledger < expiry))
  {
    var q := After(p, GuardianPause(flag, expiry));
    assert bit in q.guardianFlags ==> q.guardianFlags != {};
  }
}
