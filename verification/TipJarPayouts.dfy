/**
 Payout addresses over whole runs of the TipJar.

 A run is read as the history of one creator's payout slot: which addresses were
 named, cancelled and paid. An address that receives money is then traced back
 to the point of the history where the creator named it.
 */
module TipJarPayouts {
  import opened Host
  import opened TipJar

  /** All that the storage says about one creator's payout address. */
  datatype Slot = Slot(payout: Option<Address>, pending: Option<PendingPayout>)

  /** What a step of a run means for one creator's payout address. */
  datatype Event =
    | Named(payout: Address, ledger: nat)
    | Cancelled
    | Paid(to: Address, ledger: nat)
    | Nothing

  predicate Ripe(s: Slot, ledger: nat) {
    s.pending.Some? && ledger >= s.pending.value.effective
  }

  function EffectiveFrom(e: Event): nat
    requires e.Named?
  {
    AddU32(e.ledger, PAYOUT_DELAY_LEDGERS)
  }

  function After(s: Slot, e: Event): Slot {
    match e
    case Named(payout, ledger) => s.(pending := Some(PendingPayout(payout, EffectiveFrom(e))))
    case Cancelled => s.(pending := None)
    case Paid(_, ledger) => if Ripe(s, ledger) then Slot(Some(s.pending.value.payout), None) else s
    case Nothing => s
  }

  // ------------------------------------------------------------------- the history

  /** Before point `i`, the address named at `j` is neither cancelled, replaced nor applied. */
  ghost predicate Waiting(es: seq<Event>, i: int, j: int) {
    && 0 <= j < i <= |es| && es[j].Named?
    && forall m :: j < m < i ==>
         && !es[m].Named? && !es[m].Cancelled?
         && !(es[m].Paid? && es[m].ledger >= EffectiveFrom(es[j]))
  }

  /** Event `k` is the withdrawal that put the address named at `j` in force. */
  ghost predicate Applies(es: seq<Event>, k: int, j: int) {
    0 <= k < |es| && Waiting(es, k, j) && es[k].Paid? && es[k].ledger >= EffectiveFrom(es[j])
  }

  /** Before point `i`, the address named at `j` and applied at `k` is the last one applied. */
  ghost predicate InForce(es: seq<Event>, i: int, k: int, j: int) {
    k < i <= |es| && Applies(es, k, j) && forall l, m :: k < l < i ==> !Applies(es, l, m)
  }

  ghost predicate PendingExplained(s: Slot, es: seq<Event>, i: int) {
    match s.pending
    case None => forall j :: !Waiting(es, i, j)
    case Some(p) => exists j :: Waiting(es, i, j) && p == PendingPayout(es[j].payout, EffectiveFrom(es[j]))
  }

  ghost predicate PayoutExplained(s: Slot, es: seq<Event>, i: int) {
    match s.payout
    case None => forall k, j :: k < i ==> !Applies(es, k, j)
    case Some(a) => exists k, j :: InForce(es, i, k, j) && a == es[j].payout
  }

  /** The change applied at `k` is the last one up to and including event `i`. */
  ghost predicate AppliedLast(es: seq<Event>, i: int, k: int, j: int) {
    InForce(es, i + 1, k, j)
  }

  lemma PendingStep(s: Slot, es: seq<Event>, i: nat)
    requires i < |es| && PendingExplained(s, es, i)
    ensures PendingExplained(After(s, es[i]), es, i + 1)
  {
    var n := i + 1;
    if es[i].Named? {
      assert Waiting(es, n, i);
    } else {
      forall j | Waiting(es, n, j) ensures Waiting(es, i, j) {
      }
      if s.pending.Some? {
        var j :| Waiting(es, i, j) && s.pending.value == PendingPayout(es[j].payout, EffectiveFrom(es[j]));
        assert forall m :: Waiting(es, i, m) ==> m == j;
        assert After(s, es[i]).pending.Some? ==> Waiting(es, n, j);
      }
    }
  }

  lemma PayoutStep(s: Slot, es: seq<Event>, i: nat)
    requires i < |es| && PendingExplained(s, es, i) && PayoutExplained(s, es, i)
    ensures PayoutExplained(After(s, es[i]), es, i + 1)
  {
    if es[i].Paid? && Ripe(s, es[i].ledger) {
      var j :| Waiting(es, i, j) && s.pending.value == PendingPayout(es[j].payout, EffectiveFrom(es[j]));
      assert InForce(es, i + 1, i, j);
    } else {
      assert forall j :: !Applies(es, i, j);
      if s.payout.Some? {
        var k, j :| InForce(es, i, k, j) && s.payout.value == es[j].payout;
        assert InForce(es, i + 1, k, j);
      }
    }
  }

  /** The slots of a history, starting empty. */
  ghost predicate Follows(slots: seq<Slot>, es: seq<Event>) {
    && |slots| == |es| + 1 && slots[0] == Slot(None, None)
    && forall i :: 0 <= i < |es| ==> slots[i + 1] == After(slots[i], es[i])
  }

  lemma {:induction false} SlotsExplained(slots: seq<Slot>, es: seq<Event>, i: nat)
    requires Follows(slots, es) && i <= |es|
    ensures PendingExplained(slots[i], es, i) && PayoutExplained(slots[i], es, i)
  {
    if i > 0 {
      SlotsExplained(slots, es, i - 1);
      PendingStep(slots[i - 1], es, i - 1);
      PayoutStep(slots[i - 1], es, i - 1);
    }
  }

  /** Who is paid at event `i`, said in terms of the history alone. */
  ghost predicate PaidAsNamed(c: Address, es: seq<Event>, i: nat)
    requires i < |es| && es[i].Paid?
  {
    || (es[i].to == c && forall k, j :: k <= i ==> !Applies(es, k, j))
    || exists k, j :: AppliedLast(es, i, k, j) && es[i].to == es[j].payout
  }

  lemma PaymentExplained(slots: seq<Slot>, es: seq<Event>, i: nat, c: Address)
    requires Follows(slots, es) && i < |es| && es[i].Paid? && es[i].to == slots[i + 1].payout.UnwrapOr(c)
    ensures PaidAsNamed(c, es, i)
  {
    SlotsExplained(slots, es, i + 1);
    var s := slots[i + 1];
    if s.payout.Some? {
      var k, j :| InForce(es, i + 1, k, j) && s.payout.value == es[j].payout;
      assert AppliedLast(es, i, k, j);
    }
  }

  // ------------------------------------------------------------------ runs as histories

  function SlotOf(p: Payouts, c: Address): Slot {
    Slot(if c in p.payout then Some(p.payout[c]) else None, if c in p.pending then Some(p.pending[c]) else None)
  }

  function CallEvent(env: Env, call: Call, c: Address): Event {
    match call
    case OnPayouts(SetPayoutAddress(creator, payout)) => if creator == c then Named(payout, env.ledger) else Nothing
    case OnPayouts(CancelPayoutAddress(creator)) => if creator == c then Cancelled else Nothing
    case DoWithdraw(_, creator, _, to, _) => if creator == c then Paid(to, env.ledger) else Nothing
    case _ => Nothing
  }

  function EventOf(jar: Address, w: World, step: Step, c: Address): Event {
    if Exec(jar, w, step.env, step.call).Err? then Nothing
    else CallEvent(step.env, Delegate(w, step.call).value, c)
  }

  lemma PayOutSlot(jar: Address, p: Payouts, held: TokenLedger, env: Env, caller: Address, creator: Address,
                   token: Address, to: Address, amount: int, c: Address)
    requires PayOut(jar, p, held, env, caller, creator, token, to, amount).Ok?
    ensures var q := PayOut(jar, p, held, env, caller, creator, token, to, amount).value.0;
            && to == SlotOf(q, creator).payout.UnwrapOr(creator)
            && SlotOf(q, c) == if c == creator then After(SlotOf(p, c), Paid(to, env.ledger)) else SlotOf(p, c)
  {
  }

  lemma PayoutCallSlot(b: Breaker, p: Payouts, env: Env, call: PayoutCall, c: Address)
    requires PayoutsStep(b, p, env, call).Ok?
    ensures var e := CallEvent(env, OnPayouts(call), c);
            && SlotOf(PayoutsStep(b, p, env, call).value, c) == After(SlotOf(p, c), e)
            && !e.Paid? && (e.Named? ==> c in env.auth)
  {
  }

  /** A successful call moves the slot by its event; a payment goes to the address then in force. */
  lemma CallSlot(jar: Address, w: World, env: Env, call: Call, c: Address)
    requires Perform(jar, w, env, call).Ok?
    ensures var e := CallEvent(env, call, c);
            && SlotOf(Perform(jar, w, env, call).value.world.payouts, c) == After(SlotOf(w.payouts, c), e)
            && (e.Paid? ==> e.to == After(SlotOf(w.payouts, c), e).payout.UnwrapOr(c))
            && (e.Named? ==> c in env.auth)
  {
    if call.OnPayouts? {
      PayoutCallSlot(w.breaker, w.payouts, env, call.payout, c);
    } else if call.DoWithdraw? {
      var amount := TakeFrom(w.acct.balance, w.cfg.token, call.creator, call.token, call.request).value.1;
      PayOutSlot(jar, w.payouts, w.tokens, env, call.caller, call.creator, call.token, call.to, amount, c);
    }
  }

  lemma StepSlot(jar: Address, w: World, step: Step, c: Address)
    ensures var e := EventOf(jar, w, step, c);
            && SlotOf(Next(jar, w, step).payouts, c) == After(SlotOf(w.payouts, c), e)
            && (e.Paid? ==> e.to == After(SlotOf(w.payouts, c), e).payout.UnwrapOr(c))
            && (e.Named? ==> c in step.env.auth)
            && (e.Named? || e.Paid? ==> e.ledger == step.env.ledger)
  {
    if Exec(jar, w, step.env, step.call).Ok? {
      CallSlot(jar, w, step.env, Delegate(w, step.call).value, c);
    }
  }

  ghost predicate IsEvent(jar: Address, r: Run, c: Address, i: int, e: Event) {
    0 <= i < |r.steps| && i < |r.states| && e == EventOf(jar, r.states[i], r.steps[i], c)
  }

  /** `es` is the history of creator `c`'s payout address in the run. */
  ghost predicate IsHistory(jar: Address, r: Run, c: Address, es: seq<Event>) {
    && |es| == |r.steps|
    && forall i {:trigger IsEvent(jar, r, c, i, es[i])} :: 0 <= i < |es| ==> IsEvent(jar, r, c, i, es[i])
  }

  lemma HistoryExists(jar: Address, r: Run, c: Address) returns (es: seq<Event>)
    requires |r.states| == |r.steps| + 1
    ensures IsHistory(jar, r, c, es)
  {
    es := seq(|r.steps|, i requires 0 <= i < |r.steps| => EventOf(jar, r.states[i], r.steps[i], c));
  }

  lemma HistoryStep(jar: Address, r: Run, c: Address, es: seq<Event>, i: nat)
    requires IsRun(jar, r) && IsHistory(jar, r, c, es) && i < |es|
    ensures SlotOf(r.states[i + 1].payouts, c) == After(SlotOf(r.states[i].payouts, c), es[i])
    ensures es[i].Paid? ==> es[i].to == SlotOf(r.states[i + 1].payouts, c).payout.UnwrapOr(c)
    ensures es[i].Named? ==> c in r.steps[i].env.auth
    ensures es[i].Named? || es[i].Paid? ==> es[i].ledger == r.Ledger(i)
  {
    assert IsEvent(jar, r, c, i, es[i]);
    StepSlot(jar, r.states[i], r.steps[i], c);
  }

  /**
   The payout delay over whole runs. A withdrawal at step `i` pays the creator
   when no change was ever applied, and otherwise the address of the last change
   applied: one the creator named, with no cancel or newer name before it was
   applied. Pausing plays no part.
   */
  lemma PaymentsFollowNames(jar: Address, r: Run, c: Address, es: seq<Event>, i: nat)
    requires IsRun(jar, r) && SlotOf(r.states[0].payouts, c) == Slot(None, None)
    requires IsHistory(jar, r, c, es) && i < |es| && es[i].Paid?
    ensures PaidAsNamed(c, es, i)
  {
    var slots := seq(|r.states|, n requires 0 <= n < |r.states| => SlotOf(r.states[n].payouts, c));
    forall n | 0 <= n < |es| ensures slots[n + 1] == After(slots[n], es[n]) {
      HistoryStep(jar, r, c, es, n);
    }
    HistoryStep(jar, r, c, es, i);
    PaymentExplained(slots, es, i, c);
  }

  /** An applied change was authorised by the creator at least 17,280 ledgers before it was applied. */
  lemma PayoutDelay(jar: Address, r: Run, c: Address, es: seq<Event>, k: nat, j: nat)
    requires IsRun(jar, r) && IsHistory(jar, r, c, es) && Applies(es, k, j)
    ensures c in r.steps[j].env.auth
    ensures r.Ledger(j) + 17280 < U32_SIZE ==> r.Ledger(j) + 17280 <= r.Ledger(k)
  {
    HistoryStep(jar, r, c, es, j);
    HistoryStep(jar, r, c, es, k);
  }

  /** The ledger sum wraps: the delay is kept exactly when it does not reach 2^32. */
  lemma PayoutDelayExact(s: Slot, payout: Address, ledger: nat)
    requires ledger < U32_SIZE
    ensures (forall m :: ledger <= m < ledger + 17280 ==> !Ripe(After(s, Named(payout, ledger)), m))
            <==> ledger + 17280 < U32_SIZE
  {
    assert ledger + PAYOUT_DELAY_LEDGERS >= U32_SIZE ==> Ripe(After(s, Named(payout, ledger)), ledger);
  }
}
