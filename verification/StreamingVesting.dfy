/**
 Streaming vesting: deposits that unlock linearly per second, can be drawn in any
 number of withdrawals, and can be cancelled by the sender.
 */
module StreamingVesting {
  import opened Host
  import opened Arithmetic

  datatype Status = Active | Cancelled | Completed

  datatype Stream = Stream(
    sender: Address,
    recipient: Address,
    token: Address,
    total: int,
    withdrawn: int,
    start: nat,
    end: nat,
    status: Status)

  /**
   `self` is the contract's own address, `held` what it holds per token, and `paid`
   what each stream has paid to recipient and sender.
   */
  datatype Ledger = Ledger(
    self: Address,
    streams: map<nat, Stream>,
    counter: nat,
    held: map<Address, int>,
    paid: map<nat, (int, int)>)

  datatype Error = InvalidAmount | InvalidDuration | NotFound | Unauthorized | NotActive | NothingToWithdraw
                 | TransferFailed

  type Result<T> = Outcome<T, Error>

  // ----------------------------------------------------------------------- vesting

  function VestedAt(s: Stream, now: nat): int {
    if now <= s.start then 0 else
      var duration := if s.end >= s.start then s.end - s.start else 0;
      if duration == 0 then s.total else
        var elapsed := (if now < s.end then now else s.end) - s.start;
        TruncDiv(s.total * elapsed, duration)
  }

  predicate WellFormed(s: Stream) {
    0 < s.total && s.start <= s.end
  }

  lemma StrictShare(amount: int, part: int, whole: int)
    requires 0 < amount && 0 <= part < whole
    ensures amount * part / whole < amount
  {
    assert amount * whole == amount * part + amount * (whole - part);
    assert amount * (whole - part) > 0;
    Quotient(amount * part, whole);
    if amount <= amount * part / whole {
      MulLe(amount, amount * part / whole, whole);
    }
  }

  /** Vesting stays within the deposit, and is complete from the end on. */
  lemma VestedWithin(s: Stream, now: nat)
    requires WellFormed(s)
    ensures 0 <= VestedAt(s, now) <= s.total
    ensures s.start < now && s.end <= now ==> VestedAt(s, now) == s.total
    ensures now < s.end ==> VestedAt(s, now) < s.total
  {
    if s.start < now && s.start < s.end {
      var duration, elapsed := s.end - s.start, (if now < s.end then now else s.end) - s.start;
      MulNonNegative(s.total, elapsed);
      ShareAtMost(s.total, elapsed, duration);
      if now < s.end {
        StrictShare(s.total, elapsed, duration);
      }
    }
  }

  /** Vesting never goes back. */
  lemma VestedMonotone(s: Stream, now: nat, later: nat)
    requires WellFormed(s) && now <= later
    ensures VestedAt(s, now) <= VestedAt(s, later)
  {
    VestedWithin(s, later);
    if s.start < now && s.start < s.end {
      var e, f := (if now < s.end then now else s.end) - s.start, (if later < s.end then later else s.end) - s.start;
      MulNonNegative(s.total, e);
      MulNonNegative(s.total, f);
      ShareMonotone(s.total, s.total, e, f, s.end - s.start);
    }
  }

  // -------------------------------------------------------------------- operations

  /** A transfer out of the contract, which to itself moves nothing. */
  function PayTo(self: Address, held: map<Address, int>, token: Address, to: Address, amount: int)
    : Result<map<Address, int>>
  {
    if to == self && amount <= Get(held, token, 0) then Ok(held) else TransferOut(held, token, amount, TransferFailed)
  }

  /** A transfer into the contract, which from itself moves nothing. `tokenOk`: the token accepts it from others. */
  function Deposit(self: Address, held: map<Address, int>, token: Address, sender: Address, amount: int, tokenOk: bool)
    : Result<map<Address, int>>
  {
    if sender == self then PayTo(self, held, token, self, amount)
    else if tokenOk then Ok(TransferIn(held, token, amount)) else Err(TransferFailed)
  }

  /** Nothing checks who the sender is: a transfer from the contract itself needs no further authorisation. */
  function Create(l: Ledger, sender: Address, recipient: Address, token: Address, total: int, duration: nat,
                  now: nat, tokenOk: bool): Result<Ledger>
  {
    if total <= 0 then Err(InvalidAmount) else
    :- Need(duration > 0, InvalidDuration);
    var held :- Deposit(l.self, l.held, token, sender, total, tokenOk);
    var end := if now + duration <= U64_MAX then now + duration else U64_MAX;
    var s := Stream(sender, recipient, token, total, 0, now, end, Active);
    Ok(Ledger(l.self, l.streams[l.counter := s], l.counter + 1, held, l.paid[l.counter := (0, 0)]))
  }

  function Withdraw(l: Ledger, recipient: Address, id: nat, now: nat): Result<Ledger> {
    if id !in l.streams then Err(NotFound) else
    var s := l.streams[id];
    :- Need(s.recipient == recipient, Unauthorized);
    :- Need(s.status == Active, NotActive);
    var available := VestedAt(s, now) - s.withdrawn;
    :- Need(available > 0, NothingToWithdraw);
    var next := s.(withdrawn := s.withdrawn + available, status := if now >= s.end then Completed else Active);
    var held :- PayTo(l.self, l.held, s.token, s.recipient, available);
    var p := Get(l.paid, id, (0, 0));
    Ok(l.(streams := l.streams[id := next], held := held, paid := l.paid[id := (p.0 + available, p.1)]))
  }

  function Cancel(l: Ledger, sender: Address, id: nat, now: nat): Result<Ledger> {
    if id !in l.streams then Err(NotFound) else
    var s := l.streams[id];
    :- Need(s.sender == sender, Unauthorized);
    :- Need(s.status == Active, NotActive);
    var vested := VestedAt(s, now);
    var toRecipient := vested - s.withdrawn;
    var toSender := s.total - vested;
    var held :- if toRecipient > 0 then PayTo(l.self, l.held, s.token, s.recipient, toRecipient) else Ok(l.held);
    var held' :- if toSender > 0 then PayTo(l.self, held, s.token, s.sender, toSender) else Ok(held);
    var p := Get(l.paid, id, (0, 0));
    Ok(l.(streams := l.streams[id := s.(status := Cancelled)], held := held',
          paid := l.paid[id := (p.0 + toRecipient, p.1 + toSender)]))
  }

  function AvailableToWithdraw(l: Ledger, id: nat, now: nat): Result<int> {
    if id !in l.streams then Err(NotFound) else
    var s := l.streams[id];
    if s.status != Active then Ok(0) else Ok(VestedAt(s, now) - s.withdrawn)
  }

  // --------------------------------------------------------------------- invariant

  /** What a stream still has to pay out. */
  function Outstanding(s: Stream): int {
    if s.status == Active then s.total - s.withdrawn else 0
  }

  ghost function OwedMap(streams: map<nat, Stream>, token: Address): map<nat, int> {
    map id | id in streams && streams[id].token == token :: Outstanding(streams[id])
  }

  /** What the contract owes in a token, over all streams. */
  ghost function Owed(streams: map<nat, Stream>, token: Address): int {
    Sum(OwedMap(streams, token))
  }

  /** A stream and what it paid: an active one paid its recipient what it withdrew, an ended one everything. */
  ghost predicate StreamGood(s: Stream, paid: (int, int), now: nat) {
    && WellFormed(s) && s.start <= now
    && (if s.status == Active
        then paid == (s.withdrawn, 0) && 0 <= s.withdrawn <= VestedAt(s, now) && s.withdrawn < s.total
        else paid.0 + paid.1 == s.total && 0 <= paid.0 && 0 <= paid.1)
  }

  ghost predicate Good(l: Ledger, now: nat) {
    && (forall id :: id in l.streams ==> id < l.counter && id in l.paid && StreamGood(l.streams[id], l.paid[id], now))
    && (forall t :: Owed(l.streams, t) <= Get(l.held, t, 0))
  }

  function EmptyLedger(self: Address): Ledger {
    Ledger(self, map[], 0, map[], map[])
  }

  lemma EmptyGood(self: Address)
    ensures Good(EmptyLedger(self), 0) && forall t :: Owed(map[], t) == 0
  {
    forall t ensures Owed(map[], t) == 0 {
      assert OwedMap(map[], t) == map[];
    }
  }

  lemma OwedUpdate(streams: map<nat, Stream>, id: nat, s: Stream, t: Address)
    requires id in streams ==> streams[id].token == s.token
    ensures var before := if id in streams then Outstanding(streams[id]) else 0;
            Owed(streams[id := s], t) == Owed(streams, t) + if t == s.token then Outstanding(s) - before else 0
  {
    var before, after := OwedMap(streams, t), OwedMap(streams[id := s], t);
    if t == s.token {
      SumUpdate(before, id, Outstanding(s));
      assert after == before[id := Outstanding(s)];
    } else {
      assert after == before;
    }
  }

  /** An active stream's outstanding amount is covered by what is owed in its token. */
  lemma OutstandingCovered(l: Ledger, now: nat, id: nat)
    requires Good(l, now) && id in l.streams && l.streams[id].status == Active
    ensures Outstanding(l.streams[id]) <= Get(l.held, l.streams[id].token, 0)
  {
    var s := l.streams[id];
    var m := OwedMap(l.streams, s.token);
    forall j | j in m ensures m[j] >= 0 {
      VestedWithin(l.streams[j], now);
    }
    SumAtLeast(m, id);
    assert Owed(l.streams, s.token) <= Get(l.held, s.token, 0);
  }

  lemma StreamGoodLater(s: Stream, paid: (int, int), now: nat, later: nat)
    requires StreamGood(s, paid, now) && now <= later
    ensures StreamGood(s, paid, later)
  {
    VestedMonotone(s, now, later);
  }

  lemma GoodLater(l: Ledger, now: nat, later: nat)
    requires Good(l, now) && now <= later
    ensures Good(l, later)
  {
    forall id | id in l.streams ensures StreamGood(l.streams[id], l.paid[id], later) {
      StreamGoodLater(l.streams[id], l.paid[id], now, later);
    }
  }

  /** What a stream created for `total` needs: somebody else's deposit, or tokens that the contract does not owe yet. */
  ghost predicate Funded(l: Ledger, sender: Address, token: Address, total: int) {
    sender == l.self ==> Owed(l.streams, token) + total <= Get(l.held, token, 0)
  }

  /** Creating a stream keeps the ledger good exactly when it is funded. */
  lemma CreateKeepsExact(l: Ledger, sender: Address, recipient: Address, token: Address, total: int, duration: nat,
                         now: nat, tokenOk: bool)
    requires Good(l, now) && now <= U64_MAX
    ensures var r := Create(l, sender, recipient, token, total, duration, now, tokenOk);
            r.Ok? ==> (Good(r.value, now) <==> Funded(l, sender, token, total))
  {
    var r := Create(l, sender, recipient, token, total, duration, now, tokenOk);
    if r.Ok? {
      var m, s := r.value, r.value.streams[l.counter];
      forall t ensures Owed(m.streams, t) == Owed(l.streams, t) + if t == token then total else 0 {
        OwedUpdate(l.streams, l.counter, s, t);
      }
      forall t ensures Owed(m.streams, t) <= Get(m.held, t, 0) <==> (t == token ==> Funded(l, sender, token, total)) {
        assert Owed(l.streams, t) <= Get(l.held, t, 0);
      }
      assert m.streams[l.counter].token == token;
    }
  }

  /**
   The losing case: right after a deposit of `total`, a stream created by the
   contract itself succeeds, and twice that amount is owed.
   */
  lemma SelfCreateLoses(self: Address, sender: Address, token: Address, total: int, now: nat)
    requires sender != self && 0 < total && now <= U64_MAX
    ensures var r := Create(EmptyLedger(self), sender, sender, token, total, 1, now, true);
            && r.Ok? && Good(r.value, now)
            && (var q := Create(r.value, self, sender, token, total, 1, now, true);
                && q.Ok? && Owed(q.value.streams, token) == 2 * total
                && Get(q.value.held, token, 0) == total && !Good(q.value, now))
  {
    var l := EmptyLedger(self);
    EmptyGood(self);
    var m := Create(l, sender, sender, token, total, 1, now, true).value;
    CreateKeepsExact(l, sender, sender, token, total, 1, now, true);
    OwedUpdate(l.streams, 0, m.streams[0], token);
    var n := Create(m, self, sender, token, total, 1, now, true).value;
    CreateKeepsExact(m, self, sender, token, total, 1, now, true);
    OwedUpdate(m.streams, 1, n.streams[1], token);
  }

  /** From `l` to `m`, at most `out` of one token was paid to others. */
  predicate HeldAtLeast(l: Ledger, m: Ledger, token: Address, out: int, t: Address) {
    Get(l.held, t, 0) - (if t == token then out else 0) <= Get(m.held, t, 0)
  }

  /** Replacing one stream and paying out what it no longer owes. */
  lemma ReplaceKeeps(l: Ledger, m: Ledger, id: nat, s: Stream, out: int, now: nat)
    requires Good(l, now) && id in l.streams && s.token == l.streams[id].token
    requires m.streams == l.streams[id := s] && m.counter == l.counter && m.paid.Keys == l.paid.Keys
    requires id in m.paid && StreamGood(s, m.paid[id], now)
    requires forall j :: j in l.paid && j != id ==> m.paid[j] == l.paid[j]
    requires out == Outstanding(l.streams[id]) - Outstanding(s)
    requires forall t :: HeldAtLeast(l, m, s.token, out, t)
    ensures Good(m, now)
  {
    forall t ensures Owed(m.streams, t) <= Get(m.held, t, 0) {
      OwedUpdate(l.streams, id, s, t);
      assert Owed(l.streams, t) <= Get(l.held, t, 0) && HeldAtLeast(l, m, s.token, out, t);
    }
  }

  /**
   A withdrawal never fails for lack of funds, and brings the total withdrawn to
   exactly what is vested now, however it was drawn before.
   */
  lemma WithdrawKeeps(l: Ledger, recipient: Address, id: nat, now: nat)
    requires Good(l, now)
    ensures var r := Withdraw(l, recipient, id, now);
            && r != Err(TransferFailed)
            && (r.Ok? ==>
                  && Good(r.value, now)
                  && r.value.streams[id].withdrawn == VestedAt(l.streams[id], now) == r.value.paid[id].0
                  && (r.value.streams[id].status == Completed <==> l.streams[id].end <= now)
                  && (l.streams[id].end <= now ==> r.value.paid[id] == (l.streams[id].total, 0)))
  {
    if id in l.streams && l.streams[id].status == Active {
      var s := l.streams[id];
      VestedWithin(s, now);
      OutstandingCovered(l, now, id);
      var r := Withdraw(l, recipient, id, now);
      if r.Ok? {
        var next := r.value.streams[id];
        ReplaceKeeps(l, r.value, id, next, VestedAt(s, now) - s.withdrawn, now);
      }
    }
  }

  /** The recipient can withdraw exactly when something is reported available, and receives exactly that. */
  lemma WithdrawPaysAvailable(l: Ledger, id: nat, now: nat)
    requires Good(l, now) && id in l.streams
    ensures var r, available := Withdraw(l, l.streams[id].recipient, id, now), AvailableToWithdraw(l, id, now);
            && available.Ok? && 0 <= available.value
            && (r.Ok? <==> 0 < available.value)
            && (r.Ok? ==> r.value.paid[id].0 == l.paid[id].0 + available.value)
  {
    WithdrawKeeps(l, l.streams[id].recipient, id, now);
  }

  /** The two transfers of a cancellation, together. */
  lemma CancelPays(l: Ledger, sender: Address, id: nat, now: nat, out: int)
    requires id in l.streams && l.streams[id].withdrawn <= VestedAt(l.streams[id], now) <= l.streams[id].total
    requires out == l.streams[id].total - l.streams[id].withdrawn <= Get(l.held, l.streams[id].token, 0)
    ensures var r, s := Cancel(l, sender, id, now), l.streams[id];
            && r != Err(TransferFailed)
            && (r.Ok? ==> forall t :: HeldAtLeast(l, r.value, s.token, out, t))
  {
  }

  /** What a cancellation writes: the status, and what each side was paid. */
  lemma CancelWrites(l: Ledger, sender: Address, id: nat, now: nat)
    requires id in l.paid && Cancel(l, sender, id, now).Ok?
    ensures var m, s, p := Cancel(l, sender, id, now).value, l.streams[id], l.paid[id];
            var q := (p.0 + VestedAt(s, now) - s.withdrawn, p.1 + s.total - VestedAt(s, now));
            && m.streams == l.streams[id := s.(status := Cancelled)] && m.counter == l.counter && m.self == l.self
            && m.paid == l.paid[id := q]
  {
  }

  lemma CancelledGood(l: Ledger, sender: Address, id: nat, now: nat, m: Ledger)
    requires Good(l, now) && id in l.streams && l.streams[id].status == Active && Cancel(l, sender, id, now) == Ok(m)
    requires forall t :: HeldAtLeast(l, m, l.streams[id].token, Outstanding(l.streams[id]), t)
    ensures Good(m, now) && id in m.paid
    ensures var vested := VestedAt(l.streams[id], now); m.paid[id] == (vested, l.streams[id].total - vested)
  {
    var s := l.streams[id];
    VestedWithin(s, now);
    CancelWrites(l, sender, id, now);
    ReplaceKeeps(l, m, id, s.(status := Cancelled), Outstanding(s), now);
  }

  /** Cancelling never fails for lack of funds and splits the whole deposit between recipient and sender. */
  lemma CancelKeeps(l: Ledger, sender: Address, id: nat, now: nat)
    requires Good(l, now)
    ensures var r := Cancel(l, sender, id, now);
            && r != Err(TransferFailed)
            && (r.Ok? ==>
                  && Good(r.value, now)
                  && (var vested := VestedAt(l.streams[id], now);
                      r.value.paid[id] == (vested, l.streams[id].total - vested)))
  {
    if id in l.streams && l.streams[id].status == Active {
      VestedWithin(l.streams[id], now);
      OutstandingCovered(l, now, id);
      CancelPays(l, sender, id, now, Outstanding(l.streams[id]));
      if Cancel(l, sender, id, now).Ok? {
        CancelledGood(l, sender, id, now, Cancel(l, sender, id, now).value);
      }
    }
  }

  // ----------------------------------------------------------------- linear vesting

  /**
   `vested` is what has vested of a stream by `now`: nothing up to its start, the
   whole deposit after its end, and in between the share of the time that has
   passed, cut to an integer.
   */
  predicate HasVested(s: Stream, now: nat, vested: int) {
    if now <= s.start then vested == 0
    else if now >= s.end then vested == s.total
    else vested * (s.end - s.start) <= s.total * (now - s.start) < (vested + 1) * (s.end - s.start)
  }

  lemma VestedLaw(s: Stream, now: nat, vested: int)
    requires WellFormed(s) && HasVested(s, now, vested)
    ensures VestedAt(s, now) == vested
  {
    VestedWithin(s, now);
    if s.start < now < s.end {
      MulNonNegative(s.total, now - s.start);
      QuotientIs(s.total * (now - s.start), s.end - s.start, vested);
    }
  }

  /**
   The answer of a withdrawal: the recipient of an active stream receives all that
   has vested and was not withdrawn before, if there is any, so that what it was
   paid in all is what has vested.
   */
  lemma WithdrawDecides(l: Ledger, recipient: Address, id: nat, now: nat, vested: int)
    requires Good(l, now) && (id in l.streams ==> HasVested(l.streams[id], now, vested))
    ensures var r := Withdraw(l, recipient, id, now);
            if id !in l.streams then r == Err(NotFound)
            else if l.streams[id].recipient != recipient then r == Err(Unauthorized)
            else if l.streams[id].status != Active then r == Err(NotActive)
            else if vested <= l.streams[id].withdrawn then r == Err(NothingToWithdraw)
            else
              && r.Ok? && id in r.value.paid && r.value.paid[id] == (vested, 0) && id in r.value.streams
              && r.value.streams[id] ==
                 l.streams[id].(withdrawn := vested, status := if now >= l.streams[id].end then Completed else Active)
              && (recipient != l.self ==>
                    Get(r.value.held, l.streams[id].token, 0) ==
                    Get(l.held, l.streams[id].token, 0) - (vested - l.streams[id].withdrawn))
  {
    if id in l.streams {
      VestedLaw(l.streams[id], now, vested);
      WithdrawKeeps(l, recipient, id, now);
    }
  }

  /**
   The answer of a cancellation: the sender of an active stream ends it, the
   recipient keeps what has vested, and the sender gets the rest.
   */
  lemma CancelDecides(l: Ledger, sender: Address, id: nat, now: nat, vested: int)
    requires Good(l, now) && (id in l.streams ==> HasVested(l.streams[id], now, vested))
    ensures var r := Cancel(l, sender, id, now);
            if id !in l.streams then r == Err(NotFound)
            else if l.streams[id].sender != sender then r == Err(Unauthorized)
            else if l.streams[id].status != Active then r == Err(NotActive)
            else
              && r.Ok? && id in r.value.paid && r.value.paid[id] == (vested, l.streams[id].total - vested)
              && id in r.value.streams && r.value.streams[id] == l.streams[id].(status := Cancelled)
  {
    if id in l.streams {
      VestedLaw(l.streams[id], now, vested);
      CancelKeeps(l, sender, id, now);
    }
  }

  /** What a new stream is: it starts now, ends after the duration, and nothing of it is withdrawn. */
  lemma CreateStores(l: Ledger, sender: Address, recipient: Address, token: Address, total: int, duration: nat,
                     now: nat, tokenOk: bool)
    ensures var r := Create(l, sender, recipient, token, total, duration, now, tokenOk);
            if total <= 0 then r == Err(InvalidAmount)
            else if duration == 0 then r == Err(InvalidDuration)
            else if (if sender == l.self then total > Get(l.held, token, 0) else !tokenOk) then r == Err(TransferFailed)
            else
              && r.Ok? && r.value.counter == l.counter + 1
              && (var end := if now + duration < 0x1_0000_0000_0000_0000 then now + duration else 0xFFFF_FFFF_FFFF_FFFF;
                  var s := Stream(sender, recipient, token, total, 0, now, end, Active);
                  r.value.streams == l.streams[l.counter := s])
              && (sender != l.self ==> Get(r.value.held, token, 0) == Get(l.held, token, 0) + total)
  {
  }

  // -------------------------------------------------------------------------- runs

  datatype Op =
    | Creating(sender: Address, recipient: Address, token: Address, total: int, duration: nat, tokenOk: bool)
    | Withdrawing(recipient: Address, id: nat)
    | Cancelling(sender: Address, id: nat)

  function Perform(l: Ledger, op: Op, now: nat): Result<Ledger> {
    match op
    case Creating(sender, recipient, token, total, duration, tokenOk) =>
      Create(l, sender, recipient, token, total, duration, now, tokenOk)
    case Withdrawing(recipient, id) => Withdraw(l, recipient, id, now)
    case Cancelling(sender, id) => Cancel(l, sender, id, now)
  }

  datatype Run = Run(states: seq<Ledger>, ops: seq<Op>, times: seq<nat>)

  ghost predicate IsStep(r: Run, i: int) {
    && 0 <= i < |r.ops| && |r.states| == |r.ops| + 1 && |r.times| == |r.ops|
    && r.states[i + 1] == (match Perform(r.states[i], r.ops[i], r.times[i]) case Ok(l) => l case Err(_) => r.states[i])
    && r.times[i] <= U64_MAX
    // the contract creates no stream for tokens that it already owes
    && (r.ops[i].Creating? ==> Funded(r.states[i], r.ops[i].sender, r.ops[i].token, r.ops[i].total))
    // the product `vested_at` forms fits its 128-bit type
    && (r.ops[i].Creating? ==> r.ops[i].total * r.ops[i].duration <= I128_MAX)
  }

  /** A run from an empty ledger under a clock that does not go back. */
  ghost predicate IsRun(r: Run) {
    && |r.states| == |r.ops| + 1 && |r.times| == |r.ops|
    && r.states[0] == EmptyLedger(r.states[0].self)
    && (forall i {:trigger IsStep(r, i)} :: 0 <= i < |r.ops| ==> IsStep(r, i))
    && (forall i, j :: 0 <= i <= j < |r.times| ==> r.times[i] <= r.times[j])
  }

  lemma StepKeeps(l: Ledger, op: Op, now: nat)
    requires Good(l, now) && now <= U64_MAX
    requires op.Creating? ==> Funded(l, op.sender, op.token, op.total)
    ensures var r := Perform(l, op, now); r.Ok? ==> Good(r.value, now)
  {
    match op
    case Creating(sender, recipient, token, total, duration, tokenOk) =>
      CreateKeepsExact(l, sender, recipient, token, total, duration, now, tokenOk);
    case Withdrawing(recipient, id) => WithdrawKeeps(l, recipient, id, now);
    case Cancelling(sender, id) => CancelKeeps(l, sender, id, now);
  }

  /**
   Over every run: the contract holds, per token, what its active streams still
   owe; an active stream has paid its recipient what was withdrawn; an ended
   stream has paid out exactly its deposit.
   */
  lemma {:induction false} RunGood(r: Run, i: nat)
    requires IsRun(r) && i <= |r.ops|
    ensures Good(r.states[i], if i == 0 then 0 else r.times[i - 1])
  {
    if i == 0 {
      EmptyGood(r.states[0].self);
    } else {
      RunGood(r, i - 1);
      assert IsStep(r, i - 1);
      GoodLater(r.states[i - 1], if i == 1 then 0 else r.times[i - 2], r.times[i - 1]);
      StepKeeps(r.states[i - 1], r.ops[i - 1], r.times[i - 1]);
    }
  }

  // --------------------------------------------------------------- the contract object

  /** The entrypoints in their own form: the stored stream is updated before the tokens move. */
  class Vesting {
    var ledger: Ledger

    constructor (self: Address)
      ensures ledger == EmptyLedger(self) && Good(ledger, 0)
    {
      ledger := EmptyLedger(self);
      EmptyGood(self);
    }

    /** The stream is stored before the deposit is taken; a refused deposit undoes it. */
    method CreateStream(sender: Address, recipient: Address, token: Address, total: int, duration: nat, now: nat,
                        tokenOk: bool) returns (r: Result<nat>)
      modifies this
      ensures match Create(old(ledger), sender, recipient, token, total, duration, now, tokenOk)
              case Ok(l) => ledger == l && r == Ok(old(ledger).counter)
              case Err(e) => ledger == old(ledger) && r == Err(e)
    {
      if total <= 0 {
        return Err(InvalidAmount);
      }
      if duration == 0 {
        return Err(InvalidDuration);
      }
      var saved, id := ledger, ledger.counter;
      var end := if now + duration <= U64_MAX then now + duration else U64_MAX;
      ledger := ledger.(counter := id + 1);
      ledger := ledger.(streams := ledger.streams[id := Stream(sender, recipient, token, total, 0, now, end, Active)]);
      ledger := ledger.(paid := ledger.paid[id := (0, 0)]);
      var held := Deposit(ledger.self, ledger.held, token, sender, total, tokenOk);
      if held.Err? {
        ledger := saved;
        return Err(held.error);
      }
      ledger := ledger.(held := held.value);
      return Ok(id);
    }

    /** Transfers tokens out of the contract. */
    method Pay(token: Address, to: Address, amount: int) returns (ok: bool)
      modifies this
      ensures ok <==> PayTo(ledger.self, old(ledger.held), token, to, amount).Ok?
      ensures !ok ==> ledger == old(ledger)
      ensures ok ==> ledger == old(ledger).(held := PayTo(ledger.self, old(ledger.held), token, to, amount).value)
    {
      ok := amount <= Get(ledger.held, token, 0);
      if ok && to != ledger.self {
        ledger := ledger.(held := ledger.held[token := Get(ledger.held, token, 0) - amount]);
      }
    }

    method WithdrawVested(recipient: Address, id: nat, now: nat) returns (r: Result<int>)
      modifies this
      ensures match Withdraw(old(ledger), recipient, id, now)
              case Ok(l) =>
                var s := old(ledger).streams[id];
                ledger == l && r == Ok(VestedAt(s, now) - s.withdrawn)
              case Err(e) => ledger == old(ledger) && r == Err(e)
    {
      var saved := ledger;
      if id !in ledger.streams {
        return Err(NotFound);
      }
      var stream := ledger.streams[id];
      if stream.recipient != recipient {
        return Err(Unauthorized);
      }
      if stream.status != Active {
        return Err(NotActive);
      }
      var available := VestedAt(stream, now) - stream.withdrawn;
      if available <= 0 {
        return Err(NothingToWithdraw);
      }
      stream := stream.(withdrawn := stream.withdrawn + available);
      if now >= stream.end {
        stream := stream.(status := Completed);
      }
      ledger := ledger.(streams := ledger.streams[id := stream]);
      var ok := Pay(stream.token, recipient, available);
      if !ok {
        ledger := saved;
        return Err(TransferFailed);
      }
      var p := Get(ledger.paid, id, (0, 0));
      ledger := ledger.(paid := ledger.paid[id := (p.0 + available, p.1)]);
      return Ok(available);
    }

    method CancelStream(sender: Address, id: nat, now: nat) returns (r: Result<()>)
      modifies this
      ensures match Cancel(old(ledger), sender, id, now)
              case Ok(l) => ledger == l && r == Ok(())
              case Err(e) => ledger == old(ledger) && r == Err(e)
    {
      var saved := ledger;
      if id !in ledger.streams {
        return Err(NotFound);
      }
      var stream := ledger.streams[id];
      if stream.sender != sender {
        return Err(Unauthorized);
      }
      if stream.status != Active {
        return Err(NotActive);
      }
      var vested := VestedAt(stream, now);
      var toRecipient, toSender := vested - stream.withdrawn, stream.total - vested;
      ledger := ledger.(streams := ledger.streams[id := stream.(status := Cancelled)]);
      var ok := true;
      if toRecipient > 0 {
        ok := Pay(stream.token, stream.recipient, toRecipient);
      }
      if ok && toSender > 0 {
        ok := Pay(stream.token, sender, toSender);
      }
      if !ok {
        ledger := saved;
        return Err(TransferFailed);
      }
      var p := Get(ledger.paid, id, (0, 0));
      ledger := ledger.(paid := ledger.paid[id := (p.0 + toRecipient, p.1 + toSender)]);
      return Ok(());
    }
  }
}
