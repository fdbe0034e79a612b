/**
 What the guard decides. Over every run each attempt is admitted or refused exactly
 as the history of admitted tips says: what was admitted in each window that is
 still open is compared with its limit, and the first limit exceeded names the
 halt.
 */
module GuardDecision {
  import opened Host
  import opened Arithmetic
  import opened CircuitBreaker
  import opened CircuitBreakerSafety

  // ------------------------------------------------------- what a run has admitted

  function Length(c: Counter): nat {
    match c
    case Volume(OneMinute) => 60
    case Volume(FiveMinutes) => 300
    case Volume(OneHour) => 3600
    case Volume(TwentyFourHours) => 86400
    case TipRate => 60
  }

  /** What a tip adds to a counter: its amount, or one. */
  function Adds(c: Counter, a: Attempt): int {
    if c.Volume? then a.amount else 1
  }

  /** A counter's window: the time it was opened and what was admitted in it since. */
  datatype Meter = Closed | Open(start: nat, total: int)

  /** Attempt `i` was refused and halted the guard. */
  predicate Halts(r: Run, i: nat)
    requires i < |r.attempts| && |r.states| == |r.attempts| + 1 && |r.admitted| == |r.attempts|
  {
    !r.admitted[i] && r.states[i + 1] != r.states[i]
  }

  /** The window before attempt `i`: an admitted tip joins it or opens the next one, and a halt closes it. */
  function MeterAt(c: Counter, r: Run, i: nat): Meter
    requires i <= |r.attempts| && |r.states| == |r.attempts| + 1 && |r.admitted| == |r.attempts|
  {
    if i == 0 then (if r.states[0].Some? then Open(r.begun, 0) else Closed) else
      var m, a := MeterAt(c, r, i - 1), r.attempts[i - 1];
      if r.admitted[i - 1] then
        if m.Open? && a.now < m.start + Length(c) then Open(m.start, m.total + Adds(c, a)) else Open(a.now, Adds(c, a))
      else if Halts(r, i - 1) then Closed else m
  }

  /** What was admitted in the window still open at attempt `i`, or nothing. */
  function Live(c: Counter, r: Run, i: nat): int
    requires i < |r.attempts| && |r.states| == |r.attempts| + 1 && |r.admitted| == |r.attempts|
  {
    var m := MeterAt(c, r, i);
    if m.Open? && r.attempts[i].now < m.start + Length(c) then m.total else 0
  }

  /** How often the run has halted before attempt `i`. */
  function Triggers(r: Run, i: nat): nat
    requires i <= |r.attempts| && |r.states| == |r.attempts| + 1 && |r.admitted| == |r.attempts|
  {
    if i == 0 then 0 else Triggers(r, i - 1) + if Halts(r, i - 1) then 1 else 0
  }

  /** The anomaly confidence that is stored, if any. */
  function Confidence(stored: Option<State>): Option<nat> {
    if stored.Some? && stored.value.anomaly.Some? then Some(stored.value.anomaly.value.confidence) else None
  }

  // ------------------------------------------------------------------- the reference

  /** A count above its limit; one that can count no further than the limit is never above it. */
  predicate Above(total: int, limit: int, most: int) {
    total > limit && limit < most
  }

  /** The first limit that a tip exceeds, with what it halts the guard for. */
  function Cause(cfg: Config, amount: int, tips: int, one: int, five: int, hour: int, day: int, confidence: Option<nat>)
    : Option<Trigger>
  {
    if amount > cfg.maxSingleTip then Some(Trigger(SingleTipSpike, High))
    else if Above(2 * tips + 1, cfg.maxTipsPerMinute, 0xFFFF_FFFF) then Some(Trigger(RateLimit, Medium))
    else if Above(one, cfg.oneMinute, I128_MAX) then Some(Trigger(VolumeSpike(OneMinute), Critical))
    else if Above(five, cfg.fiveMinutes, I128_MAX) then Some(Trigger(VolumeSpike(FiveMinutes), High))
    else if Above(hour, cfg.oneHour, I128_MAX) then Some(Trigger(VolumeSpike(OneHour), Medium))
    else if Above(day, cfg.twentyFourHours, I128_MAX) then Some(Trigger(VolumeSpike(TwentyFourHours), Low))
    else if cfg.anomalyEnabled && confidence.Some? && confidence.value > cfg.anomalyThreshold then
      Some(Trigger(AnomalyDetection,
                   if confidence.value > 9000 then Critical else if confidence.value > 8000 then High else Medium))
    else None
  }

  function CauseAt(cfg: Config, r: Run, i: nat): Option<Trigger>
    requires i < |r.attempts| && |r.states| == |r.attempts| + 1 && |r.admitted| == |r.attempts|
  {
    Cause(cfg, r.attempts[i].amount, Live(TipRate, r, i),
          Live(Volume(OneMinute), r, i), Live(Volume(FiveMinutes), r, i),
          Live(Volume(OneHour), r, i), Live(Volume(TwentyFourHours), r, i), Confidence(r.states[0]))
  }

  // ---------------------------------------------------------------------- invariant

  /** What the stored state says of a counter is what the run admitted. */
  predicate Metered(c: Counter, stored: Option<State>, m: Meter, now: nat) {
    if stored.None? || stored.value.haltedUntil > 0 then m == Closed
    else m.Open? && m.start == StartOf(c, stored.value) <= now && 0 <= m.total && Reads(c, stored.value, m.total)
  }

  /** The same of the state that an attempt starts from. */
  predicate MeteredNow(c: Counter, s: State, m: Meter, now: nat) {
    var start, total := if m.Open? then m.start else now, if m.Open? then m.total else 0;
    StartOf(c, s) == start <= now && 0 <= total && Reads(c, s, total)
  }

  lemma CurrentMetered(c: Counter, stored: Option<State>, m: Meter, before: nat, now: nat)
    requires Metered(c, stored, m, before) && before <= now && Current(stored, now).haltedUntil == 0
    ensures MeteredNow(c, Current(stored, now), m, now)
  {
  }

  lemma VolumeUpdates(tw: TimeWindow, s: State, next: State, m: Meter, a: Attempt)
    requires MeteredNow(Volume(tw), s, m, a.now) && a.now + Duration(tw) <= U64_MAX && 0 < a.amount <= I128_MAX
    requires next.Of(tw) == UpdateWindow(s.Of(tw), a.amount, a.now, Duration(tw)) && next.haltedUntil == 0
    ensures var n := if m.Open? && a.now < m.start + Length(Volume(tw)) then Open(m.start, m.total + a.amount)
                     else Open(a.now, a.amount);
            Metered(Volume(tw), Some(next), n, a.now)
  {
  }

  lemma TipUpdates(s: State, next: State, m: Meter, a: Attempt)
    requires MeteredNow(TipRate, s, m, a.now) && a.now + 60 <= U64_MAX
    requires next.rate == UpdateRate(UpdateRate(s.rate, a.now), a.now) && next.haltedUntil == 0
    ensures var n := if m.Open? && a.now < m.start + 60 then Open(m.start, m.total + 1) else Open(a.now, 1);
            Metered(TipRate, Some(next), n, a.now)
  {
  }

  lemma {:induction false} RunMetered(c: Counter, cfg: Config, r: Run, i: nat)
    requires cfg.Validate() && cfg.enabled && IsRun(cfg, r) && i <= |r.attempts|
    ensures Metered(c, r.states[i], MeterAt(c, r, i), Clock(r, i))
  {
    if i > 0 {
      RunMetered(c, cfg, r, i - 1);
      assert IsStep(cfg, r, i - 1);
      var stored, a, m := r.states[i - 1], r.attempts[i - 1], MeterAt(c, r, i - 1);
      if r.admitted[i - 1] {
        AdmissionFacts(cfg, stored, a.amount, a.now);
        CurrentMetered(c, stored, m, Clock(r, i - 1), a.now);
        var s, next := Current(stored, a.now), r.states[i].value;
        if c.Volume? {
          VolumeUpdates(c.tw, s, next, m, a);
        } else {
          TipUpdates(s, next, m, a);
        }
      } else {
        RefusalFacts(cfg, stored, a.amount, a.now);
      }
    }
  }

  lemma CheckKeepsConfidence(cfg: Config, stored: Option<State>, amount: int, now: nat)
    ensures var next := Check(cfg, stored, amount, now).0;
            Confidence(next) == Confidence(stored)
  {
  }

  lemma {:induction false} SameConfidence(cfg: Config, r: Run, i: nat)
    requires IsRun(cfg, r) && i <= |r.attempts|
    ensures Confidence(r.states[i]) == Confidence(r.states[0])
  {
    if i > 0 {
      SameConfidence(cfg, r, i - 1);
      assert IsStep(cfg, r, i - 1);
      CheckKeepsConfidence(cfg, r.states[i - 1], r.attempts[i - 1].amount, r.attempts[i - 1].now);
    }
  }

  /** How many triggers a stored state has counted. */
  function Counted(stored: Option<State>): nat {
    if stored.Some? then stored.value.triggerCount else 0
  }

  lemma CheckCounts(cfg: Config, stored: Option<State>, amount: int, now: nat)
    requires cfg.Validate() && cfg.enabled && now < U64_MAX
    ensures var (next, admitted) := Check(cfg, stored, amount, now);
            Counted(next) == AddCount(Counted(stored), if !admitted && next != stored then 1 else 0) ||
            Counted(stored) > U32_MAX
  {
    if !Check(cfg, stored, amount, now).1 {
      RefusalFacts(cfg, stored, amount, now);
    }
  }

  lemma {:induction false} CountsTriggers(cfg: Config, r: Run, i: nat)
    requires cfg.Validate() && cfg.enabled && IsRun(cfg, r) && i <= |r.attempts|
    ensures Counted(r.states[i]) == Min(Triggers(r, i), U32_MAX)
  {
    if i > 0 {
      CountsTriggers(cfg, r, i - 1);
      assert IsStep(cfg, r, i - 1);
      CheckCounts(cfg, r.states[i - 1], r.attempts[i - 1].amount, r.attempts[i - 1].now);
    }
  }

  // ----------------------------------------------------------------------- decision

  /** One window of the state an attempt starts from exceeds its threshold exactly when the run says so. */
  lemma ExceededExact(tw: TimeWindow, s: State, m: Meter, threshold: int, now: nat)
    requires MeteredNow(Volume(tw), s, m, now) && now + Duration(tw) <= U64_MAX && 0 < threshold
    ensures var live := if m.Open? && now < m.start + Length(Volume(tw)) then m.total else 0;
            Exceeded(s.Of(tw), threshold, now, Duration(tw)) <==> Above(live, threshold, I128_MAX)
  {
  }

  lemma RateExact(cfg: Config, s: State, m: Meter, now: nat)
    requires MeteredNow(TipRate, s, m, now) && now + 60 <= U64_MAX && 0 < cfg.maxTipsPerMinute
    ensures var live := if m.Open? && now < m.start + 60 then m.total else 0;
            RateExceeded(UpdateRate(s.rate, now), cfg, now) <==> Above(2 * live + 1, cfg.maxTipsPerMinute, U32_MAX)
  {
  }

  /** The checks in order find exactly the first limit exceeded. */
  lemma SequenceFinds(cfg: Config, s: State, amount: int, now: nat, tips: int, one: int, five: int, hour: int, day: int)
    requires RateExceeded(UpdateRate(s.rate, now), cfg, now) <==> Above(2 * tips + 1, cfg.maxTipsPerMinute, U32_MAX)
    requires Exceeded(s.one, cfg.oneMinute, now, 60) <==> Above(one, cfg.oneMinute, I128_MAX)
    requires Exceeded(s.five, cfg.fiveMinutes, now, 300) <==> Above(five, cfg.fiveMinutes, I128_MAX)
    requires Exceeded(s.hour, cfg.oneHour, now, 3600) <==> Above(hour, cfg.oneHour, I128_MAX)
    requires Exceeded(s.day, cfg.twentyFourHours, now, 86400) <==> Above(day, cfg.twentyFourHours, I128_MAX)
    ensures CheckSequence(s, cfg, amount, now).1 == Cause(cfg, amount, tips, one, five, hour, day, Confidence(Some(s)))
  {
  }

  lemma SequenceAt(cfg: Config, r: Run, i: nat, s: State)
    requires cfg.Validate() && cfg.enabled && IsRun(cfg, r) && i < |r.attempts|
    requires s == Current(r.states[i], r.attempts[i].now) && s.haltedUntil == 0
    ensures CheckSequence(s, cfg, r.attempts[i].amount, r.attempts[i].now).1 == CauseAt(cfg, r, i)
  {
    assert IsStep(cfg, r, i);
    var now := r.attempts[i].now;
    forall c: Counter ensures MeteredNow(c, s, MeterAt(c, r, i), now) {
      RunMetered(c, cfg, r, i);
      CurrentMetered(c, r.states[i], MeterAt(c, r, i), Clock(r, i), now);
    }
    RateExact(cfg, s, MeterAt(TipRate, r, i), now);
    forall tw: TimeWindow
      ensures Exceeded(s.Of(tw), cfg.Threshold(tw), now, Duration(tw)) <==>
              Above(Live(Volume(tw), r, i), cfg.Threshold(tw), I128_MAX)
    {
      ExceededExact(tw, s, MeterAt(Volume(tw), r, i), cfg.Threshold(tw), now);
    }
    assert s.one == s.Of(OneMinute) && s.five == s.Of(FiveMinutes);
    assert s.hour == s.Of(OneHour) && s.day == s.Of(TwentyFourHours);
    SequenceFinds(cfg, s, r.attempts[i].amount, now, Live(TipRate, r, i), Live(Volume(OneMinute), r, i),
                  Live(Volume(FiveMinutes), r, i), Live(Volume(OneHour), r, i), Live(Volume(TwentyFourHours), r, i));
    SameConfidence(cfg, r, i);
  }

  /** A halt is running or maintenance is on. */
  predicate Blocked(cfg: Config, stored: Option<State>, now: nat) {
    cfg.maintenance || (stored.Some? && stored.value.haltedUntil > now)
  }

  /** What a trigger stores. */
  lemma RefusalStores(cfg: Config, stored: Option<State>, amount: int, now: nat)
    requires cfg.Validate() && cfg.enabled && !Blocked(cfg, stored, now) && now < U64_MAX
    ensures var s := Current(stored, now);
            var (next, admitted) := Check(cfg, stored, amount, now);
            var trigger := CheckSequence(s, cfg, amount, now).1;
            && s.haltedUntil == 0 && (admitted <==> trigger.None?)
            && (trigger.Some? ==>
                  && next.Some? && next != stored
                  && next.value.reason == trigger.value.reason && next.value.severity == trigger.value.severity
                  && next.value.lastTrigger == now && next.value.totalHalts == AddCount(s.totalHalts, 1)
                  && next.value.totalHaltDuration ==
                     AddTime(s.totalHaltDuration, Cooldown(cfg, trigger.value.severity, Counted(stored)))
                  && next.value.haltedUntil == AddTime(now, Cooldown(cfg, trigger.value.severity, Counted(stored))))
  {
    var s := Current(stored, now);
    var trigger := CheckSequence(s, cfg, amount, now).1;
    if trigger.Some? {
      CooldownBounds(cfg, trigger.value.severity, Counted(stored));
    }
  }

  /**
   The decision, at every attempt of every run. While a halt runs or maintenance is
   on, the attempt is refused and nothing changes. Otherwise it is admitted exactly
   when no limit is exceeded by what the run has admitted; and the first one that
   is halts the guard, for the cooldown of its severity and of the number of
   earlier halts.
   */
  lemma GuardDecides(cfg: Config, r: Run, i: nat)
    requires cfg.Validate() && cfg.enabled && IsRun(cfg, r) && i < |r.attempts|
    ensures Blocked(cfg, r.states[i], r.attempts[i].now) ==> !r.admitted[i] && r.states[i + 1] == r.states[i]
    ensures !Blocked(cfg, r.states[i], r.attempts[i].now) ==> (r.admitted[i] <==> CauseAt(cfg, r, i).None?)
    ensures !Blocked(cfg, r.states[i], r.attempts[i].now) && CauseAt(cfg, r, i).Some? ==>
              && Halts(r, i) && r.states[i + 1].Some?
              && (var t, s := CauseAt(cfg, r, i).value, r.states[i + 1].value;
                  && s.reason == t.reason && s.severity == t.severity && s.lastTrigger == r.attempts[i].now
                  && s.haltedUntil ==
                     AddTime(r.attempts[i].now, Cooldown(cfg, t.severity, Min(Triggers(r, i), U32_MAX))))
  {
    assert IsStep(cfg, r, i);
    var stored, a := r.states[i], r.attempts[i];
    if !Blocked(cfg, stored, a.now) {
      var s := Current(stored, a.now);
      SequenceAt(cfg, r, i, s);
      CountsTriggers(cfg, r, i);
      RefusalStores(cfg, stored, a.amount, a.now);
    }
  }

  // ---------------------------------------------------------------------- statistics

  /** What a window records beside its volume: tips, the largest tip, and senders only of a new window. */
  lemma WindowStatistics(w: Window, amount: int, now: nat, duration: nat)
    requires w.start + duration <= U64_MAX
    ensures var n := UpdateWindow(w, amount, now, duration);
            if now < w.start + duration
            then && n.tips == (if w.tips < 0xFFFF_FFFF then w.tips + 1 else 0xFFFF_FFFF) && n.senders == w.senders
                 && n.maxTip == (if amount > w.maxTip then amount else w.maxTip)
            else n == Window(now, amount, 1, 1, amount)
    requires w.tips <= 0xFFFF_FFFF
  {
  }

  /**
   The moving average of the amounts, while it fits 128 bits, and the score of an
   amount: 0 up to two standard deviations from the average, all 10,000 from three,
   and in between in proportion.
   */
  lemma AnomalyLaw(a: Anomaly, amount: int, now: nat, average: int, z: int)
    requires a.samples < 0xFFFF_FFFF && 0 <= a.average * a.samples && 0 <= amount
    requires a.average * a.samples + amount <= I128_MAX
    requires IsCut(average, a.average * a.samples + amount, a.samples + 1) && 0 <= a.deviation
    requires a.deviation > 0 ==>
               IsCut(z, (if amount > average then amount - average else average - amount) * 100, a.deviation)
    ensures var n := UpdateAnomaly(a, amount, now);
            && n.average == average && n.samples == a.samples + 1 && n.lastUpdate == now && n.lastAnalysis == now
            && n.confidence == a.confidence && n.deviation == a.deviation
            && n.amountScore ==
               if a.deviation == 0 || average == 0 || z <= 200 then 0 else if z > 300 then 10000 else (z - 200) * 100
  {
    CutUnique(average, a.average * a.samples + amount, a.samples + 1);
    if a.deviation > 0 {
      CutUnique(z, (if amount > average then amount - average else average - amount) * 100, a.deviation);
    }
  }

  /** The statistics take in exactly the tips that pass all limits before the anomaly check. */
  lemma AnomalyFollows(cfg: Config, stored: Option<State>, amount: int, now: nat)
    requires cfg.Validate() && cfg.enabled && !Blocked(cfg, stored, now) && stored.Some? && stored.value.anomaly.Some?
    ensures var trigger := CheckSequence(Current(stored, now), cfg, amount, now).1;
            var next := Check(cfg, stored, amount, now).0;
            && next.Some? && next.value.anomaly.Some?
            && next.value.anomaly.value ==
               if cfg.anomalyEnabled && (trigger.None? || trigger.value.reason.AnomalyDetection?)
               then UpdateAnomaly(stored.value.anomaly.value, amount, now) else stored.value.anomaly.value
  {
  }
}
