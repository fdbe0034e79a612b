/**
 The guard of the enhanced circuit breaker: tumbling volume windows, a rate
 limit, halts with exponential backoff, and automatic recovery. The configuration
 is fixed for a run; a refused tip commits its state like an admitted one.
 */
module CircuitBreaker {
  import opened Host

  const U32_MAX: nat := 0xFFFF_FFFF

  // ------------------------------------------------------------------ arithmetic

  function Min(a: int, b: int): int { if a < b then a else b }

  function Max(a: int, b: int): int { if a > b then a else b }

  /** `i128::saturating_add` of a non-negative amount. */
  function AddVolume(a: int, b: int): int {
    Min(a + b, I128_MAX)
  }

  function AddTime(a: nat, b: nat): (r: nat) {
    Min(a + b, U64_MAX)
  }

  function AddCount(a: nat, b: nat): (r: nat) {
    Min(a + b, U32_MAX)
  }

  // ------------------------------------------------------------------------ data

  datatype TimeWindow = OneMinute | FiveMinutes | OneHour | TwentyFourHours

  datatype TriggerType = NoTrigger | SingleTipSpike | VolumeSpike(window: TimeWindow) | RateLimit | AnomalyDetection

  datatype Severity = NoSeverity | Low | Medium | High | Critical

  datatype Config = Config(
    maxSingleTip: int,
    oneMinute: int,
    fiveMinutes: int,
    oneHour: int,
    twentyFourHours: int,
    maxTipsPerMinute: nat,
    maxTipsPerCreatorPerMin: nat,
    anomalyEnabled: bool,
    anomalyThreshold: nat,
    baseCooldown: nat,
    maxCooldown: nat,
    backoffEnabled: bool,
    backoffMultiplier: nat,
    enabled: bool,
    maintenance: bool)
  {
    predicate Validate() {
      && maxSingleTip > 0
      && 0 < oneMinute <= fiveMinutes <= oneHour <= twentyFourHours
      && maxTipsPerMinute != 0 && maxTipsPerCreatorPerMin != 0
      && anomalyThreshold <= 10000
      && 0 < baseCooldown <= maxCooldown
      && (backoffEnabled ==> backoffMultiplier > 10000)
    }

    function Threshold(tw: TimeWindow): int {
      match tw
      case OneMinute => oneMinute
      case FiveMinutes => fiveMinutes
      case OneHour => oneHour
      case TwentyFourHours => twentyFourHours
    }
  }

  /** `EnhancedCircuitBreakerConfig::default_config`. */
  const DEFAULT_CONFIG: Config := Config(
    1_000_000_000,
    10_000_000_000, 40_000_000_000, 200_000_000_000, 2_000_000_000_000,
    1000, 100,
    true, 7500,
    300, 86400,
    true, 15000,
    true, false)

  function Duration(tw: TimeWindow): nat {
    match tw
    case OneMinute => 60
    case FiveMinutes => 300
    case OneHour => 3600
    case TwentyFourHours => 86400
  }

  datatype Window = Window(start: nat, volume: int, tips: nat, senders: nat, maxTip: int)

  datatype Rate = Rate(start: nat, tips: nat)

  /** What the guard reads and writes of anomaly tracking. It never recomputes the confidence. */
  datatype Anomaly = Anomaly(
    average: int,
    deviation: int,
    samples: nat,
    lastUpdate: nat,
    amountScore: nat,
    confidence: nat,
    lastAnalysis: nat)

  datatype State = State(
    haltedUntil: nat,
    reason: TriggerType,
    severity: Severity,
    one: Window,
    five: Window,
    hour: Window,
    day: Window,
    rate: Rate,
    triggerCount: nat,
    lastTrigger: nat,
    anomaly: Option<Anomaly>,
    totalHalts: nat,
    totalHaltDuration: nat)
  {
    function Of(tw: TimeWindow): Window {
      match tw
      case OneMinute => one
      case FiveMinutes => five
      case OneHour => hour
      case TwentyFourHours => day
    }
  }

  function FreshWindow(now: nat): Window {
    Window(now, 0, 0, 0, 0)
  }

  function FreshState(now: nat): State {
    State(0, NoTrigger, NoSeverity, FreshWindow(now), FreshWindow(now), FreshWindow(now), FreshWindow(now),
          Rate(now, 0), 0, 0, None, 0, 0)
  }

  // -------------------------------------------------------------------- cooldown

  function SeverityCooldown(cfg: Config, severity: Severity): nat {
    match severity
    case NoSeverity => cfg.baseCooldown / 2
    case Low => cfg.baseCooldown / 2
    case Medium => cfg.baseCooldown
    // `u64` multiplication in a release build wraps
    case High => (cfg.baseCooldown * 2) % (U64_MAX + 1)
    case Critical => (cfg.baseCooldown * 4) % (U64_MAX + 1)
  }

  /** One round of backoff: a saturating product, then basis points. */
  function Escalate(cooldown: nat, multiplier: nat): nat {
    Min(cooldown * multiplier, U64_MAX) / 10000
  }

  function Backoff(cooldown: nat, multiplier: nat, rounds: nat): nat {
    if rounds == 0 then cooldown else Escalate(Backoff(cooldown, multiplier, rounds - 1), multiplier)
  }

  function Cooldown(cfg: Config, severity: Severity, triggerCount: nat): nat {
    var base := SeverityCooldown(cfg, severity);
    var adjusted := if cfg.backoffEnabled && triggerCount > 0
                    then Backoff(base, cfg.backoffMultiplier, Min(triggerCount, 5)) else base;
    Max(Min(adjusted, cfg.maxCooldown), cfg.baseCooldown)
  }

  method CalculateCooldown(cfg: Config, severity: Severity, triggerCount: nat) returns (cooldown: nat)
    ensures cooldown == Cooldown(cfg, severity, triggerCount)
  {
    cooldown := SeverityCooldown(cfg, severity);
    if cfg.backoffEnabled && triggerCount > 0 {
      var rounds := if triggerCount < 5 then triggerCount else 5;
      var adjusted := cooldown;
      for i := 0 to rounds
        invariant adjusted == Backoff(cooldown, cfg.backoffMultiplier, i)
      {
        adjusted := Min(adjusted * cfg.backoffMultiplier, U64_MAX) / 10000;
      }
      cooldown := adjusted;
    }
    cooldown := if cooldown > cfg.maxCooldown then cfg.maxCooldown else cooldown;
    cooldown := if cooldown < cfg.baseCooldown then cfg.baseCooldown else cooldown;
  }

  lemma CooldownBounds(cfg: Config, severity: Severity, triggerCount: nat)
    requires cfg.baseCooldown <= cfg.maxCooldown
    ensures cfg.baseCooldown <= Cooldown(cfg, severity, triggerCount) <= cfg.maxCooldown
  {
  }

  /** Each number is the one before times the multiplier in basis points, cut to an integer; products saturate. */
  ghost predicate BacksOff(rounds: seq<nat>, multiplier: nat) {
    forall k {:trigger rounds[k]} :: 0 <= k < |rounds| - 1 ==>
      rounds[k + 1] * 10000 <= Min(rounds[k] * multiplier, U64_MAX) < (rounds[k + 1] + 1) * 10000
  }

  lemma {:induction false} BackoffLaw(rounds: seq<nat>, multiplier: nat, k: nat)
    requires k < |rounds| && BacksOff(rounds, multiplier)
    ensures Backoff(rounds[0], multiplier, k) == rounds[k]
  {
    if k > 0 {
      BackoffLaw(rounds, multiplier, k - 1);
      assert rounds[k - 1] >= 0 && rounds[k - 1 + 1] == rounds[k];
    }
  }

  /** The halt before backoff: half, one, two or four times the base cooldown, in 64 bits. */
  predicate StartsFrom(cfg: Config, severity: Severity, first: nat) {
    match severity
    case NoSeverity => first == cfg.baseCooldown / 2
    case Low => first == cfg.baseCooldown / 2
    case Medium => first == cfg.baseCooldown
    case High => first == (2 * cfg.baseCooldown) % 0x1_0000_0000_0000_0000
    case Critical => first == (4 * cfg.baseCooldown) % 0x1_0000_0000_0000_0000
  }

  /** Kept between the base and the maximum. */
  function Within(cfg: Config, cooldown: nat): nat {
    if cooldown < cfg.baseCooldown then cfg.baseCooldown
    else if cooldown > cfg.maxCooldown then cfg.maxCooldown else cooldown
  }

  lemma StartIs(cfg: Config, severity: Severity, first: nat)
    requires StartsFrom(cfg, severity, first)
    ensures SeverityCooldown(cfg, severity) == first
  {
  }

  /** How long a halt lasts: backed off once per earlier trigger, but at most five times. */
  lemma CooldownLaw(cfg: Config, severity: Severity, triggers: nat, rounds: seq<nat>)
    requires cfg.baseCooldown <= cfg.maxCooldown && |rounds| == 6 && StartsFrom(cfg, severity, rounds[0])
    requires cfg.backoffEnabled ==> BacksOff(rounds, cfg.backoffMultiplier)
    ensures !cfg.backoffEnabled ==> Cooldown(cfg, severity, triggers) == Within(cfg, rounds[0])
    ensures cfg.backoffEnabled && triggers <= 5 ==> Cooldown(cfg, severity, triggers) == Within(cfg, rounds[triggers])
    ensures cfg.backoffEnabled && triggers > 5 ==> Cooldown(cfg, severity, triggers) == Within(cfg, rounds[5])
  {
    StartIs(cfg, severity, rounds[0]);
    if cfg.backoffEnabled {
      BackoffLaw(rounds, cfg.backoffMultiplier, Min(triggers, 5));
      BackoffLaw(rounds, cfg.backoffMultiplier, 0);
    }
  }

  // ------------------------------------------------------------- repeated triggers

  /** The most a saturated round of backoff can yield. */
  const BACKOFF_CAP: nat := U64_MAX / 10000

  lemma ProductAtLeast(c: nat, multiplier: nat)
    requires multiplier > 10000
    ensures c * multiplier >= 10000 * c + c
  {
    var extra := multiplier - 10001;
    assert c * multiplier == c * 10001 + c * extra && c * extra >= 0;
  }

  /** At or below the cap a round of backoff never shortens; above it, it falls to the cap. */
  lemma EscalateGrows(cooldown: nat, multiplier: nat)
    requires multiplier > 10000
    ensures cooldown <= BACKOFF_CAP ==> cooldown <= Escalate(cooldown, multiplier) <= BACKOFF_CAP
    ensures cooldown >= BACKOFF_CAP ==> Escalate(cooldown, multiplier) == BACKOFF_CAP
  {
    ProductAtLeast(cooldown, multiplier);
  }

  lemma {:induction false} BackoffGrows(cooldown: nat, multiplier: nat, m: nat, n: nat)
    requires multiplier > 10000 && m <= n && cooldown <= BACKOFF_CAP
    ensures Backoff(cooldown, multiplier, m) <= Backoff(cooldown, multiplier, n) <= BACKOFF_CAP
    decreases n
  {
    if m < n {
      BackoffGrows(cooldown, multiplier, m, n - 1);
      EscalateGrows(Backoff(cooldown, multiplier, n - 1), multiplier);
    } else if n > 0 {
      BackoffGrows(cooldown, multiplier, n - 1, n - 1);
      EscalateGrows(Backoff(cooldown, multiplier, n - 1), multiplier);
    }
  }

  /** Above the cap every number of rounds ends at the cap. */
  lemma {:induction false} BackoffFalls(cooldown: nat, multiplier: nat, n: nat)
    requires multiplier > 10000 && cooldown >= BACKOFF_CAP && n > 0
    ensures Backoff(cooldown, multiplier, n) == BACKOFF_CAP
  {
    if n == 1 {
      assert Backoff(cooldown, multiplier, 0) == cooldown;
    } else {
      BackoffFalls(cooldown, multiplier, n - 1);
    }
    EscalateGrows(Backoff(cooldown, multiplier, n - 1), multiplier);
  }

  /** The first halt of this severity is longer than every later one. */
  predicate Shortens(cfg: Config, severity: Severity) {
    && cfg.backoffEnabled && SeverityCooldown(cfg, severity) > BACKOFF_CAP && cfg.maxCooldown > BACKOFF_CAP
    && Min(SeverityCooldown(cfg, severity), cfg.maxCooldown) > cfg.baseCooldown
  }

  lemma CooldownRises(cfg: Config, severity: Severity, m: nat, n: nat)
    requires cfg.Validate() && !Shortens(cfg, severity) && m <= n
    ensures Cooldown(cfg, severity, m) <= Cooldown(cfg, severity, n)
  {
    var base := SeverityCooldown(cfg, severity);
    if cfg.backoffEnabled && base <= BACKOFF_CAP {
      BackoffGrows(base, cfg.backoffMultiplier, Min(m, 5), Min(n, 5));
      assert Backoff(base, cfg.backoffMultiplier, 0) == base;
    } else if cfg.backoffEnabled {
      if m > 0 {
        BackoffFalls(base, cfg.backoffMultiplier, Min(m, 5));
      }
      if n > 0 {
        BackoffFalls(base, cfg.backoffMultiplier, Min(n, 5));
      }
    }
  }

  /**
   Repeated triggers never shorten the halt of a given severity, except exactly
   when backoff starts above what a saturated product leaves, within a larger
   maximum, and the unescalated halt is above the base cooldown.
   */
  lemma CooldownNeverShrinks(cfg: Config, severity: Severity)
    requires cfg.Validate()
    ensures (forall m: nat, n: nat :: m <= n ==> Cooldown(cfg, severity, m) <= Cooldown(cfg, severity, n))
            <==> !Shortens(cfg, severity)
  {
    if Shortens(cfg, severity) {
      BackoffFalls(SeverityCooldown(cfg, severity), cfg.backoffMultiplier, 1);
      assert Cooldown(cfg, severity, 1) < Cooldown(cfg, severity, 0);
    } else {
      forall m: nat, n: nat | m <= n ensures Cooldown(cfg, severity, m) <= Cooldown(cfg, severity, n) {
        CooldownRises(cfg, severity, m, n);
      }
    }
  }

  /** A valid configuration whose second halt of high severity is half as long as its first. */
  lemma CooldownCanShrink() returns (cfg: Config)
    ensures cfg.Validate() && Cooldown(cfg, High, 0) == 2 * BACKOFF_CAP && Cooldown(cfg, High, 1) == BACKOFF_CAP
  {
    cfg := DEFAULT_CONFIG.(baseCooldown := BACKOFF_CAP, maxCooldown := 2 * BACKOFF_CAP);
    BackoffFalls(2 * BACKOFF_CAP, cfg.backoffMultiplier, 1);
  }

  // ------------------------------------------------------------------- one tip

  function UpdateWindow(w: Window, amount: int, now: nat, duration: nat): Window {
    if now >= AddTime(w.start, duration) then Window(now, amount, 1, 1, amount)
    else Window(w.start, AddVolume(w.volume, amount), AddCount(w.tips, 1), w.senders, Max(w.maxTip, amount))
  }

  predicate Exceeded(w: Window, threshold: int, now: nat, duration: nat) {
    now < AddTime(w.start, duration) && w.volume > threshold
  }

  function UpdateAllWindows(s: State, amount: int, now: nat): State {
    s.(one := UpdateWindow(s.one, amount, now, 60),
       five := UpdateWindow(s.five, amount, now, 300),
       hour := UpdateWindow(s.hour, amount, now, 3600),
       day := UpdateWindow(s.day, amount, now, 86400))
  }

  function UpdateRate(r: Rate, now: nat): Rate {
    if now >= AddTime(r.start, 60) then Rate(now, 1) else Rate(r.start, AddCount(r.tips, 1))
  }

  predicate RateExceeded(r: Rate, cfg: Config, now: nat) {
    now < AddTime(r.start, 60) && r.tips > cfg.maxTipsPerMinute
  }

  datatype Trigger = Trigger(reason: TriggerType, severity: Severity)

  function CheckVolumes(s: State, cfg: Config, now: nat): Option<Trigger> {
    if Exceeded(s.one, cfg.oneMinute, now, 60) then Some(Trigger(VolumeSpike(OneMinute), Critical))
    else if Exceeded(s.five, cfg.fiveMinutes, now, 300) then Some(Trigger(VolumeSpike(FiveMinutes), High))
    else if Exceeded(s.hour, cfg.oneHour, now, 3600) then Some(Trigger(VolumeSpike(OneHour), Medium))
    else if Exceeded(s.day, cfg.twentyFourHours, now, 86400) then Some(Trigger(VolumeSpike(TwentyFourHours), Low))
    else None
  }

  function CheckAnomaly(s: State, cfg: Config): Option<Trigger> {
    if cfg.anomalyEnabled && s.anomaly.Some? && s.anomaly.value.confidence > cfg.anomalyThreshold then
      var confidence := s.anomaly.value.confidence;
      Some(Trigger(AnomalyDetection,
                   if confidence > 9000 then Critical else if confidence > 8000 then High else Medium))
    else None
  }

  /** How far an amount is from the average, in basis points: nothing up to two standard deviations, all from three. */
  function DeviationScore(amount: int, average: int, deviation: int): nat {
    if deviation == 0 || average == 0 then 0 else
      var z := Quot((if amount > average then amount - average else average - amount) * 100, deviation);
      if z > 300 then 10000 else if z > 200 then Min((z - 200) * 10000 / 100, 10000) else 0
  }

  /** The moving average takes in one more amount. */
  function UpdateAnomaly(a: Anomaly, amount: int, now: nat): Anomaly {
    var samples := AddCount(a.samples, 1);
    var average := TruncDiv(Saturate(Saturate(a.average * a.samples) + amount), samples);
    a.(average := average, samples := samples, lastUpdate := now,
       amountScore := DeviationScore(amount, average, a.deviation), lastAnalysis := now)
  }

  function Analyse(s: State, cfg: Config, amount: int, now: nat): State {
    if !cfg.anomalyEnabled || s.anomaly.None? then s
    else s.(anomaly := Some(UpdateAnomaly(s.anomaly.value, amount, now)))
  }

  /** The checks in order, stopping at the first trigger; the rate counter is bumped on the way. */
  function CheckSequence(s: State, cfg: Config, amount: int, now: nat): (State, Option<Trigger>) {
    if amount > cfg.maxSingleTip then (s, Some(Trigger(SingleTipSpike, High))) else
      var counted := s.(rate := UpdateRate(s.rate, now));
      if RateExceeded(counted.rate, cfg, now) then (counted, Some(Trigger(RateLimit, Medium))) else
        var v := CheckVolumes(counted, cfg, now);
        if v.Some? then (counted, v) else
          var analysed := Analyse(counted, cfg, amount, now);
          (analysed, CheckAnomaly(analysed, cfg))
  }

  function ActivateHalt(s: State, cfg: Config, t: Trigger, now: nat): State {
    var cooldown := Cooldown(cfg, t.severity, s.triggerCount);
    s.(haltedUntil := AddTime(now, cooldown), reason := t.reason, severity := t.severity,
       triggerCount := AddCount(s.triggerCount, 1), lastTrigger := now,
       totalHalts := AddCount(s.totalHalts, 1), totalHaltDuration := AddTime(s.totalHaltDuration, cooldown))
  }

  function Recover(s: State, now: nat): State {
    s.(haltedUntil := 0, reason := NoTrigger, severity := NoSeverity,
       one := FreshWindow(now), five := FreshWindow(now), hour := FreshWindow(now), day := FreshWindow(now),
       rate := Rate(now, 0))
  }

  /** The state the checks start from: stored or new, recovered when the halt is over. */
  function Current(stored: Option<State>, now: nat): State {
    var s := stored.UnwrapOr(FreshState(now));
    if s.haltedUntil > 0 && now >= s.haltedUntil then Recover(s, now) else s
  }

  /** `check_circuit_breaker`: the state it stores and whether the tip is admitted. */
  function Check(cfg: Config, stored: Option<State>, amount: int, now: nat): (Option<State>, bool) {
    if !cfg.enabled then (stored, true) else
      var s := Current(stored, now);
      if cfg.maintenance || s.haltedUntil > now then (stored, false) else
        var (checked, trigger) := CheckSequence(s, cfg, amount, now);
        if trigger.Some? then (Some(ActivateHalt(checked, cfg, trigger.value, now)), false) else
          var updated := UpdateAllWindows(checked, amount, now);
          (Some(updated.(rate := UpdateRate(updated.rate, now))), true)
  }

  // ------------------------------------------------------------- the guard object

  /** The guard in its own form: one stored state, updated field by field. */
  class Guard {
    const cfg: Config
    var stored: Option<State>

    constructor (cfg: Config)
      ensures this.cfg == cfg && stored == None
    {
      this.cfg := cfg;
      stored := None;
    }

    /** `initialize_circuit_breaker`: the default configuration and a state begun now. */
    constructor Initialize(now: nat)
      ensures cfg == DEFAULT_CONFIG && stored == Some(FreshState(now))
    {
      cfg := DEFAULT_CONFIG;
      stored := Some(FreshState(now));
    }

    method CheckCircuitBreaker(amount: int, now: nat) returns (admitted: bool)
      modifies this
      ensures (stored, admitted) == Check(cfg, old(stored), amount, now)
    {
      if !cfg.enabled {
        return true;
      }
      var state := stored.UnwrapOr(FreshState(now));
      if state.haltedUntil > 0 && now >= state.haltedUntil {
        state := state.(haltedUntil := 0);
        state := state.(reason := NoTrigger);
        state := state.(severity := NoSeverity);
        state := state.(one := FreshWindow(now), five := FreshWindow(now));
        state := state.(hour := FreshWindow(now), day := FreshWindow(now));
        state := state.(rate := Rate(now, 0));
      }
      if cfg.maintenance || state.haltedUntil > now {
        return false;
      }
      var trigger: Option<Trigger> := None;
      if amount > cfg.maxSingleTip {
        trigger := Some(Trigger(SingleTipSpike, High));
      } else {
        state := state.(rate := UpdateRate(state.rate, now));
        if RateExceeded(state.rate, cfg, now) {
          trigger := Some(Trigger(RateLimit, Medium));
        } else {
          trigger := CheckVolumes(state, cfg, now);
          if trigger.None? {
            state := Analyse(state, cfg, amount, now);
            trigger := CheckAnomaly(state, cfg);
          }
        }
      }
      if trigger.Some? {
        var cooldown := CalculateCooldown(cfg, trigger.value.severity, state.triggerCount);
        state := state.(haltedUntil := AddTime(now, cooldown));
        state := state.(reason := trigger.value.reason, severity := trigger.value.severity);
        state := state.(triggerCount := AddCount(state.triggerCount, 1), lastTrigger := now);
        state := state.(totalHalts := AddCount(state.totalHalts, 1));
        state := state.(totalHaltDuration := AddTime(state.totalHaltDuration, cooldown));
        stored := Some(state);
        return false;
      }
      state := state.(one := UpdateWindow(state.one, amount, now, 60));
      state := state.(five := UpdateWindow(state.five, amount, now, 300));
      state := state.(hour := UpdateWindow(state.hour, amount, now, 3600));
      state := state.(day := UpdateWindow(state.day, amount, now, 86400));
      state := state.(rate := UpdateRate(state.rate, now));
      stored := Some(state);
      return true;
    }
  }
}

/** What the guard admits over any span of time. */
module CircuitBreakerSafety {
  import opened Host
  import opened CircuitBreaker
  import opened WindowLog

  datatype Attempt = Attempt(amount: int, now: nat)

  /** `states[i]` is what is stored before attempt `i`, `admitted[i]` its answer; the run begins at time `begun`. */
  datatype Run = Run(begun: nat, states: seq<Option<State>>, attempts: seq<Attempt>, admitted: seq<bool>)

  /** The clock before attempt `i`. */
  function Clock(r: Run, i: nat): nat
    requires i <= |r.attempts|
  {
    if i == 0 then r.begun else r.attempts[i - 1].now
  }

  /** Nothing stored yet, or the state of an initialised guard, with or without anomaly tracking. */
  predicate Initial(stored: Option<State>, begun: nat) {
    stored.Some? ==> stored.value == FreshState(begun).(anomaly := stored.value.anomaly)
  }

  /**
   Attempt `i` is a positive tip, not in the last day that the clock can show,
   answered by the guard.
   */
  ghost predicate IsStep(cfg: Config, r: Run, i: int) {
    && 0 <= i < |r.attempts| && |r.states| == |r.attempts| + 1 && |r.admitted| == |r.attempts|
    && (r.states[i + 1], r.admitted[i]) == Check(cfg, r.states[i], r.attempts[i].amount, r.attempts[i].now)
    && 0 < r.attempts[i].amount <= I128_MAX && r.attempts[i].now + 86400 <= U64_MAX
  }

  /** The guard run from an initial state, under a clock that does not go back. */
  ghost predicate IsRun(cfg: Config, r: Run) {
    && |r.states| == |r.attempts| + 1 && |r.admitted| == |r.attempts| && Initial(r.states[0], r.begun)
    && (forall i :: 0 <= i < |r.attempts| ==> r.begun <= r.attempts[i].now)
    && (forall i {:trigger IsStep(cfg, r, i)} :: 0 <= i < |r.attempts| ==> IsStep(cfg, r, i))
    && (forall i, j :: 0 <= i <= j < |r.attempts| ==> r.attempts[i].now <= r.attempts[j].now)
  }

  // -------------------------------------------------------------- what is counted

  /** A counter of the guard: the volume of one of its windows, or the number of tips per minute. */
  datatype Counter = Volume(tw: TimeWindow) | TipRate

  function Span(c: Counter): nat {
    if c.Volume? then Duration(c.tw) else 60
  }

  /** The least time between two windows: a halt, which starts a new one, may be shorter than the window. */
  function Gap(c: Counter, cfg: Config): nat {
    Min(Span(c), cfg.baseCooldown)
  }

  function StartOf(c: Counter, s: State): nat {
    if c.Volume? then s.Of(c.tw).start else s.rate.start
  }

  function Weight(c: Counter, amount: int): nat {
    if c.TipRate? || amount < 0 then 1 else amount
  }

  /** The most one window of the counter admits: a volume may overshoot by one tip; tips count twice. */
  function WindowBound(c: Counter, cfg: Config): int {
    if c.Volume? then cfg.Threshold(c.tw) + cfg.maxSingleTip else (cfg.maxTipsPerMinute + 1) / 2
  }

  /** What the counter reads when `total` was admitted in its window. */
  predicate Reads(c: Counter, s: State, total: nat) {
    if c.Volume? then s.Of(c.tw).volume == Min(total, I128_MAX) else s.rate.tips == Min(2 * total, U32_MAX)
  }

  /** The thresholds are real ones: a counter that saturates at its threshold never trips. */
  predicate Effective(c: Counter, cfg: Config) {
    if c.Volume? then cfg.Threshold(c.tw) < I128_MAX && cfg.maxSingleTip <= I128_MAX else cfg.maxTipsPerMinute < U32_MAX
  }

  /** The log one attempt later. */
  ghost function Logged(c: Counter, stored: Option<State>, log: seq<Admission>, a: Attempt, admitted: bool)
    : seq<Admission>
  {
    log + if admitted && stored.Some? then [Admission(a.now, Weight(c, a.amount), StartOf(c, stored.value))] else []
  }

  ghost function Log(c: Counter, r: Run, i: nat): seq<Admission>
    requires i <= |r.attempts| && |r.states| == |r.attempts| + 1 && |r.admitted| == |r.attempts|
  {
    if i == 0 then [] else Logged(c, r.states[i], Log(c, r, i - 1), r.attempts[i - 1], r.admitted[i - 1])
  }

  // -------------------------------------------------------------------- invariant

  /** The counter reads what the log counts in its current window. */
  ghost predicate Tracked(c: Counter, gap: nat, s: State, log: seq<Admission>) {
    exists total: nat :: Tracks(log, gap, StartOf(c, s), total) && Reads(c, s, total)
  }

  /** What the stored state knows of the log: while halted only that recovery comes after all its windows. */
  ghost predicate Knows(c: Counter, gap: nat, stored: Option<State>, log: seq<Admission>) {
    match stored
    case None => log == []
    case Some(s) =>
      if s.haltedUntil > 0 then OverBy(log, gap, s.haltedUntil)
      else Tracked(c, gap, s, log)
  }

  ghost predicate Good(c: Counter, cfg: Config, stored: Option<State>, log: seq<Admission>, now: nat) {
    && Spaced(log, Gap(c, cfg)) && WindowsBounded(log, WindowBound(c, cfg))
    && (forall i :: 0 <= i < |log| ==> log[i].time <= now)
    && (stored.Some? ==> stored.value.haltedUntil == 0 ==> StartOf(c, stored.value) <= now)
    && Knows(c, Gap(c, cfg), stored, log)
  }

  lemma InitialGood(c: Counter, cfg: Config, stored: Option<State>, begun: nat)
    requires cfg.Validate() && Initial(stored, begun)
    ensures Good(c, cfg, stored, [], begun)
  {
    if stored.Some? {
      assert Tracks([], Gap(c, cfg), begun, 0) && Reads(c, stored.value, 0);
    }
  }

  /** After recovery, or on a new state, the counter tracks the log. */
  lemma CurrentTracks(c: Counter, cfg: Config, stored: Option<State>, log: seq<Admission>, before: nat, now: nat)
    requires cfg.Validate() && Good(c, cfg, stored, log, before) && before <= now
    requires Current(stored, now).haltedUntil == 0
    ensures var s := Current(stored, now);
            StartOf(c, s) <= now && Tracked(c, Gap(c, cfg), s, log)
  {
    var s := Current(stored, now);
    if stored.None? || stored.value.haltedUntil > 0 {
      TracksFresh(log, Gap(c, cfg), now);
      assert Reads(c, s, 0);
    }
  }

  /** The window of counter `c` an admission at `now` falls into, and what it counted before. */
  lemma WindowFor(c: Counter, gap: nat, s: State, log: seq<Admission>, now: nat) returns (total: nat)
    requires 0 < gap <= Span(c) && StartOf(c, s) <= now && now + Span(c) <= U64_MAX
    requires forall i :: 0 <= i < |log| ==> log[i].time <= now
    requires Tracked(c, gap, s, log)
    ensures now >= AddTime(StartOf(c, s), Span(c)) ==> total == 0 && Tracks(log, gap, now, 0)
    ensures now < AddTime(StartOf(c, s), Span(c)) ==> Tracks(log, gap, StartOf(c, s), total) && Reads(c, s, total)
  {
    total :| Tracks(log, gap, StartOf(c, s), total) && Reads(c, s, total);
    if now >= AddTime(StartOf(c, s), Span(c)) {
      OldWindowOver(log, gap, StartOf(c, s), total, now);
      TracksFresh(log, gap, now);
      total := 0;
    }
  }

  lemma AdmitVolume(tw: TimeWindow, gap: nat, cfg: Config, s: State, log: seq<Admission>, amount: int, now: nat)
    requires cfg.Validate() && Effective(Volume(tw), cfg) && 0 < gap <= Duration(tw)
    requires Spaced(log, gap) && WindowsBounded(log, WindowBound(Volume(tw), cfg))
    requires forall i :: 0 <= i < |log| ==> log[i].time <= now
    requires s.Of(tw).start <= now && now + Duration(tw) <= U64_MAX
    requires Tracked(Volume(tw), gap, s, log)
    requires !Exceeded(s.Of(tw), cfg.Threshold(tw), now, Duration(tw)) && 0 < amount <= cfg.maxSingleTip
    ensures var next := UpdateWindow(s.Of(tw), amount, now, Duration(tw));
            var after := log + [Admission(now, amount, next.start)];
            && next.start <= now
            && Spaced(after, gap) && WindowsBounded(after, WindowBound(Volume(tw), cfg))
            && exists total: nat :: Tracks(after, gap, next.start, total) && next.volume == Min(total, I128_MAX)
  {
    var w := s.Of(tw);
    var total := WindowFor(Volume(tw), gap, s, log, now);
    var next := UpdateWindow(w, amount, now, Duration(tw));
    Append(log, gap, next.start, total, WindowBound(Volume(tw), cfg), now, amount);
    assert Tracks(log + [Admission(now, amount, next.start)], gap, next.start, total + amount);
  }

  lemma AdmitTip(gap: nat, cfg: Config, s: State, log: seq<Admission>, now: nat)
    requires cfg.Validate() && Effective(TipRate, cfg) && 0 < gap <= 60
    requires Spaced(log, gap) && WindowsBounded(log, WindowBound(TipRate, cfg))
    requires forall i :: 0 <= i < |log| ==> log[i].time <= now
    requires s.rate.start <= now && now + 60 <= U64_MAX
    requires Tracked(TipRate, gap, s, log)
    requires !RateExceeded(UpdateRate(s.rate, now), cfg, now)
    ensures var next := UpdateRate(UpdateRate(s.rate, now), now);
            var after := log + [Admission(now, 1, next.start)];
            && next.start <= now
            && Spaced(after, gap) && WindowsBounded(after, WindowBound(TipRate, cfg))
            && exists total: nat :: Tracks(after, gap, next.start, total) && next.tips == Min(2 * total, U32_MAX)
  {
    var total := WindowFor(TipRate, gap, s, log, now);
    var next := UpdateRate(UpdateRate(s.rate, now), now);
    Append(log, gap, next.start, total, WindowBound(TipRate, cfg), now, 1);
    assert Tracks(log + [Admission(now, 1, next.start)], gap, next.start, total + 1);
  }

  /** `s` passed every check for this tip, and `next` is `s` with every counter updated. */
  ghost predicate Passes(cfg: Config, s: State, next: State, amount: int, now: nat) {
    && amount <= cfg.maxSingleTip && next.haltedUntil == 0
    && !RateExceeded(UpdateRate(s.rate, now), cfg, now)
    && (forall tw :: !Exceeded(s.Of(tw), cfg.Threshold(tw), now, Duration(tw)))
    && (forall tw :: next.Of(tw) == UpdateWindow(s.Of(tw), amount, now, Duration(tw)))
    && next.rate == UpdateRate(UpdateRate(s.rate, now), now)
  }

  lemma AdmissionFacts(cfg: Config, stored: Option<State>, amount: int, now: nat)
    requires cfg.enabled && Check(cfg, stored, amount, now).1
    ensures var s, next := Current(stored, now), Check(cfg, stored, amount, now).0;
            s.haltedUntil == 0 && next.Some? && Passes(cfg, s, next.value, amount, now)
  {
  }

  lemma AdmitFrom(c: Counter, cfg: Config, s: State, next: State, log: seq<Admission>, amount: int, now: nat)
    requires cfg.Validate() && Effective(c, cfg) && Passes(cfg, s, next, amount, now) && amount > 0
    requires Spaced(log, Gap(c, cfg)) && WindowsBounded(log, WindowBound(c, cfg)) && Tracked(c, Gap(c, cfg), s, log)
    requires forall i :: 0 <= i < |log| ==> log[i].time <= now
    requires StartOf(c, s) <= now && now + Span(c) <= U64_MAX
    ensures var after := log + [Admission(now, Weight(c, amount), StartOf(c, next))];
            && StartOf(c, next) <= now
            && Spaced(after, Gap(c, cfg)) && WindowsBounded(after, WindowBound(c, cfg))
            && Tracked(c, Gap(c, cfg), next, after)
  {
    if c.Volume? {
      assert !Exceeded(s.Of(c.tw), cfg.Threshold(c.tw), now, Duration(c.tw));
      AdmitVolume(c.tw, Gap(c, cfg), cfg, s, log, amount, now);
      assert next.Of(c.tw) == UpdateWindow(s.Of(c.tw), amount, now, Duration(c.tw));
    } else {
      AdmitTip(Gap(c, cfg), cfg, s, log, now);
    }
  }

  /** A refused tip leaves the stored state alone, or halts for at least the base cooldown. */
  lemma RefusalFacts(cfg: Config, stored: Option<State>, amount: int, now: nat)
    requires cfg.enabled && cfg.Validate()
    requires !Check(cfg, stored, amount, now).1
    ensures var next := Check(cfg, stored, amount, now).0;
            || next == stored
            || (next.Some? && Current(stored, now).haltedUntil == 0
                && AddTime(now, cfg.baseCooldown) <= next.value.haltedUntil)
  {
    var s := Current(stored, now);
    var (checked, trigger) := CheckSequence(s, cfg, amount, now);
    if trigger.Some? {
      CooldownBounds(cfg, trigger.value.severity, checked.triggerCount);
    }
  }

  lemma AdmitStep(c: Counter, cfg: Config, stored: Option<State>, log: seq<Admission>, before: nat, amount: int,
                  now: nat)
    requires cfg.Validate() && cfg.enabled && Effective(c, cfg)
    requires Good(c, cfg, stored, log, before) && before <= now && amount > 0 && now + Span(c) <= U64_MAX
    requires Check(cfg, stored, amount, now).1
    ensures var next := Check(cfg, stored, amount, now).0;
            && next.Some?
            && Good(c, cfg, next, log + [Admission(now, Weight(c, amount), StartOf(c, next.value))], now)
  {
    AdmissionFacts(cfg, stored, amount, now);
    CurrentTracks(c, cfg, stored, log, before, now);
    var s, next := Current(stored, now), Check(cfg, stored, amount, now).0.value;
    AdmitFrom(c, cfg, s, next, log, amount, now);
  }

  lemma RefuseStep(c: Counter, cfg: Config, stored: Option<State>, log: seq<Admission>, before: nat, amount: int,
                   now: nat)
    requires cfg.Validate() && cfg.enabled
    requires Good(c, cfg, stored, log, before) && before <= now && now + Span(c) <= U64_MAX
    requires !Check(cfg, stored, amount, now).1
    ensures Good(c, cfg, Check(cfg, stored, amount, now).0, log, now)
  {
    RefusalFacts(cfg, stored, amount, now);
    var next := Check(cfg, stored, amount, now).0;
    if next != stored {
      CurrentTracks(c, cfg, stored, log, before, now);
      assert OverBy(log, Gap(c, cfg), next.value.haltedUntil);
    }
  }

  lemma StepGood(c: Counter, cfg: Config, r: Run, i: nat, a: Attempt, log: seq<Admission>, before: nat)
    requires cfg.Validate() && cfg.enabled && Effective(c, cfg) && IsStep(cfg, r, i) && a == r.attempts[i]
    requires before <= a.now && Good(c, cfg, r.states[i], log, before)
    ensures Good(c, cfg, r.states[i + 1], Logged(c, r.states[i + 1], log, a, r.admitted[i]), a.now)
  {
    if r.admitted[i] {
      AdmitStep(c, cfg, r.states[i], log, before, a.amount, a.now);
    } else {
      RefuseStep(c, cfg, r.states[i], log, before, a.amount, a.now);
      assert log + [] == log;
    }
  }

  lemma {:induction false} RunGood(c: Counter, cfg: Config, r: Run, i: nat)
    requires cfg.Validate() && cfg.enabled && Effective(c, cfg)
    requires IsRun(cfg, r) && i <= |r.attempts|
    ensures Good(c, cfg, r.states[i], Log(c, r, i), Clock(r, i))
  {
    if i == 0 {
      InitialGood(c, cfg, r.states[0], r.begun);
    } else {
      RunGood(c, cfg, r, i - 1);
      assert IsStep(cfg, r, i - 1);
      StepGood(c, cfg, r, i - 1, r.attempts[i - 1], Log(c, r, i - 1), Clock(r, i - 1));
    }
  }

  /** The total weight of the tips admitted by the first `i` attempts at times in [from, from + span). */
  ghost function AdmittedIn(c: Counter, r: Run, i: nat, from: nat, span: nat): nat
    requires i <= |r.attempts| && |r.states| == |r.attempts| + 1 && |r.admitted| == |r.attempts|
  {
    if i == 0 then 0 else
      AdmittedIn(c, r, i - 1, from, span) +
      if r.admitted[i - 1] && from <= r.attempts[i - 1].now < from + span
      then Weight(c, r.attempts[i - 1].amount) else 0
  }

  lemma {:induction false} LogIsComplete(c: Counter, cfg: Config, r: Run, i: nat, from: nat, span: nat)
    requires cfg.enabled && IsRun(cfg, r) && i <= |r.attempts|
    ensures AdmittedIn(c, r, i, from, span) == InSpan(Log(c, r, i), from, span)
  {
    if i > 0 {
      LogIsComplete(c, cfg, r, i - 1, from, span);
      var a := r.attempts[i - 1];
      assert IsStep(cfg, r, i - 1);
      if r.admitted[i - 1] {
        AdmissionFacts(cfg, r.states[i - 1], a.amount, a.now);
        var log := Log(c, r, i);
        assert log[..|log| - 1] == Log(c, r, i - 1);
      } else {
        assert Log(c, r, i) == Log(c, r, i - 1);
      }
    }
  }

  /**
   Over every run and any span of time that `k` gaps between windows cover: the
   volume admitted is at most `k + 1` times the threshold plus the largest tip,
   and the number of tips at most `k + 1` times half the limit. The gap is the
   window's own length or the base cooldown, whichever is shorter.
   */
  lemma VolumeSafety(c: Counter, cfg: Config, r: Run, from: nat, span: nat, k: nat)
    requires cfg.Validate() && cfg.enabled && Effective(c, cfg) && span <= k * Gap(c, cfg)
    requires IsRun(cfg, r)
    ensures AdmittedIn(c, r, |r.attempts|, from, span) <= (k + 1) * WindowBound(c, cfg)
  {
    RunGood(c, cfg, r, |r.attempts|);
    SpanBound(Log(c, r, |r.attempts|), from, span, Gap(c, cfg), k, WindowBound(c, cfg));
    LogIsComplete(c, cfg, r, |r.attempts|, from, span);
  }

  /** A halt that outlasts the window: at most twice the bound in any span as long as the window. */
  lemma WindowSafety(c: Counter, cfg: Config, r: Run, from: nat)
    requires cfg.Validate() && cfg.enabled && Effective(c, cfg) && Span(c) <= cfg.baseCooldown
    requires IsRun(cfg, r)
    ensures AdmittedIn(c, r, |r.attempts|, from, Span(c)) <= 2 * WindowBound(c, cfg)
  {
    VolumeSafety(c, cfg, r, from, Span(c), 1);
  }

  /** All volume counters measure the same admitted volume. */
  lemma {:induction false} SameVolume(a: TimeWindow, b: TimeWindow, r: Run, i: nat, from: nat, span: nat)
    requires i <= |r.attempts| && |r.states| == |r.attempts| + 1 && |r.admitted| == |r.attempts|
    ensures AdmittedIn(Volume(a), r, i, from, span) == AdmittedIn(Volume(b), r, i, from, span)
  {
    if i > 0 {
      SameVolume(a, b, r, i - 1, from, span);
    }
  }

  /** So the volume in any span is within the bound of every counter `b`, and thus of the one that bounds it best. */
  lemma CombinedSafety(a: TimeWindow, b: TimeWindow, cfg: Config, r: Run, from: nat, span: nat, k: nat)
    requires cfg.Validate() && cfg.enabled && Effective(Volume(b), cfg) && span <= k * Gap(Volume(b), cfg)
    requires IsRun(cfg, r)
    ensures AdmittedIn(Volume(a), r, |r.attempts|, from, span) <= (k + 1) * WindowBound(Volume(b), cfg)
  {
    VolumeSafety(Volume(b), cfg, r, from, span, k);
    SameVolume(a, b, r, |r.attempts|, from, span);
  }

  /** Under the default configuration: the smallest bound that any volume counter gives for each span. */
  lemma DefaultSafety(r: Run, from: nat)
    requires IsRun(DEFAULT_CONFIG, r)
    ensures AdmittedIn(Volume(OneMinute), r, |r.attempts|, from, 60) <= 2 * 11_000_000_000
    ensures AdmittedIn(Volume(FiveMinutes), r, |r.attempts|, from, 300) <= 6 * 11_000_000_000
    ensures AdmittedIn(Volume(OneHour), r, |r.attempts|, from, 3600) <= 13 * 41_000_000_000
    ensures AdmittedIn(Volume(TwentyFourHours), r, |r.attempts|, from, 86400) <= 289 * 41_000_000_000
    ensures AdmittedIn(TipRate, r, |r.attempts|, from, 60) <= 1000
  {
    CombinedSafety(OneMinute, OneMinute, DEFAULT_CONFIG, r, from, 60, 1);
    CombinedSafety(FiveMinutes, OneMinute, DEFAULT_CONFIG, r, from, 300, 5);
    CombinedSafety(OneHour, FiveMinutes, DEFAULT_CONFIG, r, from, 3600, 12);
    CombinedSafety(TwentyFourHours, FiveMinutes, DEFAULT_CONFIG, r, from, 86400, 288);
    VolumeSafety(TipRate, DEFAULT_CONFIG, r, from, 60, 1);
  }

  /** While a stored halt lasts, every attempt is refused and the state stays as it is. */
  lemma {:induction false} HaltHolds(cfg: Config, r: Run, i: nat, j: nat)
    requires cfg.enabled && IsRun(cfg, r) && i <= j < |r.attempts| && r.states[i].Some?
    requires r.attempts[j].now < r.states[i].value.haltedUntil
    ensures !r.admitted[j] && r.states[j + 1] == r.states[i]
    decreases j
  {
    if i < j {
      HaltHolds(cfg, r, i, j - 1);
    }
    assert IsStep(cfg, r, j);
  }

  /** A trigger at attempt `i` refuses everything for at least the base cooldown. */
  lemma TriggerHalts(cfg: Config, r: Run, i: nat, j: nat)
    requires cfg.Validate() && cfg.enabled && IsRun(cfg, r) && i < j < |r.attempts|
    requires !r.admitted[i] && r.states[i + 1] != r.states[i]
    requires r.attempts[j].now < r.attempts[i].now + cfg.baseCooldown
    ensures !r.admitted[j]
  {
    assert IsStep(cfg, r, i) && IsStep(cfg, r, j);
    RefusalFacts(cfg, r.states[i], r.attempts[i].amount, r.attempts[i].now);
    HaltHolds(cfg, r, i + 1, j);
  }
}
