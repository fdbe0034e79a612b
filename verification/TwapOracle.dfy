/**
 The TWAP oracle: a ring buffer of cumulative-price observations that must answer
 as the full price history would.
 */
module TwapOracle {
  import opened Host
  import opened Arithmetic

  const MIN_WINDOW_SECONDS: nat := 60
  const MAX_WINDOW_SECONDS: nat := 604800
  const MAX_OBSERVATIONS: nat := 256
  const MIN_OBSERVATIONS: nat := 2
  const MIN_UPDATE_INTERVAL: nat := 1

  datatype Observation = Observation(timestamp: nat, cumulative: int, price: int)

  datatype TwapResult = TwapResult(twap: int, windowUsed: nat, oldest: nat, newest: nat, used: nat)

  datatype Error = InvalidWindow | InvalidParams | InvalidPrice | Inactive | Unauthorized | UpdateTooFrequent

  function Min(a: int, b: int): int { if a < b then a else b }

  /** The accumulator after `elapsed` seconds at the previous price: both operations saturate. */
  function Accumulate(prev: Observation, elapsed: nat): int {
    Min(prev.cumulative + Min(prev.price * elapsed, I128_MAX), I128_MAX)
  }

  // ---------------------------------------------------------------------- history

  ghost predicate Chained(h: seq<Observation>, k: int) {
    && 0 <= k < |h| - 1 && h[k].timestamp < h[k + 1].timestamp
    && h[k + 1].cumulative == Accumulate(h[k], h[k + 1].timestamp - h[k].timestamp)
  }

  /** Every observation ever recorded, oldest first: later means newer, and accumulators chain. */
  ghost predicate IsHistory(h: seq<Observation>) {
    && |h| > 0 && h[0].cumulative == 0
    && (forall k :: 0 <= k < |h| ==> h[k].price > 0 && 0 <= h[k].cumulative <= I128_MAX)
    && (forall k, l :: 0 <= k < l < |h| ==> h[k].timestamp < h[l].timestamp)
    && (forall k {:trigger Chained(h, k)} :: 0 <= k < |h| - 1 ==> Chained(h, k))
  }

  /** The price of each observation weighted by how long it was in force, over [lo, hi). */
  ghost function Weighted(h: seq<Observation>, lo: nat, hi: nat): int
    requires lo <= hi < |h|
  {
    if lo == hi then 0 else
      Weighted(h, lo, hi - 1) + h[hi - 1].price * (h[hi].timestamp - h[hi - 1].timestamp)
  }

  lemma AccumulateGrows(prev: Observation, elapsed: nat)
    requires prev.price > 0 && 0 <= prev.cumulative <= I128_MAX
    ensures prev.cumulative <= Accumulate(prev, elapsed) <= I128_MAX
  {
    assert prev.price * elapsed >= 0;
  }

  lemma AppendHistory(h: seq<Observation>, o: Observation)
    requires IsHistory(h) && h[|h| - 1].timestamp < o.timestamp && o.price > 0
    requires o.cumulative == Accumulate(h[|h| - 1], o.timestamp - h[|h| - 1].timestamp)
    ensures IsHistory(h + [o])
  {
    var last := h[|h| - 1];
    var n := h + [o];
    AccumulateGrows(last, o.timestamp - last.timestamp);
    forall k | 0 <= k < |n| - 1 ensures Chained(n, k) {
      if k < |h| - 1 {
        assert Chained(h, k);
      }
    }
  }

  /** Accumulators never fall, so one that is not saturated was never saturated before. */
  lemma {:induction false} CumulativeGrows(h: seq<Observation>, lo: nat, hi: nat)
    requires IsHistory(h) && lo <= hi < |h|
    ensures h[lo].cumulative <= h[hi].cumulative
    decreases hi
  {
    if lo < hi {
      CumulativeGrows(h, lo, hi - 1);
      assert Chained(h, hi - 1);
      AccumulateGrows(h[hi - 1], h[hi].timestamp - h[hi - 1].timestamp);
    }
  }

  /** The difference of two unsaturated accumulators is the time-weighted sum between them. */
  lemma {:induction false} Telescopes(h: seq<Observation>, lo: nat, hi: nat)
    requires IsHistory(h) && lo <= hi < |h| && h[hi].cumulative < I128_MAX
    ensures h[hi].cumulative - h[lo].cumulative == Weighted(h, lo, hi)
    decreases hi
  {
    if lo < hi {
      assert Chained(h, hi - 1);
      CumulativeGrows(h, hi - 1, hi);
      Telescopes(h, lo, hi - 1);
    }
  }

  /** A time-weighted sum lies between the extreme prices in force times the elapsed time. */
  lemma {:induction false} WeightedBounds(h: seq<Observation>, lo: nat, hi: nat, least: int, greatest: int)
    requires IsHistory(h) && lo <= hi < |h|
    requires forall k :: lo <= k < hi ==> least <= h[k].price <= greatest
    ensures least * (h[hi].timestamp - h[lo].timestamp) <= Weighted(h, lo, hi)
    ensures Weighted(h, lo, hi) <= greatest * (h[hi].timestamp - h[lo].timestamp)
    decreases hi
  {
    if lo < hi {
      WeightedBounds(h, lo, hi - 1, least, greatest);
      var d, e := h[hi].timestamp - h[hi - 1].timestamp, h[hi - 1].timestamp - h[lo].timestamp;
      MulLe(least, h[hi - 1].price, d);
      MulLe(h[hi - 1].price, greatest, d);
      Distribute(d, e, least);
      Distribute(d, e, greatest);
    }
  }

  lemma MulOrder(a: int, b: int, d: int)
    requires d > 0
    ensures a <= b ==> a * d <= b * d
  {
  }

  /** The floor of an average lies between any integer bounds of its terms. */
  lemma FloorBetween(sum: int, time: int, least: int, greatest: int)
    requires time > 0 && 0 <= least && least * time <= sum <= greatest * time
    ensures least <= TruncDiv(sum, time) <= greatest
  {
    assert least * time >= 0;
    MulOrder(TruncDiv(sum, time) + 1, least, time);
    MulOrder(greatest + 1, TruncDiv(sum, time), time);
  }

  // ------------------------------------------------------------------- ring buffer

  /** The slot `offset` steps before `writeIndex`. */
  function RingIndexBack(writeIndex: nat, offset: nat, capacity: nat): nat
    requires writeIndex < capacity
  {
    (writeIndex + capacity - offset % capacity) % capacity
  }

  /** The slot of the `k`-th observation: they go round the ring. */
  function Slot(k: nat, capacity: nat): (slot: nat)
    requires capacity > 0
    ensures slot < capacity
  {
    if k < capacity then k else Slot(k - capacity, capacity)
  }

  lemma {:induction false} SlotNext(k: nat, capacity: nat)
    requires capacity > 0
    ensures Slot(k + 1, capacity) == if Slot(k, capacity) + 1 == capacity then 0 else Slot(k, capacity) + 1
  {
    if k >= capacity {
      SlotNext(k - capacity, capacity);
    }
  }

  /** Going back fewer than `capacity` observations goes back that many slots, round the ring. */
  lemma {:induction false} SlotBack(last: nat, offset: nat, capacity: nat)
    requires capacity > 0 && offset < capacity && offset <= last
    ensures Slot(last - offset, capacity) ==
            Slot(last, capacity) - offset + if offset <= Slot(last, capacity) then 0 else capacity
  {
    if offset > 0 {
      SlotBack(last, offset - 1, capacity);
      SlotNext(last - offset, capacity);
    }
  }

  /** A remainder of a number below twice the divisor. */
  lemma ModOnce(n: nat, d: nat)
    requires 0 < d && n < 2 * d
    ensures n % d == if n < d then n else n - d
  {
    assert n / d < 2;
  }

  lemma RingIndexIsSlot(last: nat, offset: nat, capacity: nat)
    requires capacity > 0 && offset < capacity && offset <= last
    ensures RingIndexBack(Slot(last, capacity), offset, capacity) == Slot(last - offset, capacity)
  {
    ModOnce(offset, capacity);
    if offset == 0 {
      ModOnce(Slot(last, capacity) + capacity, capacity);
    } else {
      SlotBack(last, offset, capacity);
      ModOnce(Slot(last, capacity) + capacity - offset, capacity);
    }
  }

  /** Two observations fewer than `capacity` apart never share a slot. */
  lemma SlotsDiffer(k: nat, l: nat, capacity: nat)
    requires capacity > 0 && k < l < k + capacity
    ensures Slot(k, capacity) != Slot(l, capacity)
  {
    SlotBack(l, l - k, capacity);
  }

  /** The ring holds the newest `capacity` observations of the history. */
  ghost predicate RingHolds(slots: map<nat, Observation>, h: seq<Observation>, capacity: nat)
    requires capacity > 0
  {
    forall k {:trigger Slot(k, capacity)} :: 0 <= k < |h| && |h| - capacity <= k ==>
      Slot(k, capacity) in slots && slots[Slot(k, capacity)] == h[k]
  }

  lemma RingWrite(slots: map<nat, Observation>, h: seq<Observation>, capacity: nat, o: Observation)
    requires capacity > 0 && RingHolds(slots, h, capacity)
    ensures RingHolds(slots[Slot(|h|, capacity) := o], h + [o], capacity)
  {
    forall k | 0 <= k < |h| && |h| + 1 - capacity <= k ensures Slot(k, capacity) != Slot(|h|, capacity) {
      SlotsDiffer(k, |h|, capacity);
    }
  }

  /** The stored fields agree with the history. */
  ghost predicate Agrees(slots: map<nat, Observation>, writeIndex: nat, lastPrice: int, lastUpdate: nat,
                         h: seq<Observation>, capacity: nat)
    requires capacity > 0
  {
    && IsHistory(h) && RingHolds(slots, h, capacity)
    && writeIndex == Slot(|h| - 1, capacity)
    && lastPrice == h[|h| - 1].price && lastUpdate == h[|h| - 1].timestamp
  }

  lemma NewestSlot(slots: map<nat, Observation>, h: seq<Observation>, capacity: nat, offset: nat)
    requires capacity > 0 && RingHolds(slots, h, capacity) && offset < |h| && offset < capacity
    ensures var k := RingIndexBack(Slot(|h| - 1, capacity), offset, capacity);
            k in slots && slots[k] == h[|h| - 1 - offset]
  {
    RingIndexIsSlot(|h| - 1, offset, capacity);
  }

  lemma AgreesAfter(slots: map<nat, Observation>, writeIndex: nat, lastPrice: int, lastUpdate: nat,
                    h: seq<Observation>, capacity: nat, o: Observation, next: nat)
    requires next == if writeIndex + 1 == capacity then 0 else writeIndex + 1
    requires capacity > 1 && Agrees(slots, writeIndex, lastPrice, lastUpdate, h, capacity)
    requires lastUpdate < o.timestamp && o.price > 0
    requires o.cumulative == Accumulate(h[|h| - 1], o.timestamp - lastUpdate)
    ensures Agrees(slots[next := o], next, o.price, o.timestamp, h + [o], capacity)
  {
    SlotNext(|h| - 1, capacity);
    RingWrite(slots, h, capacity, o);
    AppendHistory(h, o);
  }

  /** Advances the write pointer round the ring. */
  method Advance(writeIndex: nat, capacity: nat) returns (next: nat)
    requires writeIndex < capacity
    ensures next == if writeIndex + 1 == capacity then 0 else writeIndex + 1
  {
    ModOnce(writeIndex + 1, capacity);
    next := (writeIndex + 1) % capacity;
  }

  /** How many slots a reader believes are filled: the 64-bit count is cut to 32 bits. */
  function Available(count: nat, capacity: nat): (n: nat)
    ensures n <= count && n <= capacity
  {
    Min(count % U32_SIZE, capacity)
  }

  /** [lo, |h|) is the longest suffix of the last `available` observations no older than newest - window. */
  ghost predicate IsWindow(h: seq<Observation>, available: nat, window: nat, lo: int) {
    && 0 < |h| && available <= |h| && |h| - available <= lo <= |h|
    && (forall k :: lo <= k < |h| ==> h[k].timestamp >= h[|h| - 1].timestamp - window)
    && (|h| - available < lo ==> h[lo - 1].timestamp < h[|h| - 1].timestamp - window)
  }

  /** There is only one such suffix. */
  lemma WindowUnique(h: seq<Observation>, available: nat, window: nat, lo: int, hi: int)
    requires IsWindow(h, available, window, lo) && IsWindow(h, available, window, hi)
    ensures lo == hi
  {
  }

  /** The window a request stands for: 0 is the oracle's own, others are clamped. */
  function WindowFor(requested: nat, own: nat): nat {
    if requested == 0 then own
    else Min(if requested > MIN_WINDOW_SECONDS then requested else MIN_WINDOW_SECONDS, MAX_WINDOW_SECONDS)
  }

  /** 0 asks for the oracle's own window; any other request is kept between a minute and a week. */
  lemma WindowForLaw(requested: nat, own: nat)
    ensures requested == 0 ==> WindowFor(requested, own) == own
    ensures 0 < requested < 60 ==> WindowFor(requested, own) == 60
    ensures 60 <= requested <= 604_800 ==> WindowFor(requested, own) == requested
    ensures 604_800 < requested ==> WindowFor(requested, own) == 604_800
  {
  }

  /** `u64::saturating_sub`. */
  function Minus(a: nat, b: nat): nat {
    if a >= b then a - b else 0
  }

  /** The answer computed from the collected observations. */
  function Twap(obs: seq<Observation>, lastPrice: int, lastUpdate: nat): TwapResult {
    if |obs| < 2 then TwapResult(lastPrice, 0, lastUpdate, lastUpdate, |obs|) else
      var oldest, newest := obs[0], obs[|obs| - 1];
      var time := Minus(newest.timestamp, oldest.timestamp);
      if time == 0 then TwapResult(lastPrice, 0, oldest.timestamp, newest.timestamp, |obs|)
      else TwapResult(TruncDiv(newest.cumulative - oldest.cumulative, time), time,
                      oldest.timestamp, newest.timestamp, |obs|)
  }

  method TwapFrom(observations: seq<Observation>, lastPrice: int, lastUpdate: nat) returns (r: TwapResult)
    ensures r == Twap(observations, lastPrice, lastUpdate)
  {
    var n := |observations|;
    if n < 2 {
      return TwapResult(lastPrice, 0, lastUpdate, lastUpdate, n);
    }
    var oldest, newest := observations[0], observations[n - 1];
    var timeDelta := Minus(newest.timestamp, oldest.timestamp);
    if timeDelta == 0 {
      return TwapResult(lastPrice, 0, oldest.timestamp, newest.timestamp, n);
    }
    var accDelta := newest.cumulative - oldest.cumulative;
    return TwapResult(TruncDiv(accDelta, timeDelta), timeDelta, oldest.timestamp, newest.timestamp, n);
  }

  lemma ReversedSuffix(tmp: seq<Observation>, result: seq<Observation>, h: seq<Observation>)
    requires |result| == |tmp| <= |h| && forall k :: 0 <= k < |tmp| ==> result[k] == tmp[|tmp| - 1 - k]
    requires forall k :: 0 <= k < |tmp| ==> tmp[k] == h[|h| - 1 - k]
    ensures result == h[|h| - |result|..]
  {
    var n := |tmp|;
    forall k | 0 <= k < n ensures result[k] == h[|h| - n..][k] {
      assert result[k] == tmp[n - 1 - k];
    }
  }

  lemma WindowFound(tmp: seq<Observation>, result: seq<Observation>, h: seq<Observation>, available: nat,
                    window: nat, cutoff: nat)
    requires 0 < |h| && |result| == |tmp| <= available <= |h|
    requires forall k :: 0 <= k < |tmp| ==> result[k] == tmp[|tmp| - 1 - k]
    requires forall k :: 0 <= k < |tmp| ==> tmp[k] == h[|h| - 1 - k] && tmp[k].timestamp >= cutoff
    requires cutoff == Minus(h[|h| - 1].timestamp, window)
    requires |tmp| < available ==> h[|h| - 1 - |tmp|].timestamp < cutoff
    ensures result == h[|h| - |result|..] && IsWindow(h, available, window, |h| - |result|)
  {
    ReversedSuffix(tmp, result, h);
    var lo := |h| - |tmp|;
    forall k | lo <= k < |h| ensures h[k].timestamp >= cutoff {
      assert tmp[|h| - 1 - k] == h[k];
    }
  }

  /** The loop that turns newest-first into oldest-first. */
  method Reversed(tmp: seq<Observation>) returns (result: seq<Observation>)
    ensures |result| == |tmp| && forall k :: 0 <= k < |tmp| ==> result[k] == tmp[|tmp| - 1 - k]
  {
    result := [];
    for i := 0 to |tmp|
      invariant |result| == i && forall k :: 0 <= k < i ==> result[k] == tmp[|tmp| - 1 - k]
    {
      result := result + [tmp[|tmp| - 1 - i]];
    }
  }

  class Oracle {
    const capacity: nat
    var updater: Address
    var windowSeconds: nat
    var slots: map<nat, Observation>
    var writeIndex: nat
    var count: nat
    var lastPrice: int
    var lastUpdate: nat
    var active: bool
    /** Everything recorded so far; the buffer keeps only the newest `capacity`. */
    ghost var history: seq<Observation>

    ghost predicate Valid()
      reads this
    {
      && MIN_OBSERVATIONS <= capacity <= MAX_OBSERVATIONS && count == |history|
      && Agrees(slots, writeIndex, lastPrice, lastUpdate, history, capacity)
    }

    constructor (updater: Address, windowSeconds: nat, maxObservations: nat, initialPrice: int, now: nat)
      requires MIN_OBSERVATIONS <= maxObservations <= MAX_OBSERVATIONS && initialPrice > 0
      ensures Valid() && history == [Observation(now, 0, initialPrice)]
      ensures capacity == maxObservations && this.windowSeconds == windowSeconds && this.updater == updater && active
    {
      capacity := maxObservations;
      this.updater, this.windowSeconds, active := updater, windowSeconds, true;
      slots := map[0 := Observation(now, 0, initialPrice)];
      writeIndex, count, lastPrice, lastUpdate := 0, 1, initialPrice, now;
      history := [Observation(now, 0, initialPrice)];
    }

    /** `create_oracle`: the parameter checks, in order, then a seeded buffer. */
    static method Create(updater: Address, windowSeconds: nat, maxObservations: nat, initialPrice: int, now: nat)
      returns (oracle: Oracle?, error: Option<Error>)
      ensures error == if !(60 <= windowSeconds <= 604_800) then Some(InvalidWindow)
                       else if !(2 <= maxObservations <= 256) then Some(InvalidParams)
                       else if initialPrice <= 0 then Some(InvalidPrice) else None
      ensures error.None? <==> oracle != null
      ensures oracle != null ==>
                && oracle.Valid() && fresh(oracle) && oracle.history == [Observation(now, 0, initialPrice)]
                && oracle.capacity == maxObservations && oracle.windowSeconds == windowSeconds
                && oracle.updater == updater && oracle.active
    {
      if windowSeconds < MIN_WINDOW_SECONDS || windowSeconds > MAX_WINDOW_SECONDS {
        return null, Some(InvalidWindow);
      }
      if maxObservations < MIN_OBSERVATIONS || maxObservations > MAX_OBSERVATIONS {
        return null, Some(InvalidParams);
      }
      if initialPrice <= 0 {
        return null, Some(InvalidPrice);
      }
      error := None;
      oracle := new Oracle(updater, windowSeconds, maxObservations, initialPrice, now);
    }

    /** Appends to the history exactly when the update is accepted, overwriting one slot of the ring. */
    method RecordPrice(caller: Address, price: int, now: nat) returns (error: Option<Error>)
      requires Valid()
      modifies this
      ensures Valid()
      ensures error == if price <= 0 then Some(InvalidPrice) else if !old(active) then Some(Inactive)
                       else if old(updater) != caller then Some(Unauthorized)
                       else if now <= old(lastUpdate) then Some(UpdateTooFrequent) else None
      ensures error.Some? ==> history == old(history) && slots == old(slots)
      ensures error.None? ==>
                var prev := old(history)[|old(history)| - 1];
                history == old(history) + [Observation(now, Accumulate(prev, now - old(lastUpdate)), price)]
      ensures updater == old(updater) && windowSeconds == old(windowSeconds) && active == old(active)
    {
      if price <= 0 {
        return Some(InvalidPrice);
      }
      if !active {
        return Some(Inactive);
      }
      if updater != caller {
        return Some(Unauthorized);
      }
      if now < lastUpdate + MIN_UPDATE_INTERVAL {
        return Some(UpdateTooFrequent);
      }
      var observation := NextObservation(price, now);
      var nextIndex := Advance(writeIndex, capacity);
      Store(observation, nextIndex);
      return None;
    }

    /** The new observation extends the accumulator by the previous price's time in force. */
    method NextObservation(price: int, now: nat) returns (o: Observation)
      requires Valid() && lastUpdate < now
      ensures o == Observation(now, Accumulate(history[count - 1], now - lastUpdate), price)
    {
      assert Slot(count - 1, capacity) in slots && slots[writeIndex] == history[count - 1];
      var prev := if writeIndex in slots then slots[writeIndex] else Observation(now, 0, price);
      var elapsed := if now >= prev.timestamp then now - prev.timestamp else 0;
      o := Observation(now, Accumulate(prev, elapsed), price);
    }

    /** Writes the observation into the next slot and moves every field on. */
    method Store(o: Observation, nextIndex: nat)
      requires Valid() && lastUpdate < o.timestamp && o.price > 0
      requires o.cumulative == Accumulate(history[count - 1], o.timestamp - lastUpdate)
      requires nextIndex == if writeIndex + 1 == capacity then 0 else writeIndex + 1
      modifies this`slots, this`writeIndex, this`count, this`lastPrice, this`lastUpdate, this`history
      ensures Valid() && history == old(history) + [o]
    {
      AgreesAfter(slots, writeIndex, lastPrice, lastUpdate, history, capacity, o, nextIndex);
      slots := slots[nextIndex := o];
      writeIndex := nextIndex;
      count := count + 1;
      lastPrice := o.price;
      lastUpdate := o.timestamp;
      history := history + [o];
    }

    // ---------------------------------------------------------------------- reading

    /** The observation recorded `offset` updates before the newest. */
    method ReadBack(offset: nat) returns (o: Observation)
      requires Valid() && offset < capacity && offset < count
      ensures o == history[count - 1 - offset]
    {
      NewestSlot(slots, history, capacity, offset);
      o := slots[RingIndexBack(writeIndex, offset, capacity)];
    }

    /** Newest first, as far back as the buffer goes and the cutoff allows. */
    method WalkBack(cutoff: nat) returns (tmp: seq<Observation>)
      requires Valid()
      ensures |tmp| <= Available(count, capacity)
      ensures forall k :: 0 <= k < |tmp| ==> tmp[k] == history[count - 1 - k] && tmp[k].timestamp >= cutoff
      ensures |tmp| < Available(count, capacity) ==> history[count - 1 - |tmp|].timestamp < cutoff
    {
      var available := Available(count, capacity);
      tmp := [];
      while |tmp| < available
        invariant |tmp| <= available
        invariant forall k :: 0 <= k < |tmp| ==> tmp[k] == history[count - 1 - k] && tmp[k].timestamp >= cutoff
      {
        var o := ReadBack(|tmp|);
        if o.timestamp < cutoff {
          return;
        }
        tmp := tmp + [o];
      }
    }

    /** Exactly the longest suffix of the available history that is no older than newest - window. */
    method CollectWindow(window: nat) returns (result: seq<Observation>)
      requires Valid()
      ensures |result| <= count && result == history[count - |result|..]
      ensures IsWindow(history, Available(count, capacity), window, count - |result|)
    {
      var newest := ReadBack(0);
      var cutoff := Minus(newest.timestamp, window);
      var tmp := WalkBack(cutoff);
      result := Reversed(tmp);
      WindowFound(tmp, result, history, Available(count, capacity), window, cutoff);
    }

    /** The `limit` newest available observations, oldest first. */
    method GetObservations(limit: nat) returns (result: seq<Observation>)
      requires Valid()
      ensures result == history[count - Min(limit, Available(count, capacity))..]
    {
      var wanted := if limit < Available(count, capacity) then limit else Available(count, capacity);
      var tmp: seq<Observation> := [];
      for offset := 0 to wanted
        invariant |tmp| == offset
        invariant forall k :: 0 <= k < offset ==> tmp[k] == history[count - 1 - k]
      {
        var o := ReadBack(offset);
        tmp := tmp + [o];
      }
      result := Reversed(tmp);
      assert forall k :: 0 <= k < |result| ==> result[k] == history[count - wanted..][k];
    }

    /** The answer for the window is what the collected suffix of the full history says. */
    method GetTwap(requested: nat) returns (r: TwapResult)
      requires Valid()
      ensures exists lo :: IsWindow(history, Available(count, capacity), WindowFor(requested, windowSeconds), lo)
                           && r == Twap(history[lo..], lastPrice, lastUpdate)
    {
      var observations := CollectWindow(WindowFor(requested, windowSeconds));
      ghost var lo := count - |observations|;
      r := TwapFrom(observations, lastPrice, lastUpdate);
      assert IsWindow(history, Available(count, capacity), WindowFor(requested, windowSeconds), lo);
    }
  }

  /**
   What the buffer answers, against the full history: unless the newest
   accumulator is saturated, the TWAP over the observations from `lo` on is the
   floor of the time-weighted average price, and lies between the least and
   greatest price in force.
   */
  lemma TwapIsAverage(h: seq<Observation>, lo: nat, least: int, greatest: int, lastPrice: int, lastUpdate: nat)
    requires IsHistory(h) && lo + 2 <= |h| && h[|h| - 1].cumulative < I128_MAX
    requires 0 <= least && forall k :: lo <= k < |h| - 1 ==> least <= h[k].price <= greatest
    ensures var r, last := Twap(h[lo..], lastPrice, lastUpdate), |h| - 1;
            && r.windowUsed == h[last].timestamp - h[lo].timestamp > 0
            && r.twap * r.windowUsed <= Weighted(h, lo, last) < (r.twap + 1) * r.windowUsed
            && least <= r.twap <= greatest
            && r.oldest == h[lo].timestamp && r.newest == h[last].timestamp && r.used == |h| - lo
  {
    var last := |h| - 1;
    Telescopes(h, lo, last);
    CumulativeGrows(h, lo, last);
    WeightedBounds(h, lo, last, least, greatest);
    FloorBetween(Weighted(h, lo, last), h[last].timestamp - h[lo].timestamp, least, greatest);
  }

  /** With fewer than two observations in the window the answer is the last price, over no time. */
  lemma TooFewObservations(h: seq<Observation>, lo: nat, lastPrice: int, lastUpdate: nat)
    requires lo <= |h| <= lo + 1
    ensures Twap(h[lo..], lastPrice, lastUpdate) == TwapResult(lastPrice, 0, lastUpdate, lastUpdate, |h| - lo)
  {
  }

  /** The count cut to 32 bits still covers the buffer exactly when it is small or its low half is large enough. */
  lemma AvailableExact(count: nat, capacity: nat)
    requires 0 < capacity <= MAX_OBSERVATIONS
    ensures Available(count, capacity) == Min(count, capacity) <==>
            count < U32_SIZE || count % U32_SIZE >= capacity
  {
  }
}
