/**
 Tumbling windows and real time. A counter that starts a new window whenever the
 old one is over, or earlier after a halt, bounds what it admits per window; this
 module derives from that a bound on what is admitted in any span of time.
 */
module WindowLog {
  import opened Arithmetic

  /** Something admitted at `time`, counted with `weight` in the window begun at `start`. */
  datatype Admission = Admission(time: nat, weight: nat, start: nat)

  /** The total weight counted in the window begun at `start`. */
  ghost function InWindow(log: seq<Admission>, start: nat): nat {
    if log == [] then 0 else
      var last := log[|log| - 1];
      InWindow(log[..|log| - 1], start) + if last.start == start then last.weight else 0
  }

  /** The total weight admitted at times in [from, from + span). */
  ghost function InSpan(log: seq<Admission>, from: nat, span: nat): nat {
    if log == [] then 0 else
      var last := log[|log| - 1];
      InSpan(log[..|log| - 1], from, span) + if from <= last.time < from + span then last.weight else 0
  }

  /** The total weight counted in windows begun in [from, from + span). */
  ghost function Started(log: seq<Admission>, from: nat, span: nat): nat {
    if log == [] then 0 else
      var last := log[|log| - 1];
      Started(log[..|log| - 1], from, span) + if from <= last.start < from + span then last.weight else 0
  }

  /** Window `a` is over when the one of `b` begins, `gap` or more after `a` began. */
  predicate Before(a: Admission, gap: nat, start: nat) {
    a.start + gap <= start && a.time <= start
  }

  /** Admissions come in time order, in windows that follow each other at least `gap` apart. */
  ghost predicate Spaced(log: seq<Admission>, gap: nat) {
    && (forall i :: 0 <= i < |log| ==> log[i].start <= log[i].time)
    && (forall i, j :: 0 <= i <= j < |log| ==>
          log[i].time <= log[j].time && (log[i].start == log[j].start || Before(log[i], gap, log[j].start)))
  }

  ghost predicate WindowsBounded(log: seq<Admission>, bound: int) {
    forall start :: InWindow(log, start) <= bound
  }

  /** All windows of the log are over when one begins at `start`. */
  ghost predicate OverBy(log: seq<Admission>, gap: nat, start: nat) {
    forall i :: 0 <= i < |log| ==> Before(log[i], gap, start)
  }

  /** (start, total) is the current window and what the log counts in it. */
  ghost predicate Tracks(log: seq<Admission>, gap: nat, start: nat, total: nat) {
    && (forall i :: 0 <= i < |log| ==> log[i].start == start || Before(log[i], gap, start))
    && InWindow(log, start) == total
  }

  lemma {:induction false} NothingIn(log: seq<Admission>, start: nat)
    requires forall i :: 0 <= i < |log| ==> log[i].start != start
    ensures InWindow(log, start) == 0
  {
    if log != [] {
      NothingIn(log[..|log| - 1], start);
    }
  }

  lemma TracksFresh(log: seq<Admission>, gap: nat, start: nat)
    requires gap > 0 && OverBy(log, gap, start)
    ensures Tracks(log, gap, start, 0)
  {
    NothingIn(log, start);
  }

  /** A window that has run its whole span is over, whatever the gap. */
  lemma OldWindowOver(log: seq<Admission>, gap: nat, start: nat, total: nat, now: nat)
    requires Tracks(log, gap, start, total) && start + gap <= now
    requires forall i :: 0 <= i < |log| ==> log[i].time <= now
    ensures OverBy(log, gap, now)
  {
  }

  lemma AppendCounts(log: seq<Admission>, a: Admission, w: nat)
    ensures InWindow(log + [a], w) == InWindow(log, w) + if a.start == w then a.weight else 0
  {
    assert (log + [a])[..|log|] == log;
  }

  lemma AppendSpaced(log: seq<Admission>, gap: nat, a: Admission)
    requires Spaced(log, gap) && a.start <= a.time
    requires forall i :: 0 <= i < |log| ==>
               log[i].time <= a.time && (log[i].start == a.start || Before(log[i], gap, a.start))
    ensures Spaced(log + [a], gap)
  {
    var after := log + [a];
    forall i, j | 0 <= i <= j < |after|
      ensures after[i].time <= after[j].time
      ensures after[i].start == after[j].start || Before(after[i], gap, after[j].start)
    {
      if j < |log| {
        assert after[i] == log[i] && after[j] == log[j];
      }
    }
  }

  lemma AppendBounded(log: seq<Admission>, a: Admission, bound: int)
    requires WindowsBounded(log, bound) && InWindow(log, a.start) + a.weight <= bound
    ensures WindowsBounded(log + [a], bound)
  {
    forall w: nat ensures InWindow(log + [a], w) <= bound {
      AppendCounts(log, a, w);
    }
  }

  /** Counting one more admission in the current window. */
  lemma Append(log: seq<Admission>, gap: nat, start: nat, total: nat, bound: int, now: nat, weight: nat)
    requires Spaced(log, gap) && WindowsBounded(log, bound) && Tracks(log, gap, start, total)
    requires start <= now && total + weight <= bound
    requires forall i :: 0 <= i < |log| ==> log[i].time <= now
    ensures var after := log + [Admission(now, weight, start)];
            && Spaced(after, gap) && WindowsBounded(after, bound) && Tracks(after, gap, start, total + weight)
  {
    var a := Admission(now, weight, start);
    AppendSpaced(log, gap, a);
    AppendCounts(log, a, start);
    AppendBounded(log, a, bound);
  }

  // --------------------------------------------------------- from windows to spans

  lemma {:induction false} StartedSplits(log: seq<Admission>, from: nat, a: nat, b: nat)
    ensures Started(log, from, a + b) == Started(log, from, a) + Started(log, from + a, b)
  {
    if log != [] {
      StartedSplits(log[..|log| - 1], from, a, b);
    }
  }

  lemma {:induction false} StartedWithin(log: seq<Admission>, from: nat, span: nat, start: nat)
    requires forall i :: 0 <= i < |log| && from <= log[i].start < from + span ==> log[i].start == start
    ensures Started(log, from, span) <= InWindow(log, start)
  {
    if log != [] {
      StartedWithin(log[..|log| - 1], from, span, start);
    }
  }

  /** At most one window begins within `gap`. */
  lemma OneStart(log: seq<Admission>, from: nat, gap: nat, bound: int)
    requires Spaced(log, gap) && WindowsBounded(log, bound)
    ensures Started(log, from, gap) <= bound
  {
    var start := from;
    if i :| 0 <= i < |log| && from <= log[i].start < from + gap {
      start := log[i].start;
    }
    StartedWithin(log, from, gap, start);
    assert InWindow(log, start) <= bound;
  }

  /** At most `k` windows begin within `k` gaps. */
  lemma {:induction false} StartsBound(log: seq<Admission>, from: nat, gap: nat, k: nat, bound: int)
    requires Spaced(log, gap) && WindowsBounded(log, bound)
    ensures Started(log, from, k * gap) <= k * bound
    decreases k
  {
    if k == 0 {
      StartedWithin(log, from, 0, from);
      StartedSplits(log, from, 0, 0);
    } else {
      StartsBound(log, from + gap, gap, k - 1, bound);
      OneStart(log, from, gap, bound);
      Distribute(1, k - 1, gap);
      Distribute(1, k - 1, bound);
      StartedSplits(log, from, gap, (k - 1) * gap);
    }
  }

  /** What a span admits was counted in windows begun in it, or in the one window begun before it. */
  lemma {:induction false} SpanCovered(log: seq<Admission>, from: nat, span: nat, reach: nat, begun: nat)
    requires span <= reach
    requires forall i :: 0 <= i < |log| ==> log[i].start <= log[i].time
    requires forall i :: 0 <= i < |log| && log[i].start < from <= log[i].time ==> log[i].start == begun
    ensures InSpan(log, from, span) <= Started(log, from, reach) + InWindow(log, begun)
  {
    if log != [] {
      SpanCovered(log[..|log| - 1], from, span, reach, begun);
    }
  }

  /**
   A span of at most `k` gaps meets at most `k` windows begun in it and one begun
   before it, so at most `k + 1` times the bound per window is admitted in it.
   */
  lemma SpanBound(log: seq<Admission>, from: nat, span: nat, gap: nat, k: nat, bound: int)
    requires Spaced(log, gap) && WindowsBounded(log, bound) && span <= k * gap
    ensures InSpan(log, from, span) <= (k + 1) * bound
  {
    var begun := from;
    if i :| 0 <= i < |log| && log[i].start < from <= log[i].time {
      begun := log[i].start;
    }
    SpanCovered(log, from, span, k * gap, begun);
    StartsBound(log, from, gap, k, bound);
    assert InWindow(log, begun) <= bound;
    Distribute(k, 1, bound);
  }
}
