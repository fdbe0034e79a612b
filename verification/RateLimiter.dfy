/**
 The sliding-window rate limiter: a pruned list of timestamps per address must
 decide exactly as the full list of acceptances would. The clock is a parameter.
 */
module RateLimiter {
  import opened Host

  datatype Limits = Limits(maxTx: nat, windowSecs: int)

  datatype State = State(windows: map<string, seq<int>>, blacklist: seq<string>, whitelist: seq<string>)

  const EMPTY: State := State(map[], [], [])

  // ------------------------------------------------------------------- the operations

  /** `retain(|t| t > cutoff)`. */
  function Retained(ts: seq<int>, cutoff: int): seq<int> {
    if ts == [] then [] else
      Retained(ts[..|ts| - 1], cutoff) + if ts[|ts| - 1] > cutoff then [ts[|ts| - 1]] else []
  }

  function Check(l: Limits, s: State, address: string, now: int): (State, bool) {
    if address in s.blacklist then (s, false)
    else if address in s.whitelist then (s, true)
    else
      var recent := Retained(Get(s.windows, address, []), now - l.windowSecs);
      if |recent| >= l.maxTx then (s.(windows := s.windows[address := recent]), false)
      else (s.(windows := s.windows[address := recent + [now]]), true)
  }

  function Insert(list: seq<string>, a: string): seq<string> {
    if a in list then list else list + [a]
  }

  function Remove(list: seq<string>, a: string): seq<string> {
    if list == [] then [] else Remove(list[..|list| - 1], a) + if list[|list| - 1] == a then [] else [list[|list| - 1]]
  }

  method Contains(list: seq<string>, a: string) returns (found: bool)
    ensures found <==> a in list
  {
    for i := 0 to |list|
      invariant a !in list[..i]
    {
      if list[i] == a {
        return true;
      }
    }
    return false;
  }

  method Retain(ts: seq<int>, cutoff: int) returns (kept: seq<int>)
    ensures kept == Retained(ts, cutoff)
  {
    kept := [];
    for i := 0 to |ts|
      invariant kept == Retained(ts[..i], cutoff)
    {
      assert ts[..i + 1][..i] == ts[..i];
      if ts[i] > cutoff {
        kept := kept + [ts[i]];
      }
    }
    assert ts[..|ts|] == ts;
  }

  ghost predicate NoDuplicates(list: seq<string>) {
    forall i, j :: 0 <= i < j < |list| ==> list[i] != list[j]
  }

  /** Listing an address adds it, no other, and never twice. */
  lemma InsertAdds(list: seq<string>, a: string)
    ensures forall b :: b in Insert(list, a) <==> b == a || b in list
    ensures NoDuplicates(list) ==> NoDuplicates(Insert(list, a))
    ensures list <= Insert(list, a)
  {
  }

  /** The limiter in its own form: vectors held in maps and edited in place. */
  class Limiter {
    const limits: Limits
    var windows: map<string, seq<int>>
    var blacklist: seq<string>
    var whitelist: seq<string>

    constructor (limits: Limits)
      ensures this.limits == limits && Current() == EMPTY
    {
      this.limits := limits;
      windows, blacklist, whitelist := map[], [], [];
    }

    function Current(): State
      reads this
    {
      State(windows, blacklist, whitelist)
    }

    method CheckAddress(address: string, now: int) returns (allowed: bool)
      modifies this
      ensures (Current(), allowed) == Check(limits, old(Current()), address, now)
    {
      var black := Contains(blacklist, address);
      if black {
        return false;
      }
      var white := Contains(whitelist, address);
      if white {
        return true;
      }
      var cutoff := now - limits.windowSecs;
      var timestamps := Get(windows, address, []);
      timestamps := Retain(timestamps, cutoff);
      if |timestamps| >= limits.maxTx {
        windows := windows[address := timestamps];
        return false;
      }
      timestamps := timestamps + [now];
      windows := windows[address := timestamps];
      return true;
    }

    method AddToBlacklist(address: string)
      modifies this`blacklist
      ensures blacklist == Insert(old(blacklist), address)
      ensures forall b :: b in blacklist <==> b == address || b in old(blacklist)
      ensures NoDuplicates(old(blacklist)) ==> NoDuplicates(blacklist)
    {
      InsertAdds(blacklist, address);
      var present := Contains(blacklist, address);
      if !present {
        blacklist := blacklist + [address];
      }
    }

    method AddToWhitelist(address: string)
      modifies this`whitelist
      ensures whitelist == Insert(old(whitelist), address)
      ensures forall b :: b in whitelist <==> b == address || b in old(whitelist)
      ensures NoDuplicates(old(whitelist)) ==> NoDuplicates(whitelist)
    {
      InsertAdds(whitelist, address);
      var present := Contains(whitelist, address);
      if !present {
        whitelist := whitelist + [address];
      }
    }

    method RemoveFromBlacklist(address: string)
      modifies this`blacklist
      ensures blacklist == Remove(old(blacklist), address)
    {
      var kept: seq<string> := [];
      var all := blacklist;
      for i := 0 to |all|
        invariant kept == Remove(all[..i], address) && blacklist == all
      {
        assert all[..i + 1][..i] == all[..i];
        if all[i] != address {
          kept := kept + [all[i]];
        }
      }
      assert all[..|all|] == all;
      blacklist := kept;
    }
  }

  lemma {:induction false} RemoveRemoves(list: seq<string>, a: string)
    ensures a !in Remove(list, a) && forall b :: b != a ==> (b in Remove(list, a) <==> b in list)
  {
    if list != [] {
      RemoveRemoves(list[..|list| - 1], a);
      assert list == list[..|list| - 1] + [list[|list| - 1]];
    }
  }

  /** Removal keeps the rest without duplicates. */
  lemma {:induction false} RemoveKeepsDistinct(list: seq<string>, a: string)
    requires NoDuplicates(list)
    ensures NoDuplicates(Remove(list, a))
  {
    if list != [] {
      var rest, last := list[..|list| - 1], list[|list| - 1];
      RemoveKeepsDistinct(rest, a);
      RemoveRemoves(rest, a);
      assert last !in rest;
      assert last == a || last !in Remove(rest, a);
    }
  }

  // ----------------------------------------------------------------------------- runs

  datatype Kind = Checking(address: string) | Blacklisting(address: string) | Unblacklisting(address: string)
                | Whitelisting(address: string)

  datatype Op = Op(now: int, kind: Kind)

  function Next(l: Limits, s: State, op: Op): (State, bool) {
    match op.kind
    case Checking(a) => Check(l, s, a, op.now)
    case Blacklisting(a) => (s.(blacklist := Insert(s.blacklist, a)), false)
    case Unblacklisting(a) => (s.(blacklist := Remove(s.blacklist, a)), false)
    case Whitelisting(a) => (s.(whitelist := Insert(s.whitelist, a)), false)
  }

  datatype Run = Run(states: seq<State>, ops: seq<Op>, answers: seq<bool>)

  ghost predicate IsStep(l: Limits, r: Run, i: int) {
    && 0 <= i < |r.ops| && |r.states| == |r.ops| + 1 && |r.answers| == |r.ops|
    && (r.states[i + 1], r.answers[i]) == Next(l, r.states[i], r.ops[i])
  }

  /** A run from an empty limiter under a clock that does not go back. */
  ghost predicate IsRun(l: Limits, r: Run) {
    && |r.states| == |r.ops| + 1 && |r.answers| == |r.ops| && r.states[0] == EMPTY
    && (forall i {:trigger IsStep(l, r, i)} :: 0 <= i < |r.ops| ==> IsStep(l, r, i))
    && (forall i, j :: 0 <= i <= j < |r.ops| ==> r.ops[i].now <= r.ops[j].now)
  }

  /** Operation `i` accepted `a` on its own merit, not because it is whitelisted. */
  predicate Counts(r: Run, i: nat, a: string)
    requires i < |r.ops| && |r.states| == |r.ops| + 1 && |r.answers| == |r.ops|
  {
    r.ops[i].kind == Checking(a) && r.answers[i] && a !in r.states[i].whitelist
  }

  /** The times of all such acceptances of `a` before operation `i`: nothing is ever dropped. */
  ghost function Accepted(r: Run, i: nat, a: string): seq<int>
    requires i <= |r.ops| && |r.states| == |r.ops| + 1 && |r.answers| == |r.ops|
  {
    if i == 0 then [] else Accepted(r, i - 1, a) + if Counts(r, i - 1, a) then [r.ops[i - 1].now] else []
  }

  /** In every run both lists stay free of duplicates. */
  lemma {:induction false} ListsDistinct(l: Limits, r: Run, i: nat)
    requires IsRun(l, r) && i <= |r.ops|
    ensures NoDuplicates(r.states[i].blacklist) && NoDuplicates(r.states[i].whitelist)
  {
    if i > 0 {
      ListsDistinct(l, r, i - 1);
      assert IsStep(l, r, i - 1);
      var s, op := r.states[i - 1], r.ops[i - 1];
      if op.kind.Blacklisting? || op.kind.Whitelisting? {
        InsertAdds(s.blacklist, op.kind.address);
        InsertAdds(s.whitelist, op.kind.address);
      } else if op.kind.Unblacklisting? {
        RemoveKeepsDistinct(s.blacklist, op.kind.address);
      }
    }
  }

  // ------------------------------------------------------------- pruned versus full list

  ghost predicate Sorted(ts: seq<int>, last: int) {
    && (forall i, j :: 0 <= i <= j < |ts| ==> ts[i] <= ts[j])
    && (forall i :: 0 <= i < |ts| ==> ts[i] <= last)
  }

  ghost predicate PrunesAt(full: seq<int>, window: seq<int>, cutoff: int, n: int) {
    0 <= n <= |full| && window == full[n..] && forall k :: 0 <= k < n ==> full[k] <= cutoff
  }

  /** `window` is `full` without some old entries, none of them newer than the cutoff. */
  ghost predicate Prunes(full: seq<int>, window: seq<int>, cutoff: int) {
    exists n :: PrunesAt(full, window, cutoff, n)
  }

  lemma RetainedAppend(ts: seq<int>, t: int, cutoff: int)
    ensures Retained(ts + [t], cutoff) == Retained(ts, cutoff) + if t > cutoff then [t] else []
  {
    assert (ts + [t])[..|ts|] == ts;
  }

  /** What is retained of a sorted list is what comes after some point. */
  lemma {:induction false} RetainedCut(ts: seq<int>, cutoff: int, last: int) returns (m: nat)
    requires Sorted(ts, last)
    ensures m <= |ts| && Retained(ts, cutoff) == ts[m..]
    ensures (forall k :: 0 <= k < m ==> ts[k] <= cutoff) && (forall k :: m <= k < |ts| ==> ts[k] > cutoff)
  {
    if ts == [] {
      m := 0;
    } else {
      var init, newest := ts[..|ts| - 1], ts[|ts| - 1];
      m := RetainedCut(init, cutoff, last);
      if newest > cutoff {
        assert ts[m..] == init[m..] + [newest];
      } else {
        assert forall k :: 0 <= k < |init| ==> init[k] <= newest;
        m := |ts|;
      }
    }
  }

  lemma RetainedIsSuffix(full: seq<int>, n: nat, cutoff: int, last: int) returns (m: nat)
    requires Sorted(full, last) && n <= |full|
    ensures n <= m <= |full| && Retained(full[n..], cutoff) == full[m..]
    ensures (forall k :: n <= k < m ==> full[k] <= cutoff) && (forall k :: m <= k < |full| ==> full[k] > cutoff)
  {
    var ts := full[n..];
    var k := RetainedCut(ts, cutoff, last);
    m := n + k;
    assert ts[k..] == full[m..];
    forall i | n <= i < |full| ensures full[i] == ts[i - n] {
    }
  }

  lemma SameCut(full: seq<int>, m: nat, k: nat, cutoff: int)
    requires m <= |full| && k <= |full|
    requires (forall j :: 0 <= j < m ==> full[j] <= cutoff) && (forall j :: m <= j < |full| ==> full[j] > cutoff)
    requires (forall j :: 0 <= j < k ==> full[j] <= cutoff) && (forall j :: k <= j < |full| ==> full[j] > cutoff)
    ensures m == k
  {
    assert m < |full| ==> full[m] > cutoff;
    assert k < |full| ==> full[k] > cutoff;
  }

  /** Pruning again at a later time keeps the same entries from the pruned as from the full list. */
  lemma PrunedDecides(full: seq<int>, window: seq<int>, before: int, cutoff: int, last: int)
    requires Sorted(full, last) && Prunes(full, window, before) && before <= cutoff
    ensures Retained(window, cutoff) == Retained(full, cutoff)
    ensures Prunes(full, Retained(window, cutoff), cutoff)
  {
    var n :| PrunesAt(full, window, before, n);
    var m := RetainedIsSuffix(full, n, cutoff, last);
    assert full[0..] == full;
    var k := RetainedIsSuffix(full, 0, cutoff, last);
    SameCut(full, m, k, cutoff);
    assert PrunesAt(full, Retained(window, cutoff), cutoff, m);
  }

  ghost predicate Good(l: Limits, s: State, full: seq<int>, a: string, now: int) {
    Sorted(full, now) && Prunes(full, Get(s.windows, a, []), now - l.windowSecs)
  }

  lemma PrunesLater(full: seq<int>, window: seq<int>, before: int, cutoff: int)
    requires Prunes(full, window, before) && before <= cutoff
    ensures Prunes(full, window, cutoff)
  {
    var n :| PrunesAt(full, window, before, n);
    assert PrunesAt(full, window, cutoff, n);
  }

  lemma PrunesAppend(full: seq<int>, window: seq<int>, cutoff: int, now: int)
    requires Prunes(full, window, cutoff)
    ensures Prunes(full + [now], window + [now], cutoff)
  {
    var n :| PrunesAt(full, window, cutoff, n);
    assert PrunesAt(full + [now], window + [now], cutoff, n);
  }

  /** What the full list says of a request. */
  predicate Allows(l: Limits, s: State, full: seq<int>, a: string, now: int) {
    a !in s.blacklist && (a in s.whitelist || |Retained(full, now - l.windowSecs)| < l.maxTx)
  }

  lemma SortedAppend(full: seq<int>, before: int, now: int)
    requires Sorted(full, before) && before <= now
    ensures Sorted(full + [now], now) && Sorted(full, now)
  {
    var after := full + [now];
    forall i, j | 0 <= i <= j < |after| ensures after[i] <= after[j] {
      if j < |full| {
        assert full[i] <= full[j];
      }
    }
  }

  lemma CheckDecides(l: Limits, s: State, full: seq<int>, a: string, before: int, now: int)
    requires Good(l, s, full, a, before) && before <= now
    ensures Check(l, s, a, now).1 <==> Allows(l, s, full, a, now)
  {
    PrunedDecides(full, Get(s.windows, a, []), before - l.windowSecs, now - l.windowSecs, before);
  }

  /** What a check on the address's own merit answers and leaves stored. */
  lemma CheckWindow(l: Limits, s: State, a: string, now: int, recent: seq<int>)
    requires a !in s.blacklist && a !in s.whitelist && recent == Retained(Get(s.windows, a, []), now - l.windowSecs)
    ensures var (next, ok) := Check(l, s, a, now);
            ok == (|recent| < l.maxTx) && Get(next.windows, a, []) == if ok then recent + [now] else recent
  {
  }

  lemma CheckKeeps(l: Limits, s: State, full: seq<int>, a: string, before: int, now: int)
    requires Good(l, s, full, a, before) && before <= now
    ensures var (next, ok) := Check(l, s, a, now);
            Good(l, next, if ok && a !in s.whitelist then full + [now] else full, a, now)
  {
    var window, cutoff := Get(s.windows, a, []), now - l.windowSecs;
    SortedAppend(full, before, now);
    if a in s.blacklist || a in s.whitelist {
      PrunesLater(full, window, before - l.windowSecs, cutoff);
    } else {
      PrunedDecides(full, window, before - l.windowSecs, cutoff, before);
      PrunesAppend(full, Retained(window, cutoff), cutoff, now);
      CheckWindow(l, s, a, now, Retained(window, cutoff));
    }
  }

  lemma OthersKept(l: Limits, s: State, op: Op, a: string)
    requires op.kind != Checking(a)
    ensures Get(Next(l, s, op).0.windows, a, []) == Get(s.windows, a, [])
  {
  }

  /** The time before operation `i`. */
  function Clock(r: Run, i: nat): int
    requires i <= |r.ops|
  {
    if i == 0 then (if r.ops == [] then 0 else r.ops[0].now) else r.ops[i - 1].now
  }

  lemma StepGood(l: Limits, s: State, full: seq<int>, op: Op, a: string, before: int)
    requires Good(l, s, full, a, before) && before <= op.now
    ensures var (next, ok) := Next(l, s, op);
            var counts := op.kind == Checking(a) && ok && a !in s.whitelist;
            Good(l, next, if counts then full + [op.now] else full, a, op.now)
  {
    if op.kind == Checking(a) {
      CheckKeeps(l, s, full, a, before, op.now);
    } else {
      OthersKept(l, s, op, a);
      SortedAppend(full, before, op.now);
      PrunesLater(full, Get(s.windows, a, []), before - l.windowSecs, op.now - l.windowSecs);
    }
  }

  lemma {:induction false} RunGood(l: Limits, r: Run, i: nat, a: string)
    requires IsRun(l, r) && i <= |r.ops|
    ensures Good(l, r.states[i], Accepted(r, i, a), a, Clock(r, i))
  {
    if i == 0 {
      assert PrunesAt([], [], Clock(r, 0) - l.windowSecs, 0);
    } else {
      RunGood(l, r, i - 1, a);
      assert IsStep(l, r, i - 1);
      var s, op, full := r.states[i - 1], r.ops[i - 1], Accepted(r, i - 1, a);
      assert full + [] == full;
      StepGood(l, s, full, op, a, Clock(r, i - 1));
    }
  }

  /** Every decision is the one the full list of acceptances gives. */
  lemma DecidesByFullHistory(l: Limits, r: Run, i: nat, a: string)
    requires IsRun(l, r) && i < |r.ops| && r.ops[i].kind == Checking(a)
    ensures r.answers[i] <==> Allows(l, r.states[i], Accepted(r, i, a), a, r.ops[i].now)
  {
    RunGood(l, r, i, a);
    assert IsStep(l, r, i);
    CheckDecides(l, r.states[i], Accepted(r, i, a), a, Clock(r, i), r.ops[i].now);
  }

  // ----------------------------------------------------------------------- any window

  /** How many times lie in (from, upto]. */
  ghost function CountIn(ts: seq<int>, from: int, upto: int): nat {
    if ts == [] then 0 else CountIn(ts[..|ts| - 1], from, upto) + if from < ts[|ts| - 1] <= upto then 1 else 0
  }

  lemma {:induction false} CountWithinRetained(ts: seq<int>, from: int, upto: int, cutoff: int)
    requires cutoff <= from
    ensures CountIn(ts, from, upto) <= |Retained(ts, cutoff)|
  {
    if ts != [] {
      CountWithinRetained(ts[..|ts| - 1], from, upto, cutoff);
    }
  }

  /** In any window of `windowSecs`, at most `maxTx` acceptances of an address that is not whitelisted. */
  lemma {:induction false} WindowLimit(l: Limits, r: Run, i: nat, a: string, from: int)
    requires IsRun(l, r) && i <= |r.ops|
    ensures CountIn(Accepted(r, i, a), from, from + l.windowSecs) <= l.maxTx
  {
    if i > 0 {
      WindowLimit(l, r, i - 1, a, from);
      var full, now := Accepted(r, i - 1, a), r.ops[i - 1].now;
      if Counts(r, i - 1, a) && from < now <= from + l.windowSecs {
        DecidesByFullHistory(l, r, i - 1, a);
        RetainedAppend(full, now, now - l.windowSecs);
        CountWithinRetained(full + [now], from, from + l.windowSecs, now - l.windowSecs);
      } else if Counts(r, i - 1, a) {
        assert (full + [now])[..|full|] == full;
      } else {
        assert Accepted(r, i, a) == full;
      }
    }
  }

  lemma {:induction false} RetainedCounts(ts: seq<int>, cutoff: int, upto: int)
    requires forall i :: 0 <= i < |ts| ==> ts[i] <= upto
    ensures |Retained(ts, cutoff)| == CountIn(ts, cutoff, upto)
  {
    if ts != [] {
      RetainedCounts(ts[..|ts| - 1], cutoff, upto);
    }
  }

  /**
   Every decision in numbers: an address that is not blacklisted is accepted exactly
   when it is whitelisted, or fewer than `maxTx` of its acceptances lie in the
   window that ends now.
   */
  lemma DecidesByCount(l: Limits, r: Run, i: nat, a: string)
    requires IsRun(l, r) && i < |r.ops| && r.ops[i].kind == Checking(a)
    ensures var now := r.ops[i].now;
            r.answers[i] <==>
            && a !in r.states[i].blacklist
            && (a in r.states[i].whitelist || CountIn(Accepted(r, i, a), now - l.windowSecs, now) < l.maxTx)
  {
    var now := r.ops[i].now;
    DecidesByFullHistory(l, r, i, a);
    RunGood(l, r, i, a);
    assert Clock(r, i) <= now;
    RetainedCounts(Accepted(r, i, a), now - l.windowSecs, now);
  }
}
