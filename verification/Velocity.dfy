/** Clock, CircuitBreaker and VelocityGuard of src/security/guards.py, and the sliding-window
    bound the guard enforces. */
module Velocity {
  import opened Basics

  datatype Limits = Limits(minInterval: int, maxPerWindow: int, window: int)

  datatype GuardState = GuardState(last: Option<int>, times: seq<int>)

  /** The times no more than window before now, in order. */
  function Prune(times: seq<int>, now: int, window: int): seq<int> {
    if times == [] then []
    else
      Prune(times[..|times| - 1], now, window)
      + if now - times[|times| - 1] <= window then [times[|times| - 1]] else []
  }

  /** check at a given time; false is ValueError. A refusal by rate still prunes. */
  function CheckSpec(lim: Limits, st: GuardState, now: int): (GuardState, bool) {
    if st.last.Some? && now - st.last.value < lim.minInterval then (st, false)
    else
      var kept := Prune(st.times, now, lim.window);
      if |kept| >= lim.maxPerWindow then (st.(times := kept), false)
      else (GuardState(Some(now), kept + [now]), true)
  }

  /** The manual clock. */
  class Clock {
    var t: int

    constructor ()
      ensures t == 0
    {
      t := 0;
    }

    /** advance; false is the ValueError of going backwards. */
    method Advance(dt: int) returns (ok: bool)
      modifies this
      ensures ok == (dt >= 0) && t == if dt >= 0 then old(t) + dt else old(t)
      ensures t >= old(t)
    {
      ok := dt >= 0;
      if ok {
        t := t + dt;
      }
    }
  }

  class CircuitBreaker {
    var open: bool
    var openedAt: Option<int>

    constructor ()
      ensures !open
    {
      open, openedAt := false, None;
    }

    method Halt(now: int)
      modifies this
      ensures open && openedAt == Some(now)
    {
      open, openedAt := true, Some(now);
    }

    method Resume()
      modifies this
      ensures !open && openedAt == None
    {
      open, openedAt := false, None;
    }
  }

  class VelocityGuard {
    const lim: Limits
    const clock: Clock
    var last: Option<int>
    var times: seq<int>

    function View(): GuardState
      reads this
    {
      GuardState(last, times)
    }

    constructor (lim: Limits, clock: Clock)
      ensures this.lim == lim && this.clock == clock && View() == GuardState(None, [])
    {
      this.lim, this.clock := lim, clock;
      last, times := None, [];
    }

    /** check, with the list comprehension of the source as its loop. */
    method Check() returns (ok: bool)
      modifies this
      ensures (View(), ok) == CheckSpec(lim, old(View()), clock.t)
    {
      var now := clock.t;
      if last.Some? && now - last.value < lim.minInterval {
        return false;
      }
      var kept, i := [], 0;
      while i < |times|
        invariant 0 <= i <= |times| && kept == Prune(times[..i], now, lim.window)
        invariant times == old(times) && last == old(last)
      {
        assert times[..i + 1][..i] == times[..i];
        if now - times[i] <= lim.window {
          kept := kept + [times[i]];
        }
        i := i + 1;
      }
      assert times[..i] == times;
      times := kept;
      if |times| >= lim.maxPerWindow {
        return false;
      }
      last := Some(now);
      times := times + [now];
      return true;
    }
  }

  // ----- runs -----

  function After(lim: Limits, nows: seq<int>): GuardState {
    if nows == [] then GuardState(None, [])
    else CheckSpec(lim, After(lim, nows[..|nows| - 1]), nows[|nows| - 1]).0
  }

  /** The times of the successful checks of a run, in order. */
  function Successes(lim: Limits, nows: seq<int>): seq<int> {
    if nows == [] then []
    else
      var before, now := nows[..|nows| - 1], nows[|nows| - 1];
      Successes(lim, before) + if CheckSpec(lim, After(lim, before), now).1 then [now] else []
  }

  ghost predicate Nondecreasing(s: seq<int>) {
    forall i, j :: 0 <= i < j < |s| ==> s[i] <= s[j]
  }

  /** How many of the times lie in the closed interval from lo to hi. */
  function CountIn(s: seq<int>, lo: int, hi: int): nat {
    if s == [] then 0
    else CountIn(s[..|s| - 1], lo, hi) + if lo <= s[|s| - 1] <= hi then 1 else 0
  }

  lemma CountSnoc(s: seq<int>, x: int, lo: int, hi: int)
    ensures CountIn(s + [x], lo, hi) == CountIn(s, lo, hi) + if lo <= x <= hi then 1 else 0
  {
    assert (s + [x])[..|s|] == s;
  }

  lemma PruneSnoc(s: seq<int>, x: int, now: int, window: int)
    ensures Prune(s + [x], now, window) == Prune(s, now, window) + if now - x <= window then [x] else []
  {
    assert (s + [x])[..|s|] == s;
  }

  /** Pruning early loses nothing that a later pruning would keep. */
  lemma {:induction false} PrunePrune(s: seq<int>, now: int, later: int, window: int)
    requires now <= later
    ensures Prune(Prune(s, now, window), later, window) == Prune(s, later, window)
  {
    if s == [] {
    } else {
      var n := |s| - 1;
      PrunePrune(s[..n], now, later, window);
      PruneSnoc(Prune(s[..n], now, window), s[n], later, window);
      assert Prune(s[..n], now, window) + [] == Prune(s[..n], now, window);
    }
  }

  lemma StepHistory(lim: Limits, st: GuardState, acc: seq<int>, now: int, later: int)
    requires now <= later
    requires Prune(st.times, now, lim.window) == Prune(acc, now, lim.window)
    requires Prune(st.times, later, lim.window) == Prune(acc, later, lim.window)
    ensures Prune(CheckSpec(lim, st, now).0.times, later, lim.window)
         == Prune(acc + if CheckSpec(lim, st, now).1 then [now] else [], later, lim.window)
  {
    hide Prune;
    PrunePrune(st.times, now, later, lim.window);
    PruneSnoc(Prune(st.times, now, lim.window), now, later, lim.window);
    PruneSnoc(acc, now, later, lim.window);
    assert acc + [] == acc;
  }

  lemma PrefixNondecreasing(s: seq<int>)
    requires s != [] && Nondecreasing(s)
    ensures Nondecreasing(s[..|s| - 1])
    ensures |s| > 1 ==> s[..|s| - 1][|s| - 2] <= s[|s| - 1]
  {}

  /** The pruned list is as good as the full history for every later check. */
  lemma {:induction false} HistoryNotNeeded(lim: Limits, nows: seq<int>, later: int)
    requires Nondecreasing(nows) && (nows != [] ==> nows[|nows| - 1] <= later)
    ensures Prune(After(lim, nows).times, later, lim.window) == Prune(Successes(lim, nows), later, lim.window)
  {
    hide Nondecreasing, Prune, CheckSpec;
    if nows != [] {
      var before, now := nows[..|nows| - 1], nows[|nows| - 1];
      PrefixNondecreasing(nows);
      HistoryNotNeeded(lim, before, later);
      HistoryNotNeeded(lim, before, now);
      StepHistory(lim, After(lim, before), Successes(lim, before), now, later);
    }
  }

  /** Every time in a closed interval of window length survives pruning at a time in it. */
  lemma {:induction false} IntervalSurvives(s: seq<int>, lo: int, now: int, window: int)
    requires lo <= now <= lo + window
    ensures CountIn(s, lo, lo + window) <= |Prune(s, now, window)|
  {
    if s != [] { IntervalSurvives(s[..|s| - 1], lo, now, window); }
  }

  lemma StepWindow(lim: Limits, st: GuardState, acc: seq<int>, now: int, lo: int)
    requires Prune(st.times, now, lim.window) == Prune(acc, now, lim.window)
    requires CountIn(acc, lo, lo + lim.window) <= AtLeastZero(lim.maxPerWindow)
    ensures CountIn(acc + if CheckSpec(lim, st, now).1 then [now] else [], lo, lo + lim.window) <= AtLeastZero(lim.maxPerWindow)
  {
    CountSnoc(acc, now, lo, lo + lim.window);
    assert acc + [] == acc;
    if lo <= now <= lo + lim.window {
      IntervalSurvives(acc, lo, now, lim.window);
    }
  }

  /** The rate limit is a true sliding window: in every run with a nondecreasing clock, each
      closed interval of window length contains at most maxPerWindow successes. */
  lemma {:induction false} SlidingWindow(lim: Limits, nows: seq<int>, lo: int)
    requires Nondecreasing(nows)
    ensures CountIn(Successes(lim, nows), lo, lo + lim.window) <= AtLeastZero(lim.maxPerWindow)
  {
    hide Nondecreasing, Prune, CheckSpec;
    if nows == [] {
    } else {
      var before, now := nows[..|nows| - 1], nows[|nows| - 1];
      PrefixNondecreasing(nows);
      SlidingWindow(lim, before, lo);
      HistoryNotNeeded(lim, before, now);
      StepWindow(lim, After(lim, before), Successes(lim, before), now, lo);
    }
  }

  /** Successive successes are at least minInterval apart. */
  lemma {:induction false} MinimumSpacing(lim: Limits, nows: seq<int>)
    ensures var acc := Successes(lim, nows);
      && (acc == [] <==> After(lim, nows).last.None?)
      && (acc != [] ==> After(lim, nows).last == Some(acc[|acc| - 1]))
      && (forall i :: 0 <= i < |acc| - 1 ==> acc[i + 1] - acc[i] >= lim.minInterval)
  {
    if nows != [] {
      MinimumSpacing(lim, nows[..|nows| - 1]);
    }
  }

  // ----- when a check succeeds -----

  /** The earlier successes that are no more than window old. */
  function Recent(times: seq<int>, now: int, window: int): set<int> {
    set i | 0 <= i < |times| && now - times[i] <= window
  }

  lemma {:induction false} PruneCounts(times: seq<int>, now: int, window: int)
    ensures |Prune(times, now, window)| == |Recent(times, now, window)|
  {
    if times == [] {
      assert Recent(times, now, window) == {};
    } else {
      var n := |times| - 1;
      PruneCounts(times[..n], now, window);
      assert Recent(times, now, window) == Recent(times[..n], now, window) + if now - times[n] <= window then {n} else {};
    }
  }

  /** A check succeeds exactly when the last success is at least the minimum interval ago and
      fewer than the maximum are recent. */
  lemma CheckExactly(lim: Limits, st: GuardState, now: int)
    ensures CheckSpec(lim, st, now).1
       <==> ((st.last.None? || now - st.last.value >= lim.minInterval) && |Recent(st.times, now, lim.window)| < lim.maxPerWindow)
  {
    PruneCounts(st.times, now, lim.window);
    hide Prune, Recent;
  }

  lemma {:induction false} PruneKeeps(times: seq<int>, now: int, window: int)
    ensures forall t :: multiset(Prune(times, now, window))[t] == if now - t <= window then multiset(times)[t] else 0
  {
    if times != [] {
      PruneKeeps(times[..|times| - 1], now, window);
      assert times == times[..|times| - 1] + [times[|times| - 1]];
    }
  }

  /** What a check leaves: one that comes too early changes nothing; any other forgets the successes
      that are no longer recent; and only one that succeeds is itself remembered. */
  lemma CheckLeaves(lim: Limits, st: GuardState, now: int)
    ensures var (after, ok) := CheckSpec(lim, st, now);
      && after.last == (if ok then Some(now) else st.last)
      && (st.last.Some? && now - st.last.value < lim.minInterval ==> after == st)
      && (st.last.None? || now - st.last.value >= lim.minInterval ==>
            forall t :: multiset(after.times)[t]
                     == (if now - t <= lim.window then multiset(st.times)[t] else 0) + if ok && t == now then 1 else 0)
  {
    PruneKeeps(st.times, now, lim.window);
    hide Prune;
  }
}
