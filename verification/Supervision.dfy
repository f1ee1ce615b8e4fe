/** The restart budget of a supervised actor: restarts are admitted up to a limit inside a time window. */
module Supervision {
  import opened Ids

  datatype Budget = Budget(started: Option<nat>, count: nat)

  const FRESH := Budget(None, 0)

  /** A restart during startup leaves the last slot of the window unused. */
  datatype Call = Call(startup: bool, now: nat)

  function Slots(limit: nat, startup: bool): nat {
    if startup && limit > 0 then limit - 1 else limit
  }

  /** The window in which a call at `now` is counted. */
  function Current(b: Budget, within: nat, now: nat): Budget {
    if b.started.None? || (within != 0 && now - b.started.value > within) then Budget(Some(now), 0) else b
  }

  function Admit(b: Budget, limit: nat, within: nat, c: Call): (Budget, bool) {
    if Slots(limit, c.startup) == 0 then (b, false)
    else
      var w := Current(b, within, c.now);
      if w.count >= Slots(limit, c.startup) then (w, false) else (w.(count := w.count + 1), true)
  }

  class SupervisionState {
    var restartWindowStarted: Option<nat>
    var restartCount: nat

    function View(): Budget
      reads this
    {
      Budget(restartWindowStarted, restartCount)
    }

    constructor ()
      ensures View() == FRESH
    {
      restartWindowStarted, restartCount := None, 0;
    }

    method RestartAllowed(maxRestarts: nat, within: nat, now: nat) returns (allowed: bool)
      modifies this
      ensures (View(), allowed) == Admit(old(View()), maxRestarts, within, Call(false, now))
    {
      if maxRestarts == 0 {
        return false;
      }
      if restartWindowStarted.None? || (within != 0 && now - restartWindowStarted.value > within) {
        restartWindowStarted, restartCount := Some(now), 0;
      }
      if restartCount >= maxRestarts {
        return false;
      }
      restartCount := restartCount + 1;
      return true;
    }

    method StartupRestartAllowed(maxRestarts: nat, within: nat, now: nat) returns (allowed: bool)
      modifies this
      ensures (View(), allowed) == Admit(old(View()), maxRestarts, within, Call(true, now))
    {
      if maxRestarts <= 1 {
        return false;
      }
      if restartWindowStarted.None? || (within != 0 && now - restartWindowStarted.value > within) {
        restartWindowStarted, restartCount := Some(now), 0;
      }
      if restartCount + 1 >= maxRestarts {
        return false;
      }
      restartCount := restartCount + 1;
      return true;
    }
  }

  // ----- Whole histories of calls -----

  ghost predicate InOrder(calls: seq<Call>) {
    forall i, j :: 0 <= i < j < |calls| ==> calls[i].now <= calls[j].now
  }

  /** The budget after all calls, and the times of the admitted ones. */
  function Run(limit: nat, within: nat, calls: seq<Call>): (Budget, seq<nat>) {
    if calls == [] then (FRESH, [])
    else
      var (b, times) := Run(limit, within, calls[..|calls| - 1]);
      var last := calls[|calls| - 1];
      var (after, ok) := Admit(b, limit, within, last);
      (after, if ok then times + [last.now] else times)
  }

  /** How many times lie in the closed interval. */
  function Between(times: seq<nat>, lo: int, hi: int): nat {
    if times == [] then 0
    else Between(times[..|times| - 1], lo, hi) + if lo <= times[|times| - 1] <= hi then 1 else 0
  }

  /** How many times are not before `lo`. */
  function Since(times: seq<nat>, lo: int): nat {
    if times == [] then 0
    else Since(times[..|times| - 1], lo) + if lo <= times[|times| - 1] then 1 else 0
  }

  lemma {:induction false} BetweenSince(times: seq<nat>, lo: int, hi: int)
    ensures Between(times, lo, hi) <= Since(times, lo) <= |times|
  {
    if times != [] {
      BetweenSince(times[..|times| - 1], lo, hi);
    }
  }

  lemma {:induction false} SinceSplit(xs: seq<nat>, ys: seq<nat>, lo: int)
    ensures Since(xs + ys, lo) == Since(xs, lo) + Since(ys, lo)
  {
    if ys == [] {
      assert xs + ys == xs;
    } else {
      SinceSplit(xs, ys[..|ys| - 1], lo);
      assert (xs + ys)[..|xs + ys| - 1] == xs + ys[..|ys| - 1];
    }
  }

  lemma {:induction false} SinceLater(times: seq<nat>, lo: int, later: int)
    requires lo <= later
    ensures Since(times, later) <= Since(times, lo)
  {
    if times != [] {
      SinceLater(times[..|times| - 1], lo, later);
    }
  }

  lemma {:induction false} SinceNone(times: seq<nat>, lo: int)
    requires forall i :: 0 <= i < |times| ==> times[i] < lo
    ensures Since(times, lo) == 0
  {
    if times != [] {
      SinceNone(times[..|times| - 1], lo);
    }
  }

  /** A list whose first time is before `lo` has at least one time before it. */
  lemma SinceButFirst(times: seq<nat>, lo: int)
    requires times != [] && times[0] < lo
    ensures Since(times, lo) <= |times| - 1
  {
    assert times == [times[0]] + times[1..];
    SinceSplit([times[0]], times[1..], lo);
    SinceNone([times[0]], lo);
    BetweenSince(times[1..], lo, lo);
  }

  ghost predicate Ascending(times: seq<nat>, clock: nat) {
    && (forall i, j :: 0 <= i < j < |times| ==> times[i] <= times[j])
    && forall i :: 0 <= i < |times| ==> times[i] <= clock
  }

  lemma AscendingMore(times: seq<nat>, clock: nat, now: nat)
    requires Ascending(times, clock) && clock <= now
    ensures Ascending(times, now) && Ascending(times + [now], now)
  {
  }

  /** The admitted times split into those of earlier windows and those of the current one, which begin
      with the opening of that window; of the earlier ones fewer than the limit are within reach. */
  ghost predicate Tidy(limit: nat, within: nat, b: Budget, times: seq<nat>, clock: nat) {
    && Ascending(times, clock)
    && (b.started.None? ==> times == [] && b.count == 0)
    && (b.started.Some? ==>
          && 1 <= b.count <= limit && b.count <= |times| && b.started.value <= clock
          && times[|times| - b.count] == b.started.value
          && Since(times[..|times| - b.count], b.started.value - within) <= limit - 1)
    && (within == 0 ==> b.count == |times|)
  }

  lemma OlderBefore(times: seq<nat>, clock: nat, k: nat)
    requires Ascending(times, clock) && k < |times|
    ensures forall i :: 0 <= i < |times[..k]| ==> times[..k][i] <= times[k]
  {
  }

  /** When a window closes, all but its first restart may still be within reach of the next one. */
  lemma ReachBack(limit: nat, within: nat, b: Budget, times: seq<nat>, clock: nat, now: nat)
    requires Tidy(limit, within, b, times, clock) && b.started.Some? && now - b.started.value > within
    ensures Since(times, now - within) <= limit - 1
  {
    hide Since, Ascending;
    var k := |times| - b.count;
    var older, newer := times[..k], times[k..];
    assert times == older + newer;
    SinceSplit(older, newer, now - within);
    OlderBefore(times, clock, k);
    SinceNone(older, now - within);
    SinceButFirst(newer, now - within);
  }

  /** One more restart in the current window. */
  lemma SameWindow(limit: nat, within: nat, b: Budget, times: seq<nat>, clock: nat, now: nat)
    requires Tidy(limit, within, b, times, clock) && clock <= now && b.started.Some? && b.count < limit
    ensures Tidy(limit, within, b.(count := b.count + 1), times + [now], now)
  {
    hide Since, Ascending;
    AscendingMore(times, clock, now);
    var more := times + [now];
    assert more[..|more| - (b.count + 1)] == times[..|times| - b.count];
  }

  /** The first restart of a new window. */
  lemma NewWindow(limit: nat, within: nat, b: Budget, times: seq<nat>, clock: nat, now: nat)
    requires Tidy(limit, within, b, times, clock) && clock <= now && limit > 0
    requires b.started.None? || (within != 0 && now - b.started.value > within)
    ensures Tidy(limit, within, Budget(Some(now), 1), times + [now], now)
  {
    hide Since, Ascending;
    AscendingMore(times, clock, now);
    var more := times + [now];
    assert more[..|more| - 1] == times;
    if b.started.Some? {
      ReachBack(limit, within, b, times, clock, now);
    } else {
      SinceNone(times, now - within);
    }
  }

  lemma AdmitTidy(limit: nat, within: nat, b: Budget, times: seq<nat>, clock: nat, c: Call)
    requires Tidy(limit, within, b, times, clock) && clock <= c.now
    ensures var (after, ok) := Admit(b, limit, within, c);
      Tidy(limit, within, after, if ok then times + [c.now] else times, c.now)
  {
    hide Tidy;
    Later(limit, within, b, times, clock, c.now);
    if Admit(b, limit, within, c).1 {
      if b.started.None? || (within != 0 && c.now - b.started.value > within) {
        NewWindow(limit, within, b, times, clock, c.now);
      } else {
        SameWindow(limit, within, b, times, clock, c.now);
      }
    }
  }

  lemma Later(limit: nat, within: nat, b: Budget, times: seq<nat>, clock: nat, now: nat)
    requires Tidy(limit, within, b, times, clock) && clock <= now
    ensures Tidy(limit, within, b, times, now)
  {
    hide Since, Ascending;
    AscendingMore(times, clock, now);
  }

  /** One more admitted restart keeps every interval within its bound. */
  lemma AdmitBounded(limit: nat, within: nat, b: Budget, times: seq<nat>, clock: nat, c: Call, lo: int)
    requires within > 0 && Tidy(limit, within, b, times, clock) && clock <= c.now
    requires Admit(b, limit, within, c).1
    requires Between(times, lo, lo + within) <= 2 * limit - 1
    ensures Between(times + [c.now], lo, lo + within) <= 2 * limit - 1
  {
    hide Tidy, Between;
    BetweenAppend(times, c.now, lo, lo + within);
    if lo <= c.now <= lo + within {
      AdmitTidy(limit, within, b, times, clock, c);
      IntervalBound(limit, within, Admit(b, limit, within, c).0, times + [c.now], c.now, lo);
    }
  }

  lemma BetweenAppend(times: seq<nat>, t: nat, lo: int, hi: int)
    ensures Between(times + [t], lo, hi) == Between(times, lo, hi) + if lo <= t <= hi then 1 else 0
  {
    assert (times + [t])[..|times + [t]| - 1] == times;
  }

  lemma IntervalBound(limit: nat, within: nat, b: Budget, times: seq<nat>, clock: nat, lo: int)
    requires Tidy(limit, within, b, times, clock) && b.started.Some? && clock <= lo + within
    ensures Between(times, lo, lo + within) <= 2 * limit - 1
  {
    hide Since, Ascending, Between;
    var k := |times| - b.count;
    var older, newer := times[..k], times[k..];
    assert times == older + newer;
    BetweenSince(times, lo, lo + within);
    SinceSplit(older, newer, lo);
    BetweenSince(newer, lo, lo);
    if lo <= b.started.value {
      SinceLater(older, b.started.value - within, lo);
    } else {
      OlderBefore(times, clock, k);
      SinceNone(older, lo);
      SinceButFirst(newer, lo);
    }
  }

  lemma {:induction false} RunTidy(limit: nat, within: nat, calls: seq<Call>)
    requires InOrder(calls)
    ensures var (b, times) := Run(limit, within, calls);
      Tidy(limit, within, b, times, if calls == [] then 0 else calls[|calls| - 1].now)
  {
    hide Admit;
    if calls != [] {
      var init, last := calls[..|calls| - 1], calls[|calls| - 1];
      RunTidy(limit, within, init);
      var (b, times) := Run(limit, within, init);
      AdmitTidy(limit, within, b, times, if init == [] then 0 else init[|init| - 1].now, last);
    }
  }

  /** For calls in time order, a fixed limit and a non-zero window, every closed interval as long as
      the window holds at most twice the limit less one admitted restarts. */
  lemma {:induction false} RestartsBounded(limit: nat, within: nat, calls: seq<Call>, lo: int)
    requires InOrder(calls) && within > 0
    ensures Between(Run(limit, within, calls).1, lo, lo + within) <= if limit == 0 then 0 else 2 * limit - 1
  {
    if calls != [] {
      var init, last := calls[..|calls| - 1], calls[|calls| - 1];
      RestartsBounded(limit, within, init, lo);
      var (b, times) := Run(limit, within, init);
      if Admit(b, limit, within, last).1 {
        RunTidy(limit, within, init);
        AdmitBounded(limit, within, b, times, if init == [] then 0 else init[|init| - 1].now, last, lo);
      }
    }
  }

  /** Without a window the limit is a total. */
  lemma RestartsTotal(limit: nat, calls: seq<Call>)
    requires InOrder(calls)
    ensures |Run(limit, 0, calls).1| <= limit
  {
    RunTidy(limit, 0, calls);
  }

  // ----- Startup restarts -----

  /** The same calls as if none were made during startup. */
  function AsRuntime(calls: seq<Call>): seq<Call> {
    seq(|calls|, i requires 0 <= i < |calls| => Call(false, calls[i].now))
  }

  /** Startup restarts alone are admitted exactly like runtime restarts with a limit one lower, so the last slot
      of every window is left for a runtime restart. */
  lemma {:induction false} StartupSparesOne(limit: nat, within: nat, calls: seq<Call>)
    requires limit > 0 && forall i :: 0 <= i < |calls| ==> calls[i].startup
    ensures Run(limit, within, calls) == Run(limit - 1, within, AsRuntime(calls))
  {
    if calls != [] {
      var init := calls[..|calls| - 1];
      StartupSparesOne(limit, within, init);
      assert AsRuntime(calls)[..|calls| - 1] == AsRuntime(init);
    }
  }

  /** A restart is admitted exactly when the window it falls into has a slot left: any for a runtime restart, all
      but the last for a startup restart. */
  lemma AdmittedExactly(b: Budget, limit: nat, within: nat, c: Call)
    ensures var used := if b.started.None? || (within != 0 && c.now > b.started.value + within) then 0 else b.count;
      Admit(b, limit, within, c).1 <==> used + (if c.startup then 1 else 0) < limit
  {
  }

  // ----- The bound is attained -----

  lemma RunAppend(limit: nat, within: nat, calls: seq<Call>, c: Call)
    ensures var (b, times) := Run(limit, within, calls);
      var (after, ok) := Admit(b, limit, within, c);
      Run(limit, within, calls + [c]) == (after, if ok then times + [c.now] else times)
  {
    assert (calls + [c])[..|calls + [c]| - 1] == calls;
  }

  /** `n` further calls at one time that all fit into the current window. */
  lemma {:induction false} BurstAdmitted(limit: nat, within: nat, calls: seq<Call>, n: nat, now: nat)
    requires var b := Run(limit, within, calls).0;
      b.started.Some? && b.count + n <= limit && now <= b.started.value + within
    ensures var (b, times) := Run(limit, within, calls);
      Run(limit, within, calls + Burst(n, now)) == (b.(count := b.count + n), times + Times(n, now))
  {
    hide Run;
    if n == 0 {
      assert calls + Burst(0, now) == calls;
      assert Run(limit, within, calls).1 + Times(0, now) == Run(limit, within, calls).1;
    } else {
      BurstAdmitted(limit, within, calls, n - 1, now);
      RunAppend(limit, within, calls + Burst(n - 1, now), Call(false, now));
      assert calls + Burst(n, now) == calls + Burst(n - 1, now) + [Call(false, now)];
      var times := Run(limit, within, calls).1;
      assert times + Times(n, now) == times + Times(n - 1, now) + [now];
    }
  }

  function Burst(n: nat, now: nat): seq<Call> {
    seq(n, i => Call(false, now))
  }

  function Times(n: nat, now: nat): seq<nat> {
    seq(n, i => now)
  }

  lemma {:induction false} BetweenTimes(times: seq<nat>, n: nat, t: nat, lo: int, hi: int)
    requires lo <= t <= hi
    ensures Between(times + Times(n, t), lo, hi) == Between(times, lo, hi) + n
  {
    hide Between;
    if n == 0 {
      assert times + Times(0, t) == times;
    } else {
      BetweenTimes(times, n - 1, t, lo, hi);
      BetweenAppend(times + Times(n - 1, t), t, lo, hi);
      assert times + Times(n, t) == times + Times(n - 1, t) + [t];
    }
  }

  /** One restart, the rest of its window at the window's very end, then a full window right after. */
  function WorstCase(limit: nat, within: nat): seq<Call>
    requires limit > 0
  {
    [Call(false, 0)] + Burst(limit - 1, within) + ([Call(false, within + 1)] + Burst(limit - 1, within + 1))
  }

  /** For every limit and window some history reaches the bound. */
  lemma RestartsBoundAttained(limit: nat, within: nat)
    requires limit > 0 && within > 0
    ensures InOrder(WorstCase(limit, within))
    ensures Between(Run(limit, within, WorstCase(limit, within)).1, 1, 1 + within) == 2 * limit - 1
  {
    hide Run, Between;
    var first := [Call(false, 0)];
    var window := first + Burst(limit - 1, within);
    var next := window + [Call(false, within + 1)];
    RunFirst(limit, within);
    BurstAdmitted(limit, within, first, limit - 1, within);
    RunAppend(limit, within, window, Call(false, within + 1));
    BurstAdmitted(limit, within, next, limit - 1, within + 1);
    assert next + Burst(limit - 1, within + 1) == WorstCase(limit, within);
    AttainedCount(limit, within);
  }

  lemma RunFirst(limit: nat, within: nat)
    requires limit > 0
    ensures Run(limit, within, [Call(false, 0)]) == (Budget(Some(0), 1), [0])
  {
    var none: seq<nat> := [];
    assert none + [0] == [0];
    assert [Call(false, 0)][..0] == [];
    assert Run(limit, within, []) == (FRESH, none);
    assert Admit(FRESH, limit, within, Call(false, 0)) == (Budget(Some(0), 1), true);
  }

  lemma AttainedCount(limit: nat, within: nat)
    requires limit > 0 && within > 0
    ensures Between([0] + Times(limit - 1, within) + [within + 1] + Times(limit - 1, within + 1), 1, 1 + within) == 2 * limit - 1
  {
    var xs := [0] + Times(limit - 1, within);
    BetweenTimes([0], limit - 1, within, 1, 1 + within);
    assert (xs + [within + 1])[..|xs|] == xs;
    BetweenTimes(xs + [within + 1], limit - 1, within + 1, 1, 1 + within);
  }
}
