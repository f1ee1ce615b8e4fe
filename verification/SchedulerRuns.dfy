/** What the deterministic scheduler promises over whole runs, for actions that leave it alone. */
module SchedulerRuns {
  import opened Ids
  import opened Scheduler

  // ----- Advancing in parts -----

  lemma NextUnique(entries: seq<Entry>, until: nat, i: nat, j: nat)
    requires IsNext(entries, until, i) && IsNext(entries, until, j)
    ensures i == j
  {
  }

  /** What is next up to some time is next up to any later time. */
  lemma NextSooner(entries: seq<Entry>, until: nat, later: nat)
    requires until <= later && NextDue(entries, until).Some?
    ensures NextDue(entries, later) == NextDue(entries, until)
  {
    hide NextDue;
    var i := NextDue(entries, until).value;
    assert IsNext(entries, later, i);
    NextUnique(entries, later, i, NextDue(entries, later).value);
  }

  lemma ClockForgotten(s: Sched, now: nat, until: nat)
    ensures RunTo(s.(now := now), until) == RunTo(s, until)
  {
    hide NextDue, Work;
  }

  lemma {:induction false} RunToSplits(s: Sched, until: nat, later: nat)
    requires until <= later
    ensures var (mid, fires) := RunTo(s, until);
      RunTo(s, later) == (RunTo(mid, later).0, fires + RunTo(mid, later).1)
    decreases Work(s.entries, until)
  {
    hide Work, NextDue, Popped, RunTo;
    RunNext(s, until);
    var next := NextDue(s.entries, until);
    if next.None? {
      ClockForgotten(s, until, later);
      assert [] + RunTo(s, later).1 == RunTo(s, later).1;
    } else {
      NextSooner(s.entries, until, later);
      RunNext(s, later);
      var (mid, fires) := Popped(s, next.value);
      RunToSplits(mid, until, later);
      var (part, more) := RunTo(mid, until);
      Regroup(fires, more, RunTo(part, later).1);
    }
  }

  /** Advancing in two parts runs the same actions at the same times as advancing at once, and leaves
      the scheduler in the same state. */
  lemma AdvanceSplits(s: Sched, a: nat, b: nat)
    ensures var (mid, fires) := Advanced(s, a);
      var (end, more) := Advanced(mid, b);
      Advanced(s, a + b) == (end, fires + more)
  {
    hide RunTo;
    RunToSplits(s, s.now + a, s.now + a + b);
    RunToEnds(s, s.now + a);
  }

  lemma {:induction false} RunToEnds(s: Sched, until: nat)
    ensures var (end, fires) := RunTo(s, until);
      && end.now == until && end.accepting == s.accepting && end.nextOrder == s.nextOrder
      && (forall e :: e in end.entries ==> e.deadline > until)
      && (forall f :: f in fires ==> f.at <= until)
    decreases Work(s.entries, until)
  {
    hide Work, NextDue, RunTo, SwapRemove, Later, Repeats;
    RunNext(s, until);
    var next := NextDue(s.entries, until);
    if next.Some? {
      RunToEnds(Popped(s, next.value).0, until);
    }
  }

  // ----- Keys increase -----

  predicate KeyBefore(f: Fire, g: Fire) {
    f.at < g.at || (f.at == g.at && f.order < g.order)
  }

  function Key(e: Entry): Fire {
    Fire(e.deadline, e.order)
  }

  /** No number is used twice. */
  ghost predicate Numbered(s: Sched) {
    && (forall i, j :: 0 <= i < j < |s.entries| ==> s.entries[i].order != s.entries[j].order)
    && forall e :: e in s.entries ==> e.order < s.nextOrder
  }

  ghost predicate AllAfter(entries: seq<Entry>, f: Fire) {
    forall e :: e in entries ==> KeyBefore(f, Key(e))
  }

  ghost predicate Increasing(fires: seq<Fire>) {
    forall i, j :: 0 <= i < j < |fires| ==> KeyBefore(fires[i], fires[j])
  }

  lemma RemovedElements(entries: seq<Entry>, i: nat)
    requires i < |entries|
    requires forall j, k :: 0 <= j < k < |entries| ==> entries[j].order != entries[k].order
    ensures forall e :: e in SwapRemove(entries, i) <==> e in entries && e != entries[i]
    ensures forall e :: e in SwapRemove(entries, i) ==> e.order != entries[i].order
    ensures var rest := SwapRemove(entries, i);
      forall j, k :: 0 <= j < k < |rest| ==> rest[j].order != rest[k].order
  {
    var rest := SwapRemove(entries, i);
    forall e | e in entries && e != entries[i] ensures e in rest {
      var j :| 0 <= j < |entries| && entries[j] == e;
      assert if j == |entries| - 1 then rest[i] == e else rest[j] == e;
    }
  }

  /** Taking out the next entry leaves only later ones, including the one that comes back. */
  lemma PoppedAfter(s: Sched, until: nat, i: nat)
    requires Numbered(s) && IsNext(s.entries, until, i)
    ensures Numbered(Popped(s, i).0) && AllAfter(Popped(s, i).0.entries, Key(s.entries[i]))
    ensures forall f :: AllAfter(s.entries, f) ==> AllAfter(Popped(s, i).0.entries, f)
  {
    hide SwapRemove;
    RemovedElements(s.entries, i);
    var e := s.entries[i];
    forall x | x in SwapRemove(s.entries, i) ensures KeyBefore(Key(e), Key(x)) {
      var j :| 0 <= j < |s.entries| && s.entries[j] == x;
    }
  }

  lemma {:induction false} RunToAfter(s: Sched, until: nat, f: Fire)
    requires Numbered(s) && AllAfter(s.entries, f)
    ensures forall g :: g in RunTo(s, until).1 ==> KeyBefore(f, g)
    ensures Numbered(RunTo(s, until).0)
    decreases Work(s.entries, until)
  {
    hide Work, NextDue, RunTo, Numbered, AllAfter, IsNext;
    RunNext(s, until);
    var next := NextDue(s.entries, until);
    if next.Some? {
      var i := next.value;
      IsNextIndex(s.entries, until, i);
      PoppedAfter(s, until, i);
      FirstAfter(s.entries, i, f);
      RunToAfter(Popped(s, i).0, until, f);
    } else {
      NumberedClock(s, until);
    }
  }

  lemma IsNextIndex(entries: seq<Entry>, until: nat, i: nat)
    requires IsNext(entries, until, i)
    ensures i < |entries|
  {
  }

  lemma NumberedClock(s: Sched, now: nat)
    requires Numbered(s)
    ensures Numbered(s.(now := now))
  {
  }

  lemma FirstAfter(entries: seq<Entry>, i: nat, f: Fire)
    requires i < |entries| && AllAfter(entries, f)
    ensures KeyBefore(f, Key(entries[i]))
  {
  }

  lemma {:induction false} RunToIncreasing(s: Sched, until: nat)
    requires Numbered(s)
    ensures Increasing(RunTo(s, until).1)
    decreases Work(s.entries, until)
  {
    hide Work, NextDue, RunTo, Numbered, AllAfter, IsNext;
    RunNext(s, until);
    var next := NextDue(s.entries, until);
    if next.Some? {
      var i := next.value;
      IsNextIndex(s.entries, until, i);
      PoppedAfter(s, until, i);
      var (mid, fires) := Popped(s, i);
      RunToIncreasing(mid, until);
      RunToAfter(mid, until, Key(s.entries[i]));
    }
  }

  // ----- When an action runs -----

  /** The times at which one action ran. */
  function TimesOf(fires: seq<Fire>, order: nat): seq<nat> {
    if fires == [] then []
    else (if fires[0].order == order then [fires[0].at] else []) + TimesOf(fires[1..], order)
  }

  /** Every interval from the deadline on, up to the end. */
  function Beats(deadline: nat, interval: nat, until: nat): seq<nat>
    requires interval > 0
    decreases until - deadline
  {
    if deadline > until then [] else [deadline] + Beats(deadline + interval, interval, until)
  }

  /** When an entry should run: never if it is not active, at its deadline, and again every interval. */
  function Expected(e: Entry, active: bool, until: nat): seq<nat> {
    if !active then []
    else if e.kind.Repeated? && e.kind.interval > 0 then Beats(e.deadline, e.kind.interval, until)
    else if e.deadline <= until then [e.deadline] else []
  }

  lemma {:induction false} TimesSplit(xs: seq<Fire>, ys: seq<Fire>, order: nat)
    ensures TimesOf(xs + ys, order) == TimesOf(xs, order) + TimesOf(ys, order)
  {
    if xs == [] {
      assert xs + ys == ys;
    } else {
      TimesSplit(xs[1..], ys, order);
      assert (xs + ys)[1..] == xs[1..] + ys;
    }
  }

  lemma {:induction false} AbsentSilent(s: Sched, until: nat, order: nat)
    requires Numbered(s) && forall e :: e in s.entries ==> e.order != order
    ensures TimesOf(RunTo(s, until).1, order) == []
    decreases Work(s.entries, until)
  {
    hide Work, NextDue, RunTo, SwapRemove;
    RunNext(s, until);
    var next := NextDue(s.entries, until);
    if next.Some? {
      var i := next.value;
      PoppedAfter(s, until, i);
      RemovedElements(s.entries, i);
      var (mid, fires) := Popped(s, i);
      AbsentSilent(mid, until, order);
      TimesSplit(fires, RunTo(mid, until).1, order);
    }
  }

  /** What becomes of an entry when the next one is taken out. */
  lemma PoppedEntry(s: Sched, until: nat, i: nat, e: Entry)
    requires Numbered(s) && IsNext(s.entries, until, i) && e in s.entries
    ensures var (mid, fires) := Popped(s, i);
      if e != s.entries[i] then
        && e in mid.entries && (e.order in mid.active <==> e.order in s.active) && TimesOf(fires, e.order) == []
      else
        && TimesOf(fires, e.order) == (if e.order in s.active then [e.deadline] else [])
        && (if Repeats(s, e) then
              e.(deadline := e.deadline + e.kind.interval) in mid.entries && e.order in mid.active
            else forall x :: x in mid.entries ==> x.order != e.order)
  {
    hide SwapRemove;
    RemovedElements(s.entries, i);
    var rest := SwapRemove(s.entries, i);
    if e != s.entries[i] {
      assert e in rest;
    } else if Repeats(s, e) {
      var mid := Popped(s, i).0;
      assert mid.entries[|rest|] == e.(deadline := e.deadline + e.kind.interval);
    }
  }

  /** Every entry runs at exactly the times it should, whatever else is scheduled. */
  lemma {:induction false} EntryRuns(s: Sched, until: nat, e: Entry)
    requires Numbered(s) && e in s.entries
    ensures TimesOf(RunTo(s, until).1, e.order) == Expected(e, e.order in s.active, until)
    decreases Work(s.entries, until)
  {
    hide Work, NextDue, RunTo, SwapRemove, Popped, Numbered, IsNext;
    RunNext(s, until);
    var next := NextDue(s.entries, until);
    if next.None? {
      NotDue(s.entries, until, e);
    } else {
      var i := next.value;
      IsNextIndex(s.entries, until, i);
      IsNextDue(s.entries, until, i);
      PoppedAfter(s, until, i);
      PoppedEntry(s, until, i, e);
      var (mid, fires) := Popped(s, i);
      TimesSplit(fires, RunTo(mid, until).1, e.order);
      if e != s.entries[i] {
        EntryRuns(mid, until, e);
      } else if Repeats(s, e) {
        EntryRuns(mid, until, e.(deadline := e.deadline + e.kind.interval));
      } else {
        AbsentSilent(mid, until, e.order);
      }
    }
  }

  lemma IsNextDue(entries: seq<Entry>, until: nat, i: nat)
    requires IsNext(entries, until, i)
    ensures i < |entries| && entries[i].deadline <= until
  {
  }

  lemma NotDue(entries: seq<Entry>, until: nat, e: Entry)
    requires NextDue(entries, until).None? && e in entries
    ensures forall active :: Expected(e, active, until) == []
  {
    hide NextDue;
  }

  lemma {:induction false} BeatsCount(deadline: nat, interval: nat, until: nat)
    requires interval > 0 && deadline <= until
    ensures |Beats(deadline, interval, until)| == (until - deadline) / interval + 1
    decreases until - deadline
  {
    if deadline + interval <= until {
      BeatsCount(deadline + interval, interval, until);
      OneLess(until - deadline, interval);
    }
  }

  lemma OneLess(n: nat, d: nat)
    requires 0 < d <= n
    ensures (n - d) / d == n / d - 1
  {
    var q, r := (n - d) / d, (n - d) % d;
    assert n == (q + 1) * d + r;
    QuotientUnique(n, d, q + 1, r);
  }

  lemma QuotientUnique(n: nat, d: nat, q: nat, r: nat)
    requires d > 0 && r < d && n == q * d + r
    ensures n / d == q
  {
    var p := n / d;
    assert n == p * d + n % d;
    assert (q + 1) * d == q * d + d && (p + 1) * d == p * d + d;
    Smaller(p, q + 1, d);
    Smaller(q, p + 1, d);
  }

  lemma Smaller(p: int, q: int, d: nat)
    requires d > 0 && p * d < q * d
    ensures p < q
  {
    assert (q - p) * d == q * d - p * d;
  }

  /** An active repeating action whose first deadline is reached runs once for the deadline and once
      for every whole interval after it. */
  lemma RepeatingRuns(s: Sched, until: nat, e: Entry)
    requires Numbered(s) && e in s.entries && e.order in s.active && e.deadline <= until
    requires e.kind.Repeated? && e.kind.interval > 0
    ensures |TimesOf(RunTo(s, until).1, e.order)| == (until - e.deadline) / e.kind.interval + 1
  {
    EntryRuns(s, until, e);
    BeatsCount(e.deadline, e.kind.interval, until);
  }

  /** A newly scheduled action runs first exactly its delay after now, and then as its kind says, if it is not
      cancelled; after a shutdown nothing is scheduled. */
  lemma ScheduledRuns(s: Sched, delay: nat, kind: Kind, until: nat)
    requires Numbered(s) && s.now <= until
    ensures var (mid, fires) := Pushed(s, delay, kind);
      var more := RunTo(mid, until).1;
      && (!s.accepting ==> mid == s && fires == [])
      && (s.accepting ==>
            TimesOf(fires + more, s.nextOrder) == Expected(Entry(s.now + delay, s.nextOrder, kind), true, until))
  {
    hide RunTo, Expected;
    if s.accepting {
      var e := Entry(s.now + delay, s.nextOrder, kind);
      var pushed := s.(nextOrder := s.nextOrder + 1, entries := s.entries + [e], active := s.active + {s.nextOrder});
      assert pushed.entries[|s.entries|] == e;
      EntryRuns(pushed, until, e);
      if delay == 0 {
        RunToSplits(pushed, s.now, until);
      } else {
        assert [] + RunTo(pushed, until).1 == RunTo(pushed, until).1;
      }
    }
  }

  // ----- Whole histories -----

  datatype Op = Schedule(delay: nat, kind: Kind) | Advance(amount: nat) | Cancel(order: nat) | Shutdown

  function Applied(s: Sched, op: Op): (Sched, seq<Fire>) {
    match op
    case Schedule(delay, kind) =>
      if kind.Repeated? && kind.interval == 0 then (s, []) else Pushed(s, delay, kind)
    case Advance(amount) => Advanced(s, amount)
    case Cancel(order) => (s.(active := s.active - {order}), [])
    case Shutdown => (s.(accepting := false, entries := [], active := s.active - Orders(s.entries)), [])
  }

  function History(ops: seq<Op>): (Sched, seq<Fire>) {
    if ops == [] then (Sched(true, 0, 0, [], {}), [])
    else
      var (s, fires) := History(ops[..|ops| - 1]);
      var (end, more) := Applied(s, ops[|ops| - 1]);
      (end, fires + more)
  }

  /** Nothing scheduled is overdue, and what has run lies behind everything that will. */
  ghost predicate Timely(s: Sched, fires: seq<Fire>) {
    && Numbered(s) && Increasing(fires)
    && (forall e :: e in s.entries ==> e.deadline > s.now)
    && forall f :: f in fires ==> f.at <= s.now && f.order < s.nextOrder
  }

  lemma RunTimely(s: Sched, until: nat, fires: seq<Fire>)
    requires Numbered(s) && Increasing(fires) && s.now <= until
    requires forall f :: f in fires ==> f.at <= until && f.order < s.nextOrder && AllAfter(s.entries, f)
    ensures Timely(RunTo(s, until).0, fires + RunTo(s, until).1)
  {
    hide RunTo, AllAfter;
    var (end, more) := RunTo(s, until);
    RunToEnds(s, until);
    RunToIncreasing(s, until);
    RunToOrders(s, until);
    RunToNumbered(s, until);
    forall f | f in fires ensures forall g :: g in more ==> KeyBefore(f, g) {
      RunToAfter(s, until, f);
    }
    IncreasingJoin(fires, more);
  }

  lemma IncreasingJoin(fires: seq<Fire>, more: seq<Fire>)
    requires Increasing(fires) && Increasing(more)
    requires forall f, g :: f in fires && g in more ==> KeyBefore(f, g)
    ensures Increasing(fires + more)
  {
    hide KeyBefore;
  }

  lemma {:induction false} RunToNumbered(s: Sched, until: nat)
    requires Numbered(s)
    ensures Numbered(RunTo(s, until).0)
    decreases Work(s.entries, until)
  {
    hide Work, NextDue, RunTo, Numbered, IsNext;
    RunNext(s, until);
    var next := NextDue(s.entries, until);
    if next.Some? {
      IsNextIndex(s.entries, until, next.value);
      PoppedAfter(s, until, next.value);
      RunToNumbered(Popped(s, next.value).0, until);
    } else {
      NumberedClock(s, until);
    }
  }

  lemma {:induction false} RunToOrders(s: Sched, until: nat)
    requires Numbered(s)
    ensures forall f :: f in RunTo(s, until).1 ==> f.order < s.nextOrder
    decreases Work(s.entries, until)
  {
    hide Work, NextDue, RunTo, SwapRemove;
    RunNext(s, until);
    var next := NextDue(s.entries, until);
    if next.Some? {
      PoppedAfter(s, until, next.value);
      RunToOrders(Popped(s, next.value).0, until);
    }
  }

  lemma AppliedTimely(s: Sched, fires: seq<Fire>, op: Op)
    requires Timely(s, fires)
    ensures Timely(Applied(s, op).0, fires + Applied(s, op).1)
    ensures s.now <= Applied(s, op).0.now
  {
    hide RunTo, Orders;
    assert fires + [] == fires;
    match op {
      case Schedule(delay, kind) =>
        if s.accepting && !(kind.Repeated? && kind.interval == 0) && delay == 0 {
          var pushed := s.(nextOrder := s.nextOrder + 1, entries := s.entries + [Entry(s.now + delay, s.nextOrder, kind)],
                           active := s.active + {s.nextOrder});
          RunTimely(pushed, s.now, fires);
          RunToEnds(pushed, s.now);
        }
      case Advance(amount) =>
        RunTimely(s, s.now + amount, fires);
        RunToEnds(s, s.now + amount);
      case _ =>
    }
  }

  /** Over every history of scheduling, advancing, cancelling and shutting down, the keys of the actions
      run strictly increase, nothing runs late, nothing stays overdue, and the clock never goes back. */
  lemma {:induction false} HistoryTimely(ops: seq<Op>)
    ensures Timely(History(ops).0, History(ops).1)
    ensures ops != [] ==> History(ops[..|ops| - 1]).0.now <= History(ops).0.now
  {
    hide Timely, Applied;
    if ops == [] {
      TimelyAtFirst();
    } else {
      var (s, fires) := History(ops[..|ops| - 1]);
      HistoryTimely(ops[..|ops| - 1]);
      AppliedTimely(s, fires, ops[|ops| - 1]);
    }
  }

  lemma TimelyAtFirst()
    ensures Timely(Sched(true, 0, 0, [], {}), [])
  {
  }

  /** A cancelled action never runs again, and every other action runs as if nothing had been cancelled. */
  lemma CancelledNeverRuns(s: Sched, order: nat, until: nat)
    requires Numbered(s)
    ensures var (t, fires) := Applied(s, Cancel(order));
      && fires == [] && TimesOf(RunTo(t, until).1, order) == []
      && forall e :: e in s.entries && e.order != order ==>
           TimesOf(RunTo(t, until).1, e.order) == TimesOf(RunTo(s, until).1, e.order)
  {
    hide RunTo, Expected;
    var t := Applied(s, Cancel(order)).0;
    if e :| e in t.entries && e.order == order {
      EntryRuns(t, until, e);
      assert Expected(e, false, until) == [] by { NeverExpected(e, until); }
    } else {
      AbsentSilent(t, until, order);
    }
    forall e | e in s.entries && e.order != order
      ensures TimesOf(RunTo(t, until).1, e.order) == TimesOf(RunTo(s, until).1, e.order)
    {
      EntryRuns(t, until, e);
      EntryRuns(s, until, e);
    }
  }

  lemma NeverExpected(e: Entry, until: nat)
    ensures Expected(e, false, until) == []
  {
  }

  /** After a shutdown nothing runs and nothing can be scheduled. */
  lemma ShutdownSilences(s: Sched, delay: nat, kind: Kind, until: nat)
    ensures var t := Applied(s, Shutdown).0;
      && RunTo(t, until) == (t.(now := until), [])
      && Applied(t, Schedule(delay, kind)) == (t, [])
      && forall e :: e in s.entries ==> e.order !in t.active
  {
  }
}
