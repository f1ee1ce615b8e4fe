/** The deterministic scheduler: a virtual clock, and scheduled actions run in deadline order. */
module Scheduler {
  import opened Ids

  datatype Mode = FixedDelay | FixedRate

  datatype Kind = Once | Repeated(interval: nat, mode: Mode)

  datatype Entry = Entry(deadline: nat, order: nat, kind: Kind)

  /** An action that ran, and when. */
  datatype Fire = Fire(at: nat, order: nat)

  /** `active` holds the numbers of the actions that are neither cancelled nor completed. */
  datatype Sched = Sched(accepting: bool, now: nat, nextOrder: nat, entries: seq<Entry>, active: set<nat>)

  // ----- Choosing the next entry -----

  predicate Earlier(a: Entry, b: Entry) {
    a.deadline < b.deadline || (a.deadline == b.deadline && a.order < b.order)
  }

  /** The first of the earliest entries that are due. */
  ghost predicate IsNext(entries: seq<Entry>, until: nat, i: nat) {
    && i < |entries| && entries[i].deadline <= until
    && forall j :: 0 <= j < |entries| && entries[j].deadline <= until ==>
         !Earlier(entries[j], entries[i]) && (j < i ==> Earlier(entries[i], entries[j]))
  }

  function NextDue(entries: seq<Entry>, until: nat): (i: Option<nat>)
    ensures i.Some? ==> IsNext(entries, until, i.value)
    ensures i.None? ==> forall j :: 0 <= j < |entries| ==> entries[j].deadline > until
  {
    if entries == [] then None
    else
      var n := |entries| - 1;
      var best := NextDue(entries[..n], until);
      assert best.Some? ==> IsNext(entries[..n], until, best.value);
      if entries[n].deadline > until then best
      else if best.None? || Earlier(entries[n], entries[best.value]) then Some(n)
      else best
  }

  function SwapRemove(entries: seq<Entry>, i: nat): seq<Entry>
    requires i < |entries|
  {
    entries[i := entries[|entries| - 1]][..|entries| - 1]
  }

  // ----- Running -----

  predicate Repeats(s: Sched, e: Entry) {
    e.kind.Repeated? && e.kind.interval > 0 && e.order in s.active
  }

  function Later(e: Entry, now: nat): Entry {
    match e.kind
    case Once => e
    case Repeated(interval, FixedDelay) => e.(deadline := now + interval)
    case Repeated(interval, FixedRate) => e.(deadline := e.deadline + interval)
  }

  /** One entry taken out at its deadline: it runs if it is active, and comes back if it repeats. */
  function Popped(s: Sched, i: nat): (Sched, seq<Fire>)
    requires i < |s.entries|
  {
    var e := s.entries[i];
    var rest := SwapRemove(s.entries, i);
    (s.(now := e.deadline,
        entries := if Repeats(s, e) then rest + [Later(e, e.deadline)] else rest,
        active := if e.kind.Once? then s.active - {e.order} else s.active),
     if e.order in s.active then [Fire(e.deadline, e.order)] else [])
  }

  /** How much is left to do up to a time. */
  function Work(entries: seq<Entry>, until: nat): nat {
    if entries == [] then 0
    else Work(entries[..|entries| - 1], until) + Effort(entries[|entries| - 1], until)
  }

  function Effort(e: Entry, until: nat): nat {
    if e.deadline <= until then until - e.deadline + 1 else 0
  }

  lemma {:induction false} WorkSplit(xs: seq<Entry>, ys: seq<Entry>, until: nat)
    ensures Work(xs + ys, until) == Work(xs, until) + Work(ys, until)
  {
    if ys == [] {
      assert xs + ys == xs;
    } else {
      WorkSplit(xs, ys[..|ys| - 1], until);
      assert (xs + ys)[..|xs + ys| - 1] == xs + ys[..|ys| - 1];
    }
  }

  lemma WorkOne(e: Entry, until: nat)
    ensures Work([e], until) == Effort(e, until)
  {
    assert [e][..0] == [];
  }

  lemma WorkRemoved(entries: seq<Entry>, i: nat, until: nat)
    requires i < |entries|
    ensures Work(SwapRemove(entries, i), until) == Work(entries, until) - Effort(entries[i], until)
  {
    hide Work;
    var n := |entries| - 1;
    var front, e, last := entries[..i], entries[i], entries[n];
    WorkOne(e, until);
    WorkOne(last, until);
    if i == n {
      assert entries == front + [e] && SwapRemove(entries, i) == front;
      WorkSplit(front, [e], until);
    } else {
      var mid := entries[i + 1..n];
      assert entries == front + [e] + mid + [last] && SwapRemove(entries, i) == front + [last] + mid;
      WorkSplit(front, [e], until);
      WorkSplit(front + [e], mid, until);
      WorkSplit(front + [e] + mid, [last], until);
      WorkSplit(front, [last], until);
      WorkSplit(front + [last], mid, until);
    }
  }

  lemma PoppedWork(s: Sched, i: nat, until: nat)
    requires i < |s.entries| && s.entries[i].deadline <= until
    ensures Work(Popped(s, i).0.entries, until) < Work(s.entries, until)
  {
    hide Work, SwapRemove;
    var e := s.entries[i];
    WorkRemoved(s.entries, i, until);
    if Repeats(s, e) {
      WorkSplit(SwapRemove(s.entries, i), [Later(e, e.deadline)], until);
      WorkOne(Later(e, e.deadline), until);
    }
  }

  /** Everything due up to a time, one entry after another. */
  function RunTo(s: Sched, until: nat): (Sched, seq<Fire>)
    decreases Work(s.entries, until)
  {
    match NextDue(s.entries, until)
    case None => (s.(now := until), [])
    case Some(i) =>
      PoppedWork(s, i, until);
      var (mid, fires) := Popped(s, i);
      var (end, more) := RunTo(mid, until);
      (end, fires + more)
  }

  /** The next due entry, or the clock moved to the end. */
  function Step(s: Sched, until: nat): (Sched, seq<Fire>) {
    match NextDue(s.entries, until)
    case None => (s.(now := until), [])
    case Some(i) => Popped(s, i)
  }

  lemma RunNext(s: Sched, until: nat)
    ensures var (mid, fires) := Step(s, until);
      if NextDue(s.entries, until).None? then RunTo(s, until) == (mid, fires)
      else Work(mid.entries, until) < Work(s.entries, until)
           && RunTo(s, until) == (RunTo(mid, until).0, fires + RunTo(mid, until).1)
  {
    hide Work, Popped, NextDue;
    var next := NextDue(s.entries, until);
    if next.Some? {
      PoppedWork(s, next.value, until);
    }
  }

  lemma Regroup(xs: seq<Fire>, ys: seq<Fire>, zs: seq<Fire>)
    ensures xs + (ys + zs) == xs + ys + zs
  {
  }

  function Advanced(s: Sched, amount: nat): (Sched, seq<Fire>) {
    RunTo(s, s.now + amount)
  }

  /** A new entry; with no delay it runs at once. */
  function Pushed(s: Sched, delay: nat, kind: Kind): (Sched, seq<Fire>) {
    if !s.accepting then (s, [])
    else
      var pushed := s.(nextOrder := s.nextOrder + 1,
                       entries := s.entries + [Entry(s.now + delay, s.nextOrder, kind)],
                       active := s.active + {s.nextOrder});
      if delay == 0 then RunTo(pushed, s.now) else (pushed, [])
  }

  // ----- The mutable scheduler -----

  class ManualScheduler {
    var accepting: bool
    var now: nat
    var nextOrder: nat
    var scheduled: seq<Entry>
    var active: set<nat>
    var ran: seq<Fire>

    function View(): Sched
      reads this
    {
      Sched(accepting, now, nextOrder, scheduled, active)
    }

    constructor ()
      ensures View() == Sched(true, 0, 0, [], {}) && ran == []
    {
      accepting, now, nextOrder, scheduled, active, ran := true, 0, 0, [], {}, [];
    }

    method PopDue(runTo: nat) returns (popped: Option<Entry>)
      modifies this`scheduled
      ensures match NextDue(old(scheduled), runTo)
        case None => popped == None && scheduled == old(scheduled)
        case Some(i) => popped == Some(old(scheduled)[i]) && scheduled == SwapRemove(old(scheduled), i)
    {
      var index: Option<nat> := None;
      for i := 0 to |scheduled|
        invariant scheduled == old(scheduled)
        invariant index == NextDue(scheduled[..i], runTo)
      {
        assert scheduled[..i + 1][..i] == scheduled[..i];
        if scheduled[i].deadline <= runTo && (index.None? || Earlier(scheduled[i], scheduled[index.value])) {
          index := Some(i);
        }
      }
      assert scheduled[..|scheduled|] == scheduled;
      if index.None? {
        return None;
      }
      popped := Some(scheduled[index.value]);
      scheduled := SwapRemove(scheduled, index.value);
    }

    method RunUntil(runTo: nat)
      modifies this
      ensures View() == RunTo(old(View()), runTo).0 && ran == old(ran) + RunTo(old(View()), runTo).1
    {
      hide NextDue, Work, Popped, RunTo;
      ghost var whole := RunTo(View(), runTo);
      RunNext(View(), runTo);
      var more := RunNextDue(runTo);
      ghost var fires := ran[|old(ran)|..];
      while more
        invariant old(ran) <= ran && fires == ran[|old(ran)|..]
        invariant more ==> whole == (RunTo(View(), runTo).0, fires + RunTo(View(), runTo).1)
        invariant !more ==> whole == (View(), fires)
        decreases more, Work(scheduled, runTo)
      {
        RunNext(View(), runTo);
        ghost var (mid, step) := Step(View(), runTo);
        Regroup(fires, step, RunTo(mid, runTo).1);
        more := RunNextDue(runTo);
        assert ran[|old(ran)|..] == fires + step;
        fires := fires + step;
      }
    }

    /** Takes out and runs the next due entry; without one the clock moves to the end. */
    method RunNextDue(runTo: nat) returns (more: bool)
      modifies this
      ensures more <==> NextDue(old(scheduled), runTo).Some?
      ensures View() == Step(old(View()), runTo).0 && ran == old(ran) + Step(old(View()), runTo).1
    {
      hide NextDue, SwapRemove, Later;
      var popped := PopDue(runTo);
      if popped.None? {
        now := runTo;
        return false;
      }
      RunEntry(popped.value);
      return true;
    }

    /** Runs one entry at its deadline and schedules it again if it repeats. */
    method RunEntry(e: Entry)
      modifies this
      ensures var s := old(View());
        View() == s.(now := e.deadline,
                     entries := if Repeats(s, e) then s.entries + [Later(e, e.deadline)] else s.entries,
                     active := if e.kind.Once? then s.active - {e.order} else s.active)
      ensures ran == old(ran) + if e.order in old(active) then [Fire(e.deadline, e.order)] else []
    {
      now := e.deadline;
      if e.order in active {
        ran := ran + [Fire(now, e.order)];
      }
      if e.kind.Once? {
        active := active - {e.order};
      } else if e.kind.interval > 0 && e.order in active {
        scheduled := scheduled + [Later(e, now)];
      }
    }

    method Advance(amount: nat)
      modifies this
      ensures View() == Advanced(old(View()), amount).0 && ran == old(ran) + Advanced(old(View()), amount).1
    {
      hide RunTo;
      RunUntil(now + amount);
    }

    method PushScheduled(delay: nat, kind: Kind) returns (order: Option<nat>)
      modifies this
      ensures View() == Pushed(old(View()), delay, kind).0 && ran == old(ran) + Pushed(old(View()), delay, kind).1
      ensures order == if old(accepting) then Some(old(nextOrder)) else None
    {
      hide RunTo;
      if !accepting {
        assert ran + [] == ran;
        return None;
      }
      order := Some(nextOrder);
      scheduled := scheduled + [Entry(now + delay, nextOrder, kind)];
      active := active + {nextOrder};
      nextOrder := nextOrder + 1;
      if delay == 0 {
        RunUntil(now);
      } else {
        assert ran + [] == ran;
      }
    }

    method ScheduleRepeated(delay: nat, interval: nat, mode: Mode) returns (order: Option<nat>)
      modifies this
      ensures interval == 0 ==> order == None && View() == old(View()) && ran == old(ran)
      ensures interval > 0 ==>
        var (s, fires) := Pushed(old(View()), delay, Repeated(interval, mode));
        View() == s && ran == old(ran) + fires && order == if old(accepting) then Some(old(nextOrder)) else None
    {
      hide RunTo;
      if interval == 0 {
        return None;
      }
      order := PushScheduled(delay, Repeated(interval, mode));
    }

    method Cancel(order: nat) returns (cancelled: bool)
      modifies this
      ensures cancelled <==> order in old(active)
      ensures View() == old(View()).(active := old(active) - {order}) && ran == old(ran)
    {
      cancelled := order in active;
      active := active - {order};
    }

    method Shutdown()
      modifies this
      ensures View() == old(View()).(accepting := false, entries := [], active := old(active) - Orders(old(scheduled)))
      ensures ran == old(ran)
    {
      accepting := false;
      var taken := scheduled;
      scheduled := [];
      for i := 0 to |taken|
        invariant View() == old(View()).(accepting := false, entries := [], active := old(active) - Orders(taken[..i]))
        invariant ran == old(ran)
      {
        assert Orders(taken[..i + 1]) == Orders(taken[..i]) + {taken[i].order} by {
          assert taken[..i + 1] == taken[..i] + [taken[i]];
        }
        active := active - {taken[i].order};
      }
      assert taken[..|taken|] == taken;
    }
  }

  function Orders(entries: seq<Entry>): set<nat> {
    set e | e in entries :: e.order
  }
}
