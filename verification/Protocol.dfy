/** The coordinator together with its handoff workers, for every interleaving of requests, region
    losses, rebalances, worker messages and worker results. */
module Protocol {
  import opened Ids
  import opened Allocation
  import opened LeastShards
  import opened Coordinator
  import opened CoordinatorDecisions
  import opened CoordinatorActor
  import Handoff
  import opened HandoffRuns

  /** A worker's result on its way to the coordinator. */
  datatype Mail = Mail(worker: WorkerRef, ok: bool)

  datatype System = System(c: Coord, mail: set<Mail>)

  datatype Action =
    | AskHome(requester: RegionId, shard: ShardId)
    | Register(region: RegionId)
    | Lose(region: RegionId)
    | Load(shards: set<ShardId>)
    | ApplyEvent(event: Event)
    | Mark(gateOpen: bool, draining: set<RegionId>, terminating: set<RegionId>, unavailable: set<RegionId>, preparing: bool)
    | Rebalance
    | Drain(region: RegionId)
    | TakeResult(result: Mail)
    | Deliver(worker: WorkerRef, input: Input)

  // ----- What a log says -----

  /** The inputs a worker has processed. */
  function InputsOf(log: seq<Note>, w: WorkerRef): seq<Input> {
    if log == [] then []
    else
      var rest := InputsOf(log[..|log| - 1], w);
      var last := log[|log| - 1];
      if last.Processed? && last.worker == w then rest + [last.input] else rest
  }

  /** The worker and all it has sent. */
  function WorkerAt(log: seq<Note>, w: WorkerRef): (Handoff.Worker, seq<Handoff.Effect>) {
    Run(Handoff.Fresh(w.plan), InputsOf(log, w))
  }

  /** Requesters deferred behind a shard since its requesters were last freed. */
  function DeferredSince(log: seq<Note>, s: ShardId): set<RegionId> {
    if log == [] then {}
    else DeferredNow(DeferredSince(log[..|log| - 1], s), log[|log| - 1], s)
  }

  function DeferredNow(before: set<RegionId>, n: Note, s: ShardId): set<RegionId> {
    if n.RequestDeferred? && n.shard == s then before + {n.requester}
    else if n.RequestersFreed? && n.shard == s then {}
    else before
  }

  /** The coordinator told worker `w` that region `r` is gone. */
  ghost predicate Announced(log: seq<Note>, w: WorkerRef, r: RegionId) {
    exists b, k :: 0 <= b < k < |log| && log[b] == Spawned(w) && log[k] == RegionGone(r)
  }

  /** Entry `k` shows that region `r` no longer runs shard `s`: the region is gone, or a worker moved
      the shard away and success was justified by what that worker had processed. */
  ghost predicate Frees(log: seq<Note>, k: int, s: ShardId, r: RegionId) {
    && 0 <= k < |log|
    && match log[k]
       case RegionGone(region) => region == r
       case RegionDropped(region) => region == r
       case Ended(w, ok) => ok && w.plan.shard == s && w.plan.from == r && Justified(w.plan, InputsOf(log[..k], w))
       case _ => false
  }

  ghost predicate FreedBetween(log: seq<Note>, i: int, j: int, s: ShardId, r: RegionId) {
    exists k :: i < k < j && Frees(log, k, s, r)
  }

  /** A shard is given a home again only after its previous home was freed. */
  ghost predicate Safe(log: seq<Note>) {
    forall i, j :: 0 <= i < j < |log| && log[i].HomeGiven? && log[j].HomeGiven? && log[i].shard == log[j].shard ==>
      FreedBetween(log, i, j, log[i].shard, log[i].region)
  }

  /** Every release frees exactly the requesters deferred since the release before. */
  ghost predicate FreesExactly(log: seq<Note>) {
    forall k :: 0 <= k < |log| && log[k].RequestersFreed? ==>
      log[k].requesters == Sorted(DeferredSince(log[..k], log[k].shard))
  }

  /** No worker is told of a termination that the coordinator did not see. */
  ghost predicate TerminationsReal(log: seq<Note>) {
    forall k :: 0 <= k < |log| && log[k].Processed? && log[k].input.msg.RegionTerminated? ==>
      Announced(log[..k], log[k].worker, log[k].input.msg.region)
  }

  // ----- Steps -----

  ghost predicate Takes(x: System, y: System, c: Option<Coord>) {
    c.Some? && y == x.(c := c.value)
  }

  function EventNotes(c: Coord, e: Event): seq<Note> {
    if e.RegionTerminated? && e.region in c.rt.state.alloc.regions then [RegionDropped(e.region)] else []
  }

  function Processing(x: System, w: WorkerRef, input: Input): System {
    var (_, more) := Handoff.Received(WorkerAt(x.c.log, w).0, input.msg, input.links);
    System(Noted(x.c, Processed(w, input)), x.mail + set ok: bool | Handoff.Report(ok) in more :: Mail(w, ok))
  }

  ghost predicate Step(st: Strategy, x: System, a: Action, y: System) {
    match a
    case AskHome(q, s) => y == x.(c := Asked(x.c, st, q, s))
    case Register(r) => Takes(x, y, Registered(x.c, st, r))
    case Lose(r) => Takes(x, y, RegionLost(x.c, st, r))
    case Load(shards) => Takes(x, y, RememberedLoaded(x.c, st, shards))
    case ApplyEvent(e) =>
      && !e.HomeAllocated? && !e.HomeDeallocated?
      && y == x.(c := x.c.(rt := x.c.rt.(state := Next(x.c.rt.state, e)), log := x.c.log + EventNotes(x.c, e)))
    case Mark(gateOpen, draining, terminating, unavailable, preparing) =>
      y == x.(c := x.c.(rt := x.c.rt.(gateOpen := gateOpen, draining := draining, terminating := terminating,
                                      unavailable := unavailable, preparing := preparing)))
    case Rebalance => y == x.(c := Rebalanced(x.c, st))
    case Drain(r) => y == x.(c := Drained(x.c, r))
    case TakeResult(m) =>
      && m in x.mail
      && Takes(x.(mail := x.mail - {m}), y, WorkerDone(Noted(x.c, Ended(m.worker, m.ok)), st, m.worker.plan.shard, m.ok))
    case Deliver(w, input) =>
      && Spawned(w) in x.c.log
      && (input.msg.RegionTerminated? ==> Announced(x.c.log, w, input.msg.region))
      && y == Processing(x, w, input)
  }

  function InitialNotes(homes: map<ShardId, RegionId>): seq<Note> {
    var order := Sorted(homes.Keys);
    seq(|order|, i requires 0 <= i < |order| => HomeGiven(order[i], homes[order[i]]))
  }

  /** A coordinator that starts with any stored homes and nothing under way. */
  ghost predicate Initial(x: System) {
    && WellFormed(x.c.rt.state)
    && x.c.rt.rebalancing == map[] && x.c.active == map[] && x.mail == {}
    && x.c.log == InitialNotes(x.c.rt.state.alloc.homes)
  }

  ghost predicate Execution(st: Strategy, states: seq<System>, actions: seq<Action>) {
    && |states| == |actions| + 1 && Initial(states[0])
    && forall i :: 0 <= i < |actions| ==> Step(st, states[i], actions[i], states[i + 1])
  }

  // ----- What every reachable state keeps -----

  ghost predicate IsActive(active: map<ShardId, WorkerRef>, w: WorkerRef) {
    w.plan.shard in active && active[w.plan.shard] == w
  }

  /** A shard is being handed off exactly while it has a worker (or one is about to be spawned), that
      worker was made for it, and its home, if any, is the one the worker is to vacate. */
  ghost predicate Tracking(c: Coord, pending: set<ShardId>) {
    && WellFormed(c.rt.state)
    && c.rt.rebalancing.Keys == c.active.Keys + pending && c.active.Keys !! pending
    && forall s :: s in c.active ==> Tracked(c, s)
  }

  ghost predicate Tracked(c: Coord, s: ShardId)
    requires s in c.active
  {
    && c.active[s].plan.shard == s && Spawned(c.active[s]) in c.log
    && (s in c.rt.state.alloc.homes ==> c.rt.state.alloc.homes[s] == c.active[s].plan.from)
  }

  ghost predicate Numbered(log: seq<Note>, nextId: nat) {
    && (forall w :: Spawned(w) in log ==> w.id < nextId)
    && forall w, input :: Processed(w, input) in log ==> Spawned(w) in log
  }

  /** Results under way come from active workers, and a worker stays active until its result is taken. */
  ghost predicate Reporting(log: seq<Note>, active: map<ShardId, WorkerRef>, mail: set<Mail>) {
    && (forall m :: m in mail ==> IsActive(active, m.worker) && Handoff.Report(m.ok) in WorkerAt(log, m.worker).1)
    && forall w :: Spawned(w) in log ==> IsActive(active, w) || Reports(WorkerAt(log, w).1) >= 1
  }

  ghost predicate Deferrals(log: seq<Note>, rebalancing: map<ShardId, set<RegionId>>) {
    && FreesExactly(log)
    && forall s :: DeferredSince(log, s) == if s in rebalancing then rebalancing[s] else {}
  }

  /** Every home ever given is the current one or was freed since. */
  ghost predicate HomesKnown(log: seq<Note>, homes: map<ShardId, RegionId>) {
    && Safe(log)
    && forall i :: 0 <= i < |log| && log[i].HomeGiven? ==>
         Current(homes, log[i].shard, log[i].region) || FreedBetween(log, i, |log|, log[i].shard, log[i].region)
  }

  ghost predicate Current(homes: map<ShardId, RegionId>, s: ShardId, r: RegionId) {
    s in homes && homes[s] == r
  }

  ghost predicate Inv(x: System, pending: set<ShardId>) {
    && Tracking(x.c, pending)
    && Numbered(x.c.log, x.c.nextId)
    && Reporting(x.c.log, x.c.active, x.mail)
    && Deferrals(x.c.log, x.c.rt.rebalancing)
    && HomesKnown(x.c.log, x.c.rt.state.alloc.homes)
    && TerminationsReal(x.c.log)
  }

  // ----- One more note -----

  lemma InputsAppend(log: seq<Note>, n: Note, w: WorkerRef)
    ensures InputsOf(log + [n], w) == if n.Processed? && n.worker == w then InputsOf(log, w) + [n.input] else InputsOf(log, w)
  {
    assert (log + [n])[..|log + [n]| - 1] == log;
  }

  lemma DeferredAppend(log: seq<Note>, n: Note, s: ShardId)
    ensures DeferredSince(log + [n], s) == DeferredNow(DeferredSince(log, s), n, s)
  {
    assert (log + [n])[..|log + [n]| - 1] == log;
  }

  lemma FreesAppend(log: seq<Note>, n: Note, k: int, s: ShardId, r: RegionId)
    requires 0 <= k < |log|
    ensures Frees(log + [n], k, s, r) <==> Frees(log, k, s, r)
  {
    assert (log + [n])[..k] == log[..k];
  }

  lemma FreedBetweenAppend(log: seq<Note>, n: Note, i: int, j: int, s: ShardId, r: RegionId)
    requires 0 <= i && j <= |log| && FreedBetween(log, i, j, s, r)
    ensures forall m :: j <= m ==> FreedBetween(log + [n], i, m, s, r)
  {
    var k :| i < k < j && Frees(log, k, s, r);
    FreesAppend(log, n, k, s, r);
  }

  /** A note keeps the log safe unless it gives a home to a shard whose last home is not freed. */
  lemma SafeAppend(log: seq<Note>, n: Note)
    requires Safe(log)
    requires n.HomeGiven? ==>
      forall i :: 0 <= i < |log| && log[i].HomeGiven? && log[i].shard == n.shard ==>
        FreedBetween(log, i, |log|, log[i].shard, log[i].region)
    ensures Safe(log + [n])
  {
    hide FreedBetween;
    var more := log + [n];
    forall i, j | 0 <= i < j < |more| && more[i].HomeGiven? && more[j].HomeGiven? && more[i].shard == more[j].shard
      ensures FreedBetween(more, i, j, more[i].shard, more[i].region)
    {
      FreedBetweenAppend(log, n, i, j, log[i].shard, log[i].region);
    }
  }

  /** Homes after one note: the note may give one home and may free homes that are then gone. */
  lemma HomesAppend(log: seq<Note>, n: Note, homes: map<ShardId, RegionId>, after: map<ShardId, RegionId>)
    requires HomesKnown(log, homes)
    requires n.HomeGiven? ==> n.shard !in homes && Current(after, n.shard, n.region)
    requires forall s, r :: Current(homes, s, r) ==> Current(after, s, r) || Frees(log + [n], |log|, s, r)
    ensures HomesKnown(log + [n], after)
  {
    hide Frees, Safe, FreedBetween;
    var more := log + [n];
    SafeAppend(log, n);
    forall i | 0 <= i < |more| && more[i].HomeGiven?
      ensures Current(after, more[i].shard, more[i].region) || FreedBetween(more, i, |more|, more[i].shard, more[i].region)
    {
      if i < |log| {
        HomeAppend(log, n, homes, after, i);
      }
    }
  }

  lemma HomeAppend(log: seq<Note>, n: Note, homes: map<ShardId, RegionId>, after: map<ShardId, RegionId>, i: nat)
    requires i < |log| && log[i].HomeGiven?
    requires Current(homes, log[i].shard, log[i].region) || FreedBetween(log, i, |log|, log[i].shard, log[i].region)
    requires Current(homes, log[i].shard, log[i].region) ==>
      Current(after, log[i].shard, log[i].region) || Frees(log + [n], |log|, log[i].shard, log[i].region)
    ensures Current(after, log[i].shard, log[i].region) || FreedBetween(log + [n], i, |log| + 1, log[i].shard, log[i].region)
  {
    hide Frees;
    if FreedBetween(log, i, |log|, log[i].shard, log[i].region) {
      FreedBetweenAppend(log, n, i, |log|, log[i].shard, log[i].region);
    }
  }

  lemma DeferralsAppend(log: seq<Note>, n: Note, before: map<ShardId, set<RegionId>>, after: map<ShardId, set<RegionId>>)
    requires Deferrals(log, before)
    requires n.RequestersFreed? ==> n.requesters == Sorted(DeferredSince(log, n.shard))
    requires forall s :: DeferredSince(log + [n], s) == if s in after then after[s] else {}
    ensures Deferrals(log + [n], after)
  {
    hide DeferredSince, Sorted;
    var more := log + [n];
    forall k | 0 <= k < |more| && more[k].RequestersFreed?
      ensures more[k].requesters == Sorted(DeferredSince(more[..k], more[k].shard))
    {
      assert more[..k] == log[..k];
      if k == |log| {
        assert log[..k] == log;
      }
    }
  }

  lemma TerminationsAppend(log: seq<Note>, n: Note)
    requires TerminationsReal(log)
    requires n.Processed? && n.input.msg.RegionTerminated? ==> Announced(log, n.worker, n.input.msg.region)
    ensures TerminationsReal(log + [n])
  {
    hide Announced;
    var more := log + [n];
    forall k | 0 <= k < |more| && more[k].Processed? && more[k].input.msg.RegionTerminated?
      ensures Announced(more[..k], more[k].worker, more[k].input.msg.region)
    {
      assert more[..k] == log[..k];
      if k == |log| {
        assert log[..k] == log;
      }
    }
  }

  lemma WorkerUnaffected(log: seq<Note>, n: Note, w: WorkerRef)
    requires !n.Processed? || n.worker != w
    ensures WorkerAt(log + [n], w) == WorkerAt(log, w)
  {
    InputsAppend(log, n, w);
  }

  lemma NumberedAppend(log: seq<Note>, n: Note, nextId: nat)
    requires Numbered(log, nextId) && !n.Spawned?
    requires n.Processed? ==> Spawned(n.worker) in log
    ensures Numbered(log + [n], nextId)
  {
  }

  lemma ReportingAppend(log: seq<Note>, n: Note, active: map<ShardId, WorkerRef>, mail: set<Mail>)
    requires Reporting(log, active, mail) && !n.Spawned? && !n.Processed?
    ensures Reporting(log + [n], active, mail)
  {
    hide WorkerAt;
    forall w ensures WorkerAt(log + [n], w) == WorkerAt(log, w) {
      WorkerUnaffected(log, n, w);
    }
  }

  /** Homes only change for shards without a worker. */
  lemma TrackingAppend(c: Coord, d: Coord, pending: set<ShardId>)
    requires Tracking(c, pending) && WellFormed(d.rt.state)
    requires d.active == c.active && d.rt.rebalancing.Keys == c.rt.rebalancing.Keys
    requires forall n :: n in c.log ==> n in d.log
    requires forall s :: s in c.active && s in d.rt.state.alloc.homes ==>
      s in c.rt.state.alloc.homes && d.rt.state.alloc.homes[s] == c.rt.state.alloc.homes[s]
    ensures Tracking(d, pending)
  {
    hide WellFormed;
    forall s | s in d.active ensures Tracked(d, s) {
      assert Tracked(c, s);
    }
  }

  ghost function HeldFor(rebalancing: map<ShardId, set<RegionId>>, s: ShardId): set<RegionId> {
    if s in rebalancing then rebalancing[s] else {}
  }

  /** One coordinator note that neither spawns nor belongs to a worker. */
  lemma NoteKeeps(x: System, d: Coord, n: Note, pending: set<ShardId>)
    requires Inv(x, pending) && WellFormed(d.rt.state)
    requires d.log == x.c.log + [n] && d.active == x.c.active && d.nextId == x.c.nextId
    requires !n.Spawned? && !n.Processed? && !n.RequestersFreed?
    requires d.rt.rebalancing.Keys == x.c.rt.rebalancing.Keys
    requires forall s :: HeldFor(d.rt.rebalancing, s) == DeferredNow(HeldFor(x.c.rt.rebalancing, s), n, s)
    requires n.HomeGiven? ==>
      && n.shard !in x.c.active && n.shard !in x.c.rt.state.alloc.homes
      && d.rt.state.alloc.homes == x.c.rt.state.alloc.homes[n.shard := n.region]
    requires !n.HomeGiven? ==> forall s, r :: Current(d.rt.state.alloc.homes, s, r) ==> Current(x.c.rt.state.alloc.homes, s, r)
    requires forall s, r :: Current(x.c.rt.state.alloc.homes, s, r) ==>
      Current(d.rt.state.alloc.homes, s, r) || Frees(d.log, |x.c.log|, s, r)
    ensures Inv(x.(c := d), pending)
  {
    hide WellFormed, Reporting, Numbered, TerminationsReal, HomesKnown, FreesExactly, Frees, DeferredNow, WorkerAt, Tracked;
    TrackingNote(x.c, d, n, pending);
    NumberedAppend(x.c.log, n, d.nextId);
    ReportingAppend(x.c.log, n, d.active, x.mail);
    DeferralsNote(x.c.log, n, x.c.rt.rebalancing, d.rt.rebalancing);
    HomesAppend(x.c.log, n, x.c.rt.state.alloc.homes, d.rt.state.alloc.homes);
    TerminationsAppend(x.c.log, n);
  }

  lemma TrackingNote(c: Coord, d: Coord, n: Note, pending: set<ShardId>)
    requires Tracking(c, pending) && WellFormed(d.rt.state)
    requires d.active == c.active && d.rt.rebalancing.Keys == c.rt.rebalancing.Keys && d.log == c.log + [n]
    requires n.HomeGiven? ==> n.shard !in c.active && d.rt.state.alloc.homes == c.rt.state.alloc.homes[n.shard := n.region]
    requires !n.HomeGiven? ==> forall s, r :: Current(d.rt.state.alloc.homes, s, r) ==> Current(c.rt.state.alloc.homes, s, r)
    ensures Tracking(d, pending)
  {
    hide WellFormed, Tracked;
    forall s | s in c.active && s in d.rt.state.alloc.homes
      ensures s in c.rt.state.alloc.homes && d.rt.state.alloc.homes[s] == c.rt.state.alloc.homes[s]
    {
      if !n.HomeGiven? {
        assert Current(d.rt.state.alloc.homes, s, d.rt.state.alloc.homes[s]);
      }
    }
    TrackingAppend(c, d, pending);
  }

  lemma DeferralsNote(log: seq<Note>, n: Note, before: map<ShardId, set<RegionId>>, after: map<ShardId, set<RegionId>>)
    requires Deferrals(log, before)
    requires n.RequestersFreed? ==> n.requesters == Sorted(DeferredSince(log, n.shard))
    requires forall s :: HeldFor(after, s) == DeferredNow(HeldFor(before, s), n, s)
    ensures Deferrals(log + [n], after)
  {
    hide DeferredNow, FreesExactly, DeferredSince, Sorted;
    forall s ensures DeferredSince(log + [n], s) == if s in after then after[s] else {} {
      DeferredAppend(log, n, s);
      assert HeldFor(after, s) == DeferredNow(HeldFor(before, s), n, s);
    }
    DeferralsAppend(log, n, before, after);
  }

  /** A change of markers or of durable state that leaves homes, handoffs and notes alone. */
  lemma StateKeeps(x: System, rt: Runtime, pending: set<ShardId>)
    requires Inv(x, pending) && WellFormed(rt.state)
    requires rt.rebalancing == x.c.rt.rebalancing && rt.state.alloc.homes == x.c.rt.state.alloc.homes
    ensures Inv(x.(c := x.c.(rt := rt)), pending)
  {
    hide WellFormed, Reporting, Numbered, TerminationsReal, HomesKnown, FreesExactly, Deferrals;
    TrackingAppend(x.c, x.c.(rt := rt), pending);
  }

  // ----- Requests -----

  /** What one request can do: wait behind a handoff, give a shard without a home or a handoff its
      home, or nothing. */
  lemma AskedCases(c: Coord, st: Strategy, q: RegionId, s: ShardId)
    requires WellFormed(c.rt.state)
    ensures var d := Asked(c, st, q, s);
      var log := c.log + [HomeAsked(s, q)];
      && WellFormed(d.rt.state) && d.active == c.active && d.nextId == c.nextId
      && (|| (d.rt == c.rt && d.log == log)
          || (&& s in c.rt.rebalancing && d.log == log + [RequestDeferred(s, q)]
              && d.rt == c.rt.(rebalancing := c.rt.rebalancing[s := c.rt.rebalancing[s] + {q}]))
          || exists r ::
               && s !in c.rt.rebalancing && s !in c.rt.state.alloc.homes && d.log == log + [HomeGiven(s, r)]
               && d.rt.rebalancing == c.rt.rebalancing
               && d.rt.state.alloc.homes == c.rt.state.alloc.homes[s := r])
  {
    hide WellFormed, Active, Next;
    var d := Asked(c, st, q, s);
    var (rt, plan) := HomeRequested(c.rt, st, q, s);
    var log := c.log + [HomeAsked(s, q)];
    assert log + [] == log;
    if plan.Ok? && plan.value.Allocated? {
      var r := plan.value.hostRegion;
      PlacedHome(c.rt, s, r);
    }
  }

  lemma PlacedHome(rt: Runtime, s: ShardId, r: RegionId)
    requires WellFormed(rt.state) && r in Active(rt).regions && s !in rt.state.alloc.homes
    ensures WellFormed(Next(rt.state, HomeAllocated(s, r)))
    ensures Next(rt.state, HomeAllocated(s, r)).alloc.homes == rt.state.alloc.homes[s := r]
  {
    hide WellFormed;
    NextWellFormed(rt.state, HomeAllocated(s, r));
    NextHomes(rt.state, HomeAllocated(s, r));
  }

  lemma AskKeeps(x: System, st: Strategy, q: RegionId, s: ShardId, pending: set<ShardId>)
    requires Inv(x, pending)
    ensures Inv(x.(c := Asked(x.c, st, q, s)), pending)
  {
    hide Inv, Asked, HeldFor, WellFormed, Frees;
    assert Tracking(x.c, pending) by { InvParts(x, pending); }
    AskedCases(x.c, st, q, s);
    var d := Asked(x.c, st, q, s);
    var asked := x.c.(log := x.c.log + [HomeAsked(s, q)]);
    QuietNote(x, HomeAsked(s, q), pending);
    if d.log == asked.log {
    } else if s in x.c.rt.rebalancing && d.log == asked.log + [RequestDeferred(s, q)] {
      DeferKeeps(x.(c := asked), d, s, q, pending);
    } else {
      var r :| d.log == asked.log + [HomeGiven(s, r)] && d.rt.state.alloc.homes == x.c.rt.state.alloc.homes[s := r];
      GiveKeeps(x.(c := asked), d, s, r, pending);
    }
  }

  lemma InvParts(x: System, pending: set<ShardId>)
    requires Inv(x, pending)
    ensures Tracking(x.c, pending)
  {
  }

  lemma QuietNote(x: System, n: Note, pending: set<ShardId>)
    requires Inv(x, pending)
    requires n.HomeAsked? || n.RegionGone? || n.RegionDropped? || n.Ended?
    ensures Inv(x.(c := Noted(x.c, n)), pending)
  {
    hide Inv, Frees;
    InvParts(x, pending);
    NoteKeeps(x, Noted(x.c, n), n, pending);
  }

  lemma DeferKeeps(x: System, d: Coord, s: ShardId, q: RegionId, pending: set<ShardId>)
    requires Inv(x, pending) && s in x.c.rt.rebalancing
    requires d == x.c.(rt := x.c.rt.(rebalancing := x.c.rt.rebalancing[s := x.c.rt.rebalancing[s] + {q}]),
                       log := x.c.log + [RequestDeferred(s, q)])
    ensures Inv(x.(c := d), pending)
  {
    hide Inv, Frees, WellFormed;
    InvParts(x, pending);
    assert d.rt.rebalancing.Keys == x.c.rt.rebalancing.Keys;
    NoteKeeps(x, d, RequestDeferred(s, q), pending);
  }

  lemma GiveKeeps(x: System, d: Coord, s: ShardId, r: RegionId, pending: set<ShardId>)
    requires Inv(x, pending) && s !in x.c.rt.rebalancing && s !in x.c.rt.state.alloc.homes
    requires WellFormed(d.rt.state) && d.rt.rebalancing == x.c.rt.rebalancing
    requires d == x.c.(rt := d.rt, log := x.c.log + [HomeGiven(s, r)])
    requires d.rt.state.alloc.homes == x.c.rt.state.alloc.homes[s := r]
    ensures Inv(x.(c := d), pending)
  {
    hide Inv, Frees, WellFormed;
    InvParts(x, pending);
    NoteKeeps(x, d, HomeGiven(s, r), pending);
  }

  lemma {:induction false} AskAllKeeps(x: System, st: Strategy, q: RegionId, shards: seq<ShardId>)
    requires Inv(x, {}) && AskedAll(x.c, st, q, shards).Some?
    ensures Inv(x.(c := AskedAll(x.c, st, q, shards).value), {})
    decreases |shards|
  {
    hide Inv, Asked, Answered;
    if shards != [] {
      AskKeeps(x, st, q, shards[0], {});
      AskAllKeeps(x.(c := Asked(x.c, st, q, shards[0])), st, q, shards[1..]);
    }
  }

  lemma {:induction false} AskForKeeps(x: System, st: Strategy, s: ShardId, requesters: seq<RegionId>)
    requires Inv(x, {}) && AskedFor(x.c, st, s, requesters).Some?
    ensures Inv(x.(c := AskedFor(x.c, st, s, requesters).value), {})
    decreases |requesters|
  {
    hide Inv, Asked, Answered;
    if requesters != [] {
      AskKeeps(x, st, requesters[0], s, {});
      AskForKeeps(x.(c := Asked(x.c, st, requesters[0], s)), st, s, requesters[1..]);
    }
  }

  lemma RememberedKeeps(x: System, st: Strategy)
    requires Inv(x, {}) && RememberedServed(x.c, st).Some?
    ensures Inv(x.(c := RememberedServed(x.c, st).value), {})
  {
    hide Inv, AskedAll;
    if x.c.rt.state.remember {
      AskAllKeeps(x, st, COORDINATOR, Sorted(x.c.rt.state.unallocated));
    }
  }

  // ----- Regions, events and markers -----

  lemma RegisterKeeps(x: System, st: Strategy, r: RegionId)
    requires Inv(x, {}) && Registered(x.c, st, r).Some?
    ensures Inv(x.(c := Registered(x.c, st, r).value), {})
  {
    hide Inv, RememberedServed, Next, WellFormed;
    InvParts(x, {});
    var rt := x.c.rt.(state := Next(x.c.rt.state, RegionRegistered(r)));
    NextWellFormed(x.c.rt.state, RegionRegistered(r));
    NextHomes(x.c.rt.state, RegionRegistered(r));
    StateKeeps(x, rt, {});
    RememberedKeeps(x.(c := x.c.(rt := rt)), st);
  }

  lemma LoadKeeps(x: System, st: Strategy, shards: set<ShardId>)
    requires Inv(x, {}) && RememberedLoaded(x.c, st, shards).Some?
    ensures Inv(x.(c := RememberedLoaded(x.c, st, shards).value), {})
  {
    hide Inv, RememberedServed, Consistent;
    InvParts(x, {});
    var rt := x.c.rt.(state := Merged(x.c.rt.state, shards));
    StateKeeps(x, rt, {});
    RememberedKeeps(x.(c := x.c.(rt := rt)), st);
  }

  /** The homes of a region that is gone go with it. */
  lemma GoneKeeps(x: System, rt: Runtime, r: RegionId, n: Note)
    requires Inv(x, {}) && (n == RegionGone(r) || n == RegionDropped(r))
    requires rt.rebalancing == x.c.rt.rebalancing && rt.state == Next(x.c.rt.state, RegionTerminated(r))
    ensures Inv(x.(c := x.c.(rt := rt, log := x.c.log + [n])), {})
  {
    hide Inv, Next, WellFormed;
    InvParts(x, {});
    NextWellFormed(x.c.rt.state, RegionTerminated(r));
    NextHomes(x.c.rt.state, RegionTerminated(r));
    NoteKeeps(x, x.c.(rt := rt, log := x.c.log + [n]), n, {});
  }

  lemma LoseKeeps(x: System, st: Strategy, r: RegionId)
    requires Inv(x, {}) && RegionLost(x.c, st, r).Some?
    ensures Inv(x.(c := RegionLost(x.c, st, r).value), {})
  {
    hide Inv, RememberedServed, WellFormed;
    var d := Forgotten(x.c, r);
    var rt := d.rt.(state := Next(x.c.rt.state, RegionTerminated(r)));
    GoneKeeps(x, rt, r, RegionGone(r));
    assert d.(rt := rt) == x.c.(rt := rt, log := x.c.log + [RegionGone(r)]);
    if r in x.c.rt.state.alloc.regions {
      RememberedKeeps(x.(c := d.(rt := rt)), st);
    } else {
      assert rt == d.rt;
    }
  }

  lemma EventKeeps(x: System, e: Event)
    requires Inv(x, {}) && !e.HomeAllocated? && !e.HomeDeallocated?
    ensures Inv(x.(c := x.c.(rt := x.c.rt.(state := Next(x.c.rt.state, e)), log := x.c.log + EventNotes(x.c, e))), {})
  {
    hide Inv, WellFormed, Next;
    InvParts(x, {});
    var rt := x.c.rt.(state := Next(x.c.rt.state, e));
    NextWellFormed(x.c.rt.state, e);
    NextHomes(x.c.rt.state, e);
    if EventNotes(x.c, e) != [] {
      GoneKeeps(x, rt, e.region, RegionDropped(e.region));
    } else {
      assert x.c.log + [] == x.c.log;
      StateKeeps(x, rt, {});
    }
  }

  // ----- Spawning -----

  /** Plans for distinct shards that wait for a worker, each from the shard's home. */
  ghost predicate Plannable(c: Coord, plans: seq<HandoffPlan>, pending: set<ShardId>) {
    && (forall i, j :: 0 <= i < j < |plans| ==> plans[i].shard != plans[j].shard)
    && (forall i :: 0 <= i < |plans| ==> Current(c.rt.state.alloc.homes, plans[i].shard, plans[i].from))
    && pending == set i | 0 <= i < |plans| :: plans[i].shard
  }

  lemma ReportingSpawn(log: seq<Note>, active: map<ShardId, WorkerRef>, mail: set<Mail>, w: WorkerRef)
    requires Reporting(log, active, mail) && w.plan.shard !in active
    ensures Reporting(log + [Spawned(w)], active[w.plan.shard := w], mail)
  {
    hide WorkerAt;
    forall v ensures WorkerAt(log + [Spawned(w)], v) == WorkerAt(log, v) {
      WorkerUnaffected(log, Spawned(w), v);
    }
  }

  lemma TrackingSpawn(c: Coord, plan: HandoffPlan, pending: set<ShardId>)
    requires Tracking(c, pending) && plan.shard in pending
    requires Current(c.rt.state.alloc.homes, plan.shard, plan.from)
    ensures Tracking(SpawnedOne(c, plan), pending - {plan.shard})
  {
    hide WellFormed;
    var d := SpawnedOne(c, plan);
    forall s | s in d.active ensures Tracked(d, s) {
      if s != plan.shard {
        assert Tracked(c, s);
      }
    }
  }

  lemma SpawnKeeps(x: System, plan: HandoffPlan, pending: set<ShardId>)
    requires Inv(x, pending) && plan.shard in pending
    requires Current(x.c.rt.state.alloc.homes, plan.shard, plan.from)
    ensures Inv(x.(c := SpawnedOne(x.c, plan)), pending - {plan.shard})
  {
    hide WellFormed, Reporting, TerminationsReal, HomesKnown, Deferrals, Frees, Tracked, Current;
    var w := WorkerRef(x.c.nextId, plan);
    TrackingSpawn(x.c, plan, pending);
    ReportingSpawn(x.c.log, x.c.active, x.mail, w);
    DeferralsNote(x.c.log, Spawned(w), x.c.rt.rebalancing, x.c.rt.rebalancing);
    HomesAppend(x.c.log, Spawned(w), x.c.rt.state.alloc.homes, x.c.rt.state.alloc.homes);
    TerminationsAppend(x.c.log, Spawned(w));
  }

  lemma {:induction false} SpawnAllKeeps(x: System, plans: seq<HandoffPlan>, pending: set<ShardId>)
    requires Inv(x, pending) && Plannable(x.c, plans, pending)
    ensures Inv(x.(c := SpawnedFor(x.c, plans)), {})
    decreases |plans|
  {
    hide Inv, SpawnedOne, Current;
    InvParts(x, pending);
    if plans != [] {
      var rest := pending - {plans[0].shard};
      assert plans[0].shard in pending;
      SpawnKeeps(x, plans[0], pending);
      SpawnedOneHomes(x.c, plans[0]);
      PlannableRest(x.c, plans, pending);
      SpawnAllKeeps(x.(c := SpawnedOne(x.c, plans[0])), plans[1..], rest);
    } else {
      assert pending == {};
    }
  }

  lemma SpawnedOneHomes(c: Coord, plan: HandoffPlan)
    ensures SpawnedOne(c, plan).rt == c.rt
  {
  }

  lemma PlannableRest(c: Coord, plans: seq<HandoffPlan>, pending: set<ShardId>)
    requires plans != [] && Plannable(c, plans, pending)
    ensures forall d: Coord :: d.rt == c.rt ==> Plannable(d, plans[1..], pending - {plans[0].shard})
  {
    hide Current;
    var rest := plans[1..];
    forall s ensures s in pending - {plans[0].shard} <==> s in set i | 0 <= i < |rest| :: rest[i].shard {
      if s in pending && s != plans[0].shard {
        var i :| 0 <= i < |plans| && plans[i].shard == s;
        assert rest[i - 1].shard == s;
      }
      if i :| 0 <= i < |rest| && rest[i].shard == s {
        assert plans[i + 1].shard == s;
      }
    }
    assert pending - {plans[0].shard} == set i | 0 <= i < |rest| :: rest[i].shard;
  }

  // ----- Planning handoffs -----

  lemma DeferralsMark(log: seq<Note>, before: map<ShardId, set<RegionId>>, after: map<ShardId, set<RegionId>>)
    requires Deferrals(log, before)
    requires forall s :: HeldFor(after, s) == HeldFor(before, s)
    ensures Deferrals(log, after)
  {
    hide FreesExactly, DeferredSince;
    forall s ensures DeferredSince(log, s) == if s in after then after[s] else {} {
      assert HeldFor(after, s) == HeldFor(before, s);
    }
  }

  lemma MarkKeeps(x: System, rt: Runtime, shards: set<ShardId>)
    requires Inv(x, {}) && rt.state == x.c.rt.state && rt.rebalancing == x.c.rt.rebalancing
    requires shards !! x.c.rt.rebalancing.Keys
    ensures Inv(x.(c := x.c.(rt := Marked(rt, shards))), shards)
  {
    hide WellFormed, Reporting, Numbered, TerminationsReal, HomesKnown, Deferrals;
    DeferralsMark(x.c.log, x.c.rt.rebalancing, Marked(rt, shards).rebalancing);
    var d := x.c.(rt := Marked(rt, shards));
    forall s | s in d.active ensures Tracked(d, s) {
      assert Tracked(x.c, s);
    }
  }

  /** Marking startable shards and spawning a worker for each. */
  lemma PlanKeeps(x: System, rt: Runtime, order: seq<ShardId>)
    requires Inv(x, {}) && rt.state == x.c.rt.state && rt.rebalancing == x.c.rt.rebalancing
    requires Distinct(order)
    ensures var shards := Startable(x.c.rt, order);
      Inv(x.(c := SpawnedFor(x.c.(rt := Marked(rt, Elements(shards))), Handoffs(x.c.rt, shards))), {})
  {
    hide Inv, Marked, SpawnedFor;
    var shards := Startable(x.c.rt, order);
    StartableFollows(x.c.rt, order);
    MarkKeeps(x, rt, Elements(shards));
    var marked := x.c.(rt := Marked(rt, Elements(shards)));
    MarkedHomes(rt, Elements(shards));
    HandoffsPlannable(x.c.rt, marked, shards);
    SpawnAllKeeps(x.(c := marked), Handoffs(x.c.rt, shards), Elements(shards));
  }

  lemma MarkedHomes(rt: Runtime, shards: set<ShardId>)
    ensures Marked(rt, shards).state == rt.state
  {
  }

  lemma HandoffsPlannable(rt: Runtime, c: Coord, shards: seq<ShardId>)
    requires Distinct(shards) && forall s :: s in shards ==> s in rt.state.alloc.homes
    requires c.rt.state == rt.state
    ensures Plannable(c, Handoffs(rt, shards), Elements(shards))
  {
    hide Participants;
    var plans := Handoffs(rt, shards);
    forall s ensures s in Elements(shards) <==> s in set i | 0 <= i < |plans| :: plans[i].shard {
      if s in shards {
        var i :| 0 <= i < |shards| && shards[i] == s;
        assert plans[i].shard == s;
      }
    }
    assert Elements(shards) == set i | 0 <= i < |plans| :: plans[i].shard;
  }

  lemma RebalanceKeeps(x: System, st: Strategy)
    requires Inv(x, {})
    ensures Inv(x.(c := Rebalanced(x.c, st)), {})
  {
    hide Inv, Marked, Active, Startable, Handoffs;
    var (rt, plan) := RebalancePlanned(x.c.rt, st);
    if plan.Ok? && plan.value.Started? {
      var order := Sorted(st.rebalance(Active(x.c.rt), x.c.rt.rebalancing.Keys).value);
      IncreasingDistinct(order);
      PlanKeeps(x, x.c.rt, order);
    } else {
      assert x.c.(rt := rt) == x.c;
    }
  }

  lemma DrainKeeps(x: System, r: RegionId)
    requires Inv(x, {})
    ensures Inv(x.(c := Drained(x.c, r)), {})
  {
    hide Inv, Marked, Startable, Handoffs, WellFormed;
    InvParts(x, {});
    var (rt, plan) := ShutdownPlanned(x.c.rt, r);
    if plan.Draining? {
      var order := x.c.rt.state.alloc.regions[r];
      RegionDistinct(x.c.rt.state, r);
      PlanKeeps(x, x.c.rt.(draining := x.c.rt.draining + {r}), order);
    } else {
      StateKeeps(x, rt, {});
    }
  }

  lemma RegionDistinct(c: State, r: RegionId)
    requires WellFormed(c) && r in c.alloc.regions
    ensures Distinct(c.alloc.regions[r])
  {
  }

  // ----- Results -----

  lemma {:induction false} ReportCounted(sent: seq<Handoff.Effect>, ok: bool)
    requires Handoff.Report(ok) in sent
    ensures Reports(sent) >= 1
    ensures Handoff.Report(!ok) in sent ==> Reports(sent) >= 2
  {
    var init, last := sent[..|sent| - 1], sent[|sent| - 1];
    assert sent == init + [last];
    if Handoff.Report(ok) in init {
      ReportCounted(init, ok);
    }
    if Handoff.Report(!ok) in init {
      ReportCounted(init, !ok);
    }
  }

  /** A worker has at most one result under way. */
  lemma OneResult(log: seq<Note>, active: map<ShardId, WorkerRef>, mail: set<Mail>, m: Mail, other: Mail)
    requires Reporting(log, active, mail) && m in mail && other in mail && m.worker.plan.shard == other.worker.plan.shard
    ensures m == other
  {
    assert m.worker == other.worker;
    var sent := WorkerAt(log, m.worker).1;
    WorkerReportsOnce(m.worker.plan, InputsOf(log, m.worker));
    ReportCounted(sent, m.ok);
  }

  lemma ReportingTaken(log: seq<Note>, active: map<ShardId, WorkerRef>, mail: set<Mail>, m: Mail)
    requires Reporting(log, active, mail) && m in mail
    ensures Reporting(log, active - {m.worker.plan.shard}, mail - {m})
  {
    hide WorkerAt, Reports;
    var s := m.worker.plan.shard;
    forall other | other in mail - {m} ensures IsActive(active - {s}, other.worker) {
      if other.worker.plan.shard == s {
        OneResult(log, active, mail, m, other);
      }
    }
    ReportCounted(WorkerAt(log, m.worker).1, m.ok);
  }

  lemma EndedFrees(log: seq<Note>, w: WorkerRef)
    requires Handoff.Report(true) in WorkerAt(log, w).1
    ensures Frees(log + [Ended(w, true)], |log|, w.plan.shard, w.plan.from)
  {
    hide Justified, Run;
    WorkerSuccessJustified(w.plan, InputsOf(log, w));
    assert (log + [Ended(w, true)])[..|log|] == log;
  }

  lemma TrackingTaken(c: Coord, d: Coord, s: ShardId)
    requires Tracking(c, {}) && WellFormed(d.rt.state)
    requires d.active == c.active - {s} && d.rt.rebalancing == c.rt.rebalancing - {s}
    requires forall n :: n in c.log ==> n in d.log
    requires forall t :: t != s && t in d.rt.state.alloc.homes ==>
      t in c.rt.state.alloc.homes && d.rt.state.alloc.homes[t] == c.rt.state.alloc.homes[t]
    ensures Tracking(d, {})
  {
    hide WellFormed;
    forall t | t in d.active ensures Tracked(d, t) {
      assert Tracked(c, t);
    }
  }

  lemma CompletedCases(rt: Runtime, s: ShardId, ok: bool)
    requires WellFormed(rt.state) && s in rt.rebalancing
    ensures var (after, completion) := RebalanceCompleted(rt, s, ok);
      && WellFormed(after.state) && after.rebalancing == rt.rebalancing - {s}
      && completion.requesters == Sorted(rt.rebalancing[s])
      && after.state.alloc.homes == if ok then rt.state.alloc.homes - {s} else rt.state.alloc.homes
  {
    hide WellFormed, Next, Sorted;
    CompletionMeaning(rt, s, ok);
    NextWellFormed(rt.state, HomeDeallocated(s));
  }

  /** The coordinator right after a result, before it serves the freed requesters. */
  function Released(c: Coord, s: ShardId, ok: bool): Coord {
    var (rt, completion) := RebalanceCompleted(c.rt, s, ok);
    Noted(c.(rt := rt, active := c.active - {s}), RequestersFreed(s, completion.requesters))
  }

  lemma ReleaseKeeps(x: System, m: Mail)
    requires Inv(x, {}) && m in x.mail
    ensures Inv(System(Released(Noted(x.c, Ended(m.worker, m.ok)), m.worker.plan.shard, m.ok), x.mail - {m}), {})
  {
    hide WellFormed, Numbered, HomesKnown, Deferrals, TerminationsReal, RebalanceCompleted, Frees, Tracked, WorkerAt;
    var s := m.worker.plan.shard;
    var ended := Ended(m.worker, m.ok);
    var c := Noted(x.c, ended);
    CompletedCases(x.c.rt, s, m.ok);
    var d := Released(c, s, m.ok);
    var freed := RequestersFreed(s, RebalanceCompleted(c.rt, s, m.ok).1.requesters);
    TrackingTaken(x.c, d, s);
    NumberedAppend(x.c.log, ended, x.c.nextId);
    NumberedAppend(c.log, freed, x.c.nextId);
    ReleaseReporting(x.c.log, x.c.active, x.mail, m, freed);
    ReleaseDeferrals(x.c.log, ended, freed, x.c.rt.rebalancing);
    ReleaseHomes(x, m, d.rt.state.alloc.homes, freed);
    TerminationsAppend(x.c.log, ended);
    TerminationsAppend(c.log, freed);
  }

  lemma ReleaseReporting(log: seq<Note>, active: map<ShardId, WorkerRef>, mail: set<Mail>, m: Mail, freed: Note)
    requires Reporting(log, active, mail) && m in mail && freed.RequestersFreed?
    ensures Reporting(log + [Ended(m.worker, m.ok)] + [freed], active - {m.worker.plan.shard}, mail - {m})
  {
    hide Reporting;
    ReportingTaken(log, active, mail, m);
    ReportingAppend(log, Ended(m.worker, m.ok), active - {m.worker.plan.shard}, mail - {m});
    ReportingAppend(log + [Ended(m.worker, m.ok)], freed, active - {m.worker.plan.shard}, mail - {m});
  }

  lemma ReleaseDeferrals(log: seq<Note>, ended: Note, freed: Note, rebalancing: map<ShardId, set<RegionId>>)
    requires Deferrals(log, rebalancing) && ended.Ended? && freed.RequestersFreed?
    requires freed.shard in rebalancing && freed.requesters == Sorted(rebalancing[freed.shard])
    ensures Deferrals(log + [ended] + [freed], rebalancing - {freed.shard})
  {
    hide FreesExactly, DeferredSince, Sorted;
    DeferralsNote(log, ended, rebalancing, rebalancing);
    assert Deferrals(log + [ended], rebalancing);
    DeferralsNote(log + [ended], freed, rebalancing, rebalancing - {freed.shard});
  }

  lemma ReleaseHomes(x: System, m: Mail, after: map<ShardId, RegionId>, freed: Note)
    requires Inv(x, {}) && m in x.mail && freed.RequestersFreed?
    requires var homes := x.c.rt.state.alloc.homes;
      after == if m.ok then homes - {m.worker.plan.shard} else homes
    ensures HomesKnown(x.c.log + [Ended(m.worker, m.ok)] + [freed], after)
  {
    hide WellFormed, Numbered, HomesKnown, Deferrals, TerminationsReal, Frees, WorkerAt;
    var ended := Ended(m.worker, m.ok);
    assert Tracked(x.c, m.worker.plan.shard);
    if m.ok {
      EndedFrees(x.c.log, m.worker);
    }
    HomesAppend(x.c.log, ended, x.c.rt.state.alloc.homes, after);
    HomesAppend(x.c.log + [ended], freed, after, after);
  }

  lemma TakeKeeps(x: System, st: Strategy, m: Mail, y: System)
    requires Inv(x, {}) && Step(st, x, TakeResult(m), y)
    ensures Inv(y, {})
  {
    hide Inv, AskedFor, RebalanceCompleted;
    var s := m.worker.plan.shard;
    var c := Noted(x.c, Ended(m.worker, m.ok));
    ReleaseKeeps(x, m);
    AskForKeeps(System(Released(c, s, m.ok), x.mail - {m}), st, s, RetryFor(RebalanceCompleted(c.rt, s, m.ok).1));
  }

  // ----- Worker messages -----

  lemma WorkerAppends(log: seq<Note>, w: WorkerRef, input: Input)
    ensures WorkerAt(log + [Processed(w, input)], w).1 ==
      WorkerAt(log, w).1 + Handoff.Received(WorkerAt(log, w).0, input.msg, input.links).1
  {
    hide Run, Handoff.Received;
    InputsAppend(log, Processed(w, input), w);
    RunAppends(Handoff.Fresh(w.plan), InputsOf(log, w), input);
  }

  lemma ReportingDelivered(x: System, w: WorkerRef, input: Input)
    requires Reporting(x.c.log, x.c.active, x.mail) && Spawned(w) in x.c.log
    ensures Reporting(Processing(x, w, input).c.log, x.c.active, Processing(x, w, input).mail)
  {
    hide WorkerAt, Handoff.Received, Reports;
    var n := Processed(w, input);
    var log := x.c.log + [n];
    var more := Handoff.Received(WorkerAt(x.c.log, w).0, input.msg, input.links).1;
    WorkerAppends(x.c.log, w, input);
    CountsAdd(WorkerAt(x.c.log, w).1, more);
    OnceAt(log, w);
    forall v | v != w ensures WorkerAt(log, v) == WorkerAt(x.c.log, v) {
      WorkerUnaffected(x.c.log, n, v);
    }
    forall m | m in Processing(x, w, input).mail
      ensures IsActive(x.c.active, m.worker) && Handoff.Report(m.ok) in WorkerAt(log, m.worker).1
    {
      if m !in x.mail {
        ReportCounted(more, m.ok);
      }
    }
  }

  lemma OnceAt(log: seq<Note>, w: WorkerRef)
    ensures Reports(WorkerAt(log, w).1) <= 1
  {
    hide Run;
    WorkerReportsOnce(w.plan, InputsOf(log, w));
  }

  lemma DeliverKeeps(x: System, w: WorkerRef, input: Input)
    requires Inv(x, {}) && Spawned(w) in x.c.log
    requires input.msg.RegionTerminated? ==> Announced(x.c.log, w, input.msg.region)
    ensures Inv(Processing(x, w, input), {})
  {
    hide WellFormed, Reporting, TerminationsReal, HomesKnown, Deferrals, Frees, Tracked, WorkerAt, Announced, Handoff.Received;
    var n := Processed(w, input);
    TrackingAppend(x.c, Noted(x.c, n), {});
    NumberedAppend(x.c.log, n, x.c.nextId);
    ReportingDelivered(x, w, input);
    DeferralsNote(x.c.log, n, x.c.rt.rebalancing, x.c.rt.rebalancing);
    HomesAppend(x.c.log, n, x.c.rt.state.alloc.homes, x.c.rt.state.alloc.homes);
    TerminationsAppend(x.c.log, n);
  }

  // ----- The theorems -----

  lemma InitialHolds(x: System)
    requires Initial(x)
    ensures Inv(x, {})
  {
    hide WellFormed, Deferrals, Sorted, HomesKnown, WorkerAt;
    InitialDeferrals(x.c.log);
    InitialHomes(x.c.rt.state.alloc.homes);
    forall n | n in x.c.log ensures n.HomeGiven? {
    }
  }

  lemma InitialHomes(homes: map<ShardId, RegionId>)
    ensures HomesKnown(InitialNotes(homes), homes)
  {
    hide FreedBetween, Sorted;
    IncreasingDistinct(Sorted(homes.Keys));
  }

  lemma {:induction false} InitialDeferrals(log: seq<Note>)
    requires forall i :: 0 <= i < |log| ==> log[i].HomeGiven?
    ensures Deferrals(log, map[])
  {
    forall s ensures DeferredSince(log, s) == {} {
      NoneDeferred(log, s);
    }
  }

  lemma {:induction false} NoneDeferred(log: seq<Note>, s: ShardId)
    requires forall i :: 0 <= i < |log| ==> log[i].HomeGiven?
    ensures DeferredSince(log, s) == {}
  {
    if log != [] {
      NoneDeferred(log[..|log| - 1], s);
    }
  }

  lemma StepKeeps(st: Strategy, x: System, a: Action, y: System)
    requires Inv(x, {}) && Step(st, x, a, y)
    ensures Inv(y, {})
  {
    hide Inv, Registered, RegionLost, RememberedLoaded, Rebalanced, Drained, WorkerDone, Processing, Asked;
    match a {
      case AskHome(q, s) => AskKeeps(x, st, q, s, {});
      case Register(r) => RegisterKeeps(x, st, r);
      case Lose(r) => LoseKeeps(x, st, r);
      case Load(shards) => LoadKeeps(x, st, shards);
      case ApplyEvent(e) => EventKeeps(x, e);
      case Mark(_, _, _, _, _) => InvParts(x, {}); StateKeeps(x, y.c.rt, {});
      case Rebalance => RebalanceKeeps(x, st);
      case Drain(r) => DrainKeeps(x, r);
      case TakeResult(m) => TakeKeeps(x, st, m, y);
      case Deliver(w, input) => DeliverKeeps(x, w, input);
    }
  }

  lemma {:induction false} ExecutionKeeps(st: Strategy, states: seq<System>, actions: seq<Action>, i: nat)
    requires Execution(st, states, actions) && i < |states|
    ensures Inv(states[i], {})
  {
    hide Inv, Step, Initial;
    if i == 0 {
      InitialHolds(states[0]);
    } else {
      ExecutionKeeps(st, states, actions, i - 1);
      StepKeeps(st, states[i - 1], actions[i - 1], states[i]);
    }
  }

  /** In every execution a shard that already had a home is given one again only after its previous
      region was seen gone, or after a handoff of that shard from that region succeeded: its worker
      started, every participant let go, and then the old owner was seen to have stopped the shard.
      No worker counts a termination that the coordinator did not see first. */
  lemma ShardMovesSafely(st: Strategy, states: seq<System>, actions: seq<Action>, n: nat, i: nat, j: nat)
    requires Execution(st, states, actions) && n < |states|
    ensures var log := states[n].c.log;
      && TerminationsReal(log)
      && (i < j < |log| && log[i].HomeGiven? && log[j].HomeGiven? && log[i].shard == log[j].shard ==>
            exists k :: i < k < j && Frees(log, k, log[i].shard, log[i].region))
  {
    hide Execution, Tracking, Numbered, Reporting, Deferrals, Frees, TerminationsReal;
    ExecutionKeeps(st, states, actions, n);
    var log := states[n].c.log;
    assert i < j < |log| && log[i].HomeGiven? && log[j].HomeGiven? && log[i].shard == log[j].shard ==>
      FreedBetween(log, i, j, log[i].shard, log[i].region);
  }

  /** In every reachable state exactly the shards under handoff have a worker, each its own; a home such
      a shard still has is the one its worker vacates; and a worker has at most one result under way. */
  lemma HandoffsTracked(st: Strategy, states: seq<System>, actions: seq<Action>, n: nat)
    requires Execution(st, states, actions) && n < |states|
    ensures var x := states[n];
      && x.c.rt.rebalancing.Keys == x.c.active.Keys
      && (forall s :: s in x.c.active ==>
            && x.c.active[s].plan.shard == s
            && (s in x.c.rt.state.alloc.homes ==> x.c.rt.state.alloc.homes[s] == x.c.active[s].plan.from))
      && (forall m :: m in x.mail ==> m.worker.plan.shard in x.c.active && x.c.active[m.worker.plan.shard] == m.worker)
      && (forall m, other :: m in x.mail && other in x.mail && m.worker == other.worker ==> m == other)
  {
    hide Execution, Numbered, Deferrals, HomesKnown, TerminationsReal, WellFormed, WorkerAt, Reports;
    ExecutionKeeps(st, states, actions, n);
    var x := states[n];
    forall s | s in x.c.active ensures Tracked(x.c, s) {
    }
    forall m, other | m in x.mail && other in x.mail && m.worker == other.worker ensures m == other {
      OneResult(x.c.log, x.c.active, x.mail, m, other);
    }
  }

  /** In every execution each result of a handoff frees exactly the requesters deferred behind the shard
      since the result before, and what is deferred now is what the runtime holds. */
  lemma DeferredFreedOnce(st: Strategy, states: seq<System>, actions: seq<Action>, n: nat, k: nat)
    requires Execution(st, states, actions) && n < |states|
    ensures var log := states[n].c.log;
      && (k < |log| && log[k].RequestersFreed? ==> log[k].requesters == Sorted(DeferredSince(log[..k], log[k].shard)))
      && (forall s :: s in states[n].c.rt.rebalancing ==> states[n].c.rt.rebalancing[s] == DeferredSince(log, s))
      && (forall s :: s !in states[n].c.rt.rebalancing ==> DeferredSince(log, s) == {})
  {
    hide Execution, Tracking, Numbered, Reporting, HomesKnown, TerminationsReal, DeferredSince, Sorted;
    ExecutionKeeps(st, states, actions, n);
  }

  /** The home requests made, in order. */
  function Requests(log: seq<Note>): seq<(ShardId, RegionId)> {
    if log == [] then []
    else
      var rest := Requests(log[..|log| - 1]);
      var last := log[|log| - 1];
      if last.HomeAsked? then rest + [(last.shard, last.requester)] else rest
  }

  lemma RequestsAppend(log: seq<Note>, n: Note)
    ensures Requests(log + [n]) == Requests(log) + if n.HomeAsked? then [(n.shard, n.requester)] else []
  {
    assert (log + [n])[..|log + [n]| - 1] == log;
  }

  lemma AskedRequests(c: Coord, st: Strategy, q: RegionId, s: ShardId)
    ensures Requests(Asked(c, st, q, s).log) == Requests(c.log) + [(s, q)]
  {
    hide HomeRequested, Requests;
    var asked := c.log + [HomeAsked(s, q)];
    RequestsAppend(c.log, HomeAsked(s, q));
    var plan := HomeRequested(c.rt, st, q, s).1;
    if plan.Ok? && PlanNotes(plan.value) != [] {
      RequestsAppend(asked, PlanNotes(plan.value)[0]);
      assert PlanNotes(plan.value) == [PlanNotes(plan.value)[0]];
    } else {
      assert Asked(c, st, q, s).log == asked;
    }
  }

  lemma {:induction false} AskedForRequests(c: Coord, st: Strategy, s: ShardId, requesters: seq<RegionId>)
    requires AskedFor(c, st, s, requesters).Some?
    ensures Requests(AskedFor(c, st, s, requesters).value.log) ==
      Requests(c.log) + seq(|requesters|, i requires 0 <= i < |requesters| => (s, requesters[i]))
    decreases |requesters|
  {
    hide Asked, Answered, Requests;
    if requesters != [] {
      AskedRequests(c, st, requesters[0], s);
      AskedForRequests(Asked(c, st, requesters[0], s), st, s, requesters[1..]);
    }
  }

  /** A result makes the coordinator ask again for every requester it frees, in order and once each;
      a freed home nobody waits for is asked for by the coordinator itself. */
  lemma FreedRequestersServed(c: Coord, st: Strategy, s: ShardId, ok: bool)
    requires WellFormed(c.rt.state) && s in c.rt.rebalancing && WorkerDone(c, st, s, ok).Some?
    ensures var freed := Sorted(c.rt.rebalancing[s]);
      var served := if freed == [] && ok && s in c.rt.state.alloc.homes then [COORDINATOR] else freed;
      Requests(WorkerDone(c, st, s, ok).value.log) ==
        Requests(c.log) + seq(|served|, i requires 0 <= i < |served| => (s, served[i]))
  {
    hide WellFormed, AskedFor, Requests, Sorted, Next;
    var (rt, completion) := RebalanceCompleted(c.rt, s, ok);
    CompletedCases(c.rt, s, ok);
    RequestsAppend(c.log, RequestersFreed(s, completion.requesters));
    AskedForRequests(Released(c, s, ok), st, s, RetryFor(completion));
  }
}
