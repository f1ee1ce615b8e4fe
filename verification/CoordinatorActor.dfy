/** The coordinator's message handling: it joins the runtime's decisions with the
    handoff workers it tracks. */
module CoordinatorActor {
  import opened Ids
  import opened Allocation
  import opened LeastShards
  import opened Coordinator
  import opened CoordinatorDecisions
  import HandoffRuns

  /** Reference to a worker spawned for a plan. No two workers share a number. */
  datatype WorkerRef = WorkerRef(id: nat, plan: HandoffPlan)

  /** What the coordinator did or observed, in order. `Processed` is what a worker did. */
  datatype Note =
    | HomeAsked(shard: ShardId, requester: RegionId)
    | HomeGiven(shard: ShardId, region: RegionId)
    | RequestDeferred(shard: ShardId, requester: RegionId)
    | RegionGone(region: RegionId)
    | RegionDropped(region: RegionId)
    | Spawned(worker: WorkerRef)
    | Ended(worker: WorkerRef, ok: bool)
    | RequestersFreed(shard: ShardId, requesters: seq<RegionId>)
    | Processed(worker: WorkerRef, input: HandoffRuns.Input)

  datatype Coord = Coord(rt: Runtime, active: map<ShardId, WorkerRef>, nextId: nat, log: seq<Note>)

  const COORDINATOR := Id("coordinator")

  function Noted(c: Coord, note: Note): Coord {
    c.(log := c.log + [note])
  }

  function PlanNotes(plan: HomePlan): seq<Note> {
    match plan
    case Allocated(event, region, shard) => [HomeGiven(shard, region)]
    case Deferred(shard, requester) => [RequestDeferred(shard, requester)]
    case _ => []
  }

  /** One home request. A strategy error changes nothing. */
  function Asked(c: Coord, st: Strategy, requester: RegionId, shard: ShardId): Coord {
    var (rt, plan) := HomeRequested(c.rt, st, requester, shard);
    c.(rt := rt, log := c.log + [HomeAsked(shard, requester)] + if plan.Ok? then PlanNotes(plan.value) else [])
  }

  predicate Answered(c: Coord, st: Strategy, requester: RegionId, shard: ShardId) {
    HomeRequested(c.rt, st, requester, shard).1.Ok?
  }

  /** Home requests one after another; an error ends the coordinator, so there is no result then. */
  function AskedAll(c: Coord, st: Strategy, requester: RegionId, shards: seq<ShardId>): Option<Coord>
    decreases |shards|
  {
    if shards == [] then Some(c)
    else if !Answered(c, st, requester, shards[0]) then None
    else AskedAll(Asked(c, st, requester, shards[0]), st, requester, shards[1..])
  }

  /** The same shard requested again for several requesters. */
  function AskedFor(c: Coord, st: Strategy, shard: ShardId, requesters: seq<RegionId>): Option<Coord>
    decreases |requesters|
  {
    if requesters == [] then Some(c)
    else if !Answered(c, st, requesters[0], shard) then None
    else AskedFor(Asked(c, st, requesters[0], shard), st, shard, requesters[1..])
  }

  function RememberedServed(c: Coord, st: Strategy): Option<Coord> {
    if c.rt.state.remember then AskedAll(c, st, COORDINATOR, Sorted(c.rt.state.unallocated)) else Some(c)
  }

  function Registered(c: Coord, st: Strategy, region: RegionId): Option<Coord> {
    RememberedServed(c.(rt := c.rt.(state := Next(c.rt.state, RegionRegistered(region)))), st)
  }

  function RememberedLoaded(c: Coord, st: Strategy, shards: set<ShardId>): Option<Coord> {
    RememberedServed(c.(rt := c.rt.(state := Merged(c.rt.state, shards))), st)
  }

  function Unmarked(rt: Runtime, region: RegionId): Runtime {
    rt.(draining := rt.draining - {region},
        terminating := rt.terminating - {region},
        unavailable := rt.unavailable - {region})
  }

  function Forgotten(c: Coord, region: RegionId): Coord {
    Noted(c.(rt := Unmarked(c.rt, region)), RegionGone(region))
  }

  /** A region is gone: its markers and homes go, and remembered shards find new homes. */
  function RegionLost(c: Coord, st: Strategy, region: RegionId): Option<Coord> {
    var d := Forgotten(c, region);
    if region !in c.rt.state.alloc.regions then Some(d)
    else RememberedServed(d.(rt := d.rt.(state := Next(d.rt.state, RegionTerminated(region)))), st)
  }

  /** One worker for every plan whose shard has none yet. */
  function SpawnedFor(c: Coord, plans: seq<HandoffPlan>): Coord
    decreases |plans|
  {
    if plans == [] then c
    else if plans[0].shard in c.active then SpawnedFor(c, plans[1..])
    else SpawnedFor(SpawnedOne(c, plans[0]), plans[1..])
  }

  function SpawnedOne(c: Coord, plan: HandoffPlan): Coord {
    var worker := WorkerRef(c.nextId, plan);
    Noted(c.(active := c.active[plan.shard := worker], nextId := c.nextId + 1), Spawned(worker))
  }

  function Rebalanced(c: Coord, st: Strategy): Coord {
    var (rt, plan) := RebalancePlanned(c.rt, st);
    SpawnedFor(c.(rt := rt), if plan.Ok? && plan.value.Started? then plan.value.plans else [])
  }

  function Drained(c: Coord, region: RegionId): Coord {
    var (rt, plan) := ShutdownPlanned(c.rt, region);
    SpawnedFor(c.(rt := rt), if plan.Draining? then plan.plans else [])
  }

  function RetryFor(completion: Completion): seq<RegionId> {
    if completion.HomeReleased? && completion.requesters == [] then [COORDINATOR] else completion.requesters
  }

  /** A worker result arrived: forget the worker, apply the result, serve the waiting requesters. */
  function WorkerDone(c: Coord, st: Strategy, shard: ShardId, ok: bool): Option<Coord> {
    var (rt, completion) := RebalanceCompleted(c.rt, shard, ok);
    var d := Noted(c.(rt := rt, active := c.active - {shard}), RequestersFreed(shard, completion.requesters));
    AskedFor(d, st, shard, RetryFor(completion))
  }

  // ----- The actor -----

  /** Tracks at most one worker for each shard. */
  class CoordinatorHandoff {
    var activeWorkers: map<ShardId, WorkerRef>
    var nextId: nat
    var notified: seq<(WorkerRef, RegionId)>

    constructor ()
      ensures activeWorkers == map[] && nextId == 0 && notified == []
    {
      activeWorkers, nextId, notified := map[], 0, [];
    }

    method SpawnWorkers(plans: seq<HandoffPlan>, ghost c: Coord) returns (spawned: seq<WorkerRef>)
      requires c.active == activeWorkers && c.nextId == nextId
      modifies this`activeWorkers, this`nextId
      ensures var d := SpawnedFor(c, plans);
        d == c.(active := activeWorkers, nextId := nextId, log := c.log + SpawnNotes(spawned))
    {
      spawned := [];
      ghost var d := c;
      assert plans[0..] == plans && c.log + SpawnNotes([]) == c.log;
      for i := 0 to |plans|
        invariant d == c.(active := activeWorkers, nextId := nextId, log := c.log + SpawnNotes(spawned))
        invariant SpawnedFor(d, plans[i..]) == SpawnedFor(c, plans)
      {
        assert plans[i..][1..] == plans[i + 1..];
        if plans[i].shard in activeWorkers {
          continue;
        }
        var worker := WorkerRef(nextId, plans[i]);
        d := SpawnedOne(d, plans[i]);
        assert SpawnNotes(spawned + [worker]) == SpawnNotes(spawned) + [Spawned(worker)];
        nextId := nextId + 1;
        activeWorkers := activeWorkers[plans[i].shard := worker];
        spawned := spawned + [worker];
      }
    }

    method RemoveWorker(shard: ShardId)
      modifies this`activeWorkers
      ensures activeWorkers == old(activeWorkers) - {shard}
    {
      activeWorkers := activeWorkers - {shard};
    }

    /** Tells every active worker, in shard order, that a region terminated. */
    method ForwardRegionTerminated(region: RegionId)
      modifies this`notified
      ensures |notified| == |old(notified)| + |activeWorkers|
      ensures notified[..|old(notified)|] == old(notified)
      ensures forall i :: 0 <= i < |activeWorkers| ==>
        notified[|old(notified)| + i] == (activeWorkers[Sorted(activeWorkers.Keys)[i]], region)
    {
      var order := Sorted(activeWorkers.Keys);
      for i := 0 to |order|
        invariant |notified| == |old(notified)| + i && notified[..|old(notified)|] == old(notified)
        invariant forall j :: 0 <= j < i ==> notified[|old(notified)| + j] == (activeWorkers[order[j]], region)
      {
        notified := notified + [(activeWorkers[order[i]], region)];
      }
    }
  }

  function SpawnNotes(workers: seq<WorkerRef>): seq<Note> {
    seq(|workers|, i requires 0 <= i < |workers| => Spawned(workers[i]))
  }

  class ShardCoordinator {
    const runtime: CoordinatorRuntime
    const handoff: CoordinatorHandoff
    const strategy: Strategy
    ghost var journal: seq<Note>

    ghost function View(): Coord
      reads this, runtime, runtime.state, runtime.state.allocations, handoff
    {
      Coord(runtime.View(), handoff.activeWorkers, handoff.nextId, journal)
    }

    ghost predicate Valid()
      reads this, runtime, runtime.state, runtime.state.allocations
    {
      runtime.Valid()
    }

    constructor (runtime: CoordinatorRuntime, strategy: Strategy)
      requires runtime.Valid()
      ensures Valid() && this.runtime == runtime && this.strategy == strategy && fresh(handoff)
      ensures View() == Coord(runtime.View(), map[], 0, [])
    {
      this.runtime, this.strategy, journal := runtime, strategy, [];
      handoff := new CoordinatorHandoff();
    }

    method RequestShardHome(requester: RegionId, shard: ShardId) returns (plan: HomeResult)
      requires Valid()
      modifies this, runtime, runtime.state, runtime.state.allocations
      ensures Valid() && View() == Asked(old(View()), strategy, requester, shard)
      ensures plan == HomeRequested(old(runtime.View()), strategy, requester, shard).1
    {
      hide WellFormed, HomeRequested;
      plan := runtime.RequestShardHome(requester, shard, strategy);
      journal := journal + [HomeAsked(shard, requester)] + if plan.Ok? then PlanNotes(plan.value) else [];
    }

    method AllocateRememberedShardHomes() returns (ok: bool)
      requires Valid()
      modifies this, runtime, runtime.state, runtime.state.allocations
      ensures Valid()
      ensures var served := RememberedServed(old(View()), strategy);
        (ok <==> served.Some?) && (ok ==> View() == served.value)
    {
      hide WellFormed, HomeRequested, HomesRequested, AskedAll;
      var plans := runtime.AllocateRememberedShardHomes(COORDINATOR, strategy);
      ok := plans.Ok?;
      ghost var waiting := Sorted(old(runtime.state.unallocatedShards));
      AskedAllRequests(old(View()), strategy, COORDINATOR, waiting);
      if ok && old(runtime.state.rememberEntities) {
        journal := journal + RequestNotes(COORDINATOR, waiting, plans.value);
      }
    }

    method RegisterRegion(region: RegionId) returns (ok: bool)
      requires Valid()
      modifies this, runtime, runtime.state, runtime.state.allocations
      ensures Valid()
      ensures var registered := Registered(old(View()), strategy, region);
        (ok <==> registered.Some?) && (ok ==> View() == registered.value)
    {
      hide Consistent, RememberedServed;
      if region !in runtime.state.allocations.regions {
        var _ := runtime.state.Apply(RegionRegistered(region));
      }
      ok := AllocateRememberedShardHomes();
    }

    method ApplyRegionStopped(region: RegionId) returns (ok: bool)
      requires Valid()
      modifies this, runtime, runtime.state, runtime.state.allocations, handoff`notified
      ensures Valid()
      ensures var lost := RegionLost(old(View()), strategy, region);
        (ok <==> lost.Some?) && (ok ==> View() == lost.value)
      ensures forall s :: s in old(handoff.activeWorkers) ==> (old(handoff.activeWorkers)[s], region) in handoff.notified
    {
      hide WellFormed, RememberedServed, Next, Sorted;
      ForgetRegion(region);
      if region !in runtime.state.allocations.regions {
        return true;
      }
      var _ := runtime.state.Apply(RegionTerminated(region));
      ok := AllocateRememberedShardHomes();
    }

    /** Clears a region's markers and tells every active worker that it is gone. */
    method ForgetRegion(region: RegionId)
      requires Valid()
      modifies this, runtime, handoff`notified
      ensures Valid() && View() == Forgotten(old(View()), region)
      ensures forall s :: s in handoff.activeWorkers ==> (handoff.activeWorkers[s], region) in handoff.notified
    {
      hide WellFormed, Sorted;
      runtime.gracefulShutdownRegions := runtime.gracefulShutdownRegions - {region};
      runtime.terminatingRegions := runtime.terminatingRegions - {region};
      runtime.unavailableRegions := runtime.unavailableRegions - {region};
      handoff.ForwardRegionTerminated(region);
      AllTold(handoff.activeWorkers, region, handoff.notified, |old(handoff.notified)|);
      journal := journal + [RegionGone(region)];
    }

    method PlanRebalance() returns (plan: Result<RebalancePlan, ShardingError>)
      requires Valid()
      modifies this, runtime, handoff
      ensures Valid() && View() == Rebalanced(old(View()), strategy)
      ensures plan == RebalancePlanned(old(runtime.View()), strategy).1
    {
      hide WellFormed, RebalancePlanned, SpawnedFor;
      plan := runtime.PlanRebalance(strategy);
      var plans := if plan.Ok? && plan.value.Started? then plan.value.plans else [];
      var spawned := handoff.SpawnWorkers(plans, View());
      journal := journal + SpawnNotes(spawned);
    }

    method GracefulShutdown(region: RegionId) returns (plan: ShutdownPlan)
      requires Valid()
      modifies this, runtime, handoff
      ensures Valid() && View() == Drained(old(View()), region)
      ensures plan == ShutdownPlanned(old(runtime.View()), region).1
    {
      hide WellFormed, ShutdownPlanned, SpawnedFor;
      plan := runtime.PlanRegionShutdown(region);
      var plans := if plan.Draining? then plan.plans else [];
      var spawned := handoff.SpawnWorkers(plans, View());
      journal := journal + SpawnNotes(spawned);
    }

    method ApplyHandoffWorkerDone(shard: ShardId, done: bool) returns (ok: bool)
      requires Valid()
      modifies this, runtime, runtime.state, runtime.state.allocations, handoff`activeWorkers
      ensures Valid()
      ensures var completed := WorkerDone(old(View()), strategy, shard, done);
        (ok <==> completed.Some?) && (ok ==> View() == completed.value)
    {
      hide WellFormed, RebalanceCompleted, AskedFor;
      handoff.RemoveWorker(shard);
      var completion := runtime.CompleteRebalance(shard, done);
      journal := journal + [RequestersFreed(shard, completion.value.requesters)];
      ok := RetryCompletedRebalanceHomes(shard, RetryFor(completion.value));
    }

    method RetryCompletedRebalanceHomes(shard: ShardId, requesters: seq<RegionId>) returns (ok: bool)
      requires Valid()
      modifies this, runtime, runtime.state, runtime.state.allocations
      ensures Valid()
      ensures var retried := AskedFor(old(View()), strategy, shard, requesters);
        (ok <==> retried.Some?) && (ok ==> View() == retried.value)
    {
      hide WellFormed, HomeRequested, Asked;
      assert requesters[0..] == requesters;
      for i := 0 to |requesters|
        invariant Valid()
        invariant AskedFor(View(), strategy, shard, requesters[i..]) == AskedFor(old(View()), strategy, shard, requesters)
      {
        assert requesters[i..][1..] == requesters[i + 1..];
        var plan := RequestShardHome(requesters[i], shard);
        if plan.Err? {
          return false;
        }
      }
      return true;
    }
  }

  function RequestNotes(requester: RegionId, shards: seq<ShardId>, plans: seq<HomePlan>): seq<Note>
    requires |plans| == |shards|
  {
    if plans == [] then []
    else [HomeAsked(shards[0], requester)] + PlanNotes(plans[0]) + RequestNotes(requester, shards[1..], plans[1..])
  }

  /** The actor's series of requests is the runtime's, with the notes of its plans. */
  lemma {:induction false} AskedAllRequests(c: Coord, st: Strategy, requester: RegionId, shards: seq<ShardId>)
    ensures var (rt, plans) := HomesRequested(c.rt, st, requester, shards);
        if plans.Ok? then
          |plans.value| == |shards|
          && AskedAll(c, st, requester, shards) == Some(c.(rt := rt, log := c.log + RequestNotes(requester, shards, plans.value)))
        else AskedAll(c, st, requester, shards) == None
    decreases |shards|
  {
    hide HomeRequested;
    if shards == [] {
      assert c.log + [] == c.log;
    } else if Answered(c, st, requester, shards[0]) {
      var d := Asked(c, st, requester, shards[0]);
      AskedAllRequests(d, st, requester, shards[1..]);
      var plan := HomeRequested(c.rt, st, requester, shards[0]).1.value;
      var rest := HomesRequested(d.rt, st, requester, shards[1..]).1;
      if rest.Ok? {
        assert ([plan] + rest.value)[1..] == rest.value;
        var first := [HomeAsked(shards[0], requester)] + PlanNotes(plan);
        var more := RequestNotes(requester, shards[1..], rest.value);
        assert c.log + [HomeAsked(shards[0], requester)] + PlanNotes(plan) + more == c.log + (first + more);
      }
    }
  }

  lemma AllTold(active: map<ShardId, WorkerRef>, region: RegionId, notified: seq<(WorkerRef, RegionId)>, n: nat)
    requires |notified| == n + |active|
    requires forall i :: 0 <= i < |active| ==> notified[n + i] == (active[Sorted(active.Keys)[i]], region)
    ensures forall s :: s in active ==> (active[s], region) in notified
  {
    forall s | s in active ensures (active[s], region) in notified {
      var i :| 0 <= i < |active| && Sorted(active.Keys)[i] == s;
      assert notified[n + i] == (active[s], region);
    }
  }
}
