/** Coordinator decisions: resolving shard homes, planning handoffs and applying
    their results, on top of the durable state. */
module CoordinatorDecisions {
  import opened Ids
  import opened Allocation
  import opened LeastShards
  import opened Coordinator

  datatype Runtime = Runtime(
    state: State,
    gateOpen: bool,
    draining: set<RegionId>,
    terminating: set<RegionId>,
    unavailable: set<RegionId>,
    rebalancing: map<ShardId, set<RegionId>>,
    preparing: bool)

  datatype IgnoreReason =
    | NotAllRegionsRegistered
    | NoActiveRegions
    | HomeRegionTerminating(region: RegionId)
    | AllocatedRegionNoLongerActive(region: RegionId)

  datatype HomePlan =
    | Reply(shard: ShardId, region: RegionId)
    | Allocated(event: Event, hostRegion: RegionId, hostShard: ShardId)
    | Deferred(shard: ShardId, requester: RegionId)
    | Ignored(shard: ShardId, reason: IgnoreReason)

  datatype HandoffPlan = HandoffPlan(shard: ShardId, from: RegionId, participants: set<RegionId>)

  datatype SkipReason =
    | PreparingForShutdown
    | RegionsUnavailable(regions: set<RegionId>)
    | NoRegions
    | StrategySelectedNoShards
    | SelectedShardsMissingHomes

  datatype RebalancePlan = Started(plans: seq<HandoffPlan>) | Skipped(reason: SkipReason)

  datatype ShutdownPlan =
    | Draining(region: RegionId, plans: seq<HandoffPlan>)
    | AlreadyInProgress(region: RegionId)
    | NotRegistered(region: RegionId)
    | NoShards(region: RegionId)

  /** Outcome of one handoff attempt, with the requesters to serve again. */
  datatype Completion =
    | HomeReleased(shard: ShardId, event: Event, requesters: seq<RegionId>, retry: ShardId)
    | Cleared(shard: ShardId, requesters: seq<RegionId>)
    | TimedOut(shard: ShardId, requesters: seq<RegionId>)

  type HomeResult = Result<HomePlan, ShardingError>

  // ----- What each decision means -----

  /** The table without regions that are draining or terminating. */
  function Active(rt: Runtime): Allocations {
    WithoutRegions(rt.state.alloc, rt.draining + rt.terminating)
  }

  function Participants(rt: Runtime): set<RegionId> {
    rt.state.alloc.regions.Keys + rt.state.proxies
  }

  function HomeRequested(rt: Runtime, st: Strategy, requester: RegionId, shard: ShardId): (Runtime, HomeResult) {
    if shard in rt.rebalancing then
      (rt.(rebalancing := rt.rebalancing[shard := rt.rebalancing[shard] + {requester}]), Ok(Deferred(shard, requester)))
    else if !rt.gateOpen then (rt, Ok(Ignored(shard, NotAllRegionsRegistered)))
    else
      match Home(rt.state.alloc, shard)
      case Some(region) =>
        (rt, Ok(if region in rt.terminating then Ignored(shard, HomeRegionTerminating(region)) else Reply(shard, region)))
      case None =>
        if Active(rt).regions == map[] then (rt, Ok(Ignored(shard, NoActiveRegions)))
        else
          match st.allocate(requester, shard, Active(rt))
          case Err(error) => (rt, Err(error))
          case Ok(region) => Place(rt, shard, region)
  }

  function Place(rt: Runtime, shard: ShardId, region: RegionId): (Runtime, HomeResult) {
    if region !in Active(rt).regions then (rt, Ok(Ignored(shard, AllocatedRegionNoLongerActive(region))))
    else
      var event := HomeAllocated(shard, region);
      (rt.(state := Next(rt.state, event)), Ok(Allocated(event, region, shard)))
  }

  /** Shards of `order` that have a home and are not being handed off yet. */
  function Startable(rt: Runtime, order: seq<ShardId>): (shards: seq<ShardId>)
    ensures forall s :: s in shards <==> s in order && s !in rt.rebalancing && s in rt.state.alloc.homes
  {
    if order == [] then []
    else
      var last := order[|order| - 1];
      var rest := Startable(rt, order[..|order| - 1]);
      if last !in rt.rebalancing && last in rt.state.alloc.homes then rest + [last] else rest
  }

  /** Marks shards as rebalancing with no requester deferred yet. */
  function Marked(rt: Runtime, shards: set<ShardId>): Runtime {
    rt.(rebalancing := rt.rebalancing + map s | s in shards :: {})
  }

  function Handoffs(rt: Runtime, shards: seq<ShardId>): (plans: seq<HandoffPlan>)
    requires forall s :: s in shards ==> s in rt.state.alloc.homes
    ensures |plans| == |shards|
    ensures forall i :: 0 <= i < |plans| ==>
      plans[i] == HandoffPlan(shards[i], rt.state.alloc.homes[shards[i]], Participants(rt))
  {
    seq(|shards|, i requires 0 <= i < |shards| =>
      HandoffPlan(shards[i], rt.state.alloc.homes[shards[i]], Participants(rt)))
  }

  function RebalancePlanned(rt: Runtime, st: Strategy): (Runtime, Result<RebalancePlan, ShardingError>) {
    if rt.preparing then (rt, Ok(Skipped(PreparingForShutdown)))
    else if rt.unavailable != {} then (rt, Ok(Skipped(RegionsUnavailable(rt.unavailable))))
    else if Active(rt).regions == map[] then (rt, Ok(Skipped(NoRegions)))
    else
      match st.rebalance(Active(rt), rt.rebalancing.Keys)
      case Err(error) => (rt, Err(error))
      case Ok(selected) =>
        if selected == {} then (rt, Ok(Skipped(StrategySelectedNoShards)))
        else
          var shards := Startable(rt, Sorted(selected));
          if shards == [] then (rt, Ok(Skipped(SelectedShardsMissingHomes)))
          else (Marked(rt, Elements(shards)), Ok(Started(Handoffs(rt, shards))))
  }

  function ShutdownPlanned(rt: Runtime, region: RegionId): (Runtime, ShutdownPlan) {
    if region in rt.draining then (rt, AlreadyInProgress(region))
    else if region !in rt.state.alloc.regions then (rt, NotRegistered(region))
    else
      var shards := Startable(rt, rt.state.alloc.regions[region]);
      var drained := rt.(draining := rt.draining + {region});
      if shards == [] then (drained, NoShards(region))
      else (Marked(drained, Elements(shards)), Draining(region, Handoffs(rt, shards)))
  }

  /** The requesters deferred behind a shard's handoff, in order. */
  function Pending(rt: Runtime, shard: ShardId): seq<RegionId> {
    if shard in rt.rebalancing then Sorted(rt.rebalancing[shard]) else []
  }

  function RebalanceCompleted(rt: Runtime, shard: ShardId, ok: bool): (Runtime, Completion) {
    var done := rt.(rebalancing := rt.rebalancing - {shard});
    if shard !in rt.rebalancing then (rt, Cleared(shard, []))
    else
      match Home(rt.state.alloc, shard)
      case Some(region) =>
        if ok then
          var event := HomeDeallocated(shard);
          (done.(state := Next(rt.state, event)), HomeReleased(shard, event, Pending(rt, shard), shard))
        else
          (done.(draining := rt.draining - {region}), TimedOut(shard, Pending(rt, shard)))
      case None =>
        (done, if ok then Cleared(shard, Pending(rt, shard)) else TimedOut(shard, Pending(rt, shard)))
  }

  /** Serves home requests for `shards` one after another and stops at the first error. */
  function HomesRequested(rt: Runtime, st: Strategy, requester: RegionId, shards: seq<ShardId>)
    : (Runtime, Result<seq<HomePlan>, ShardingError>)
    decreases |shards|
  {
    if shards == [] then (rt, Ok([]))
    else
      var (mid, first) := HomeRequested(rt, st, requester, shards[0]);
      match first
      case Err(error) => (mid, Err(error))
      case Ok(plan) =>
        var (end, rest) := HomesRequested(mid, st, requester, shards[1..]);
        (end, if rest.Ok? then Ok([plan] + rest.value) else rest)
  }

  function RememberedAllocated(rt: Runtime, st: Strategy, requester: RegionId)
    : (Runtime, Result<seq<HomePlan>, ShardingError>)
  {
    if rt.state.remember then HomesRequested(rt, st, requester, Sorted(rt.state.unallocated)) else (rt, Ok([]))
  }

  // ----- The mutable runtime -----

  class CoordinatorRuntime {
    const state: CoordinatorState
    var allRegionsRegistered: bool
    var gracefulShutdownRegions: set<RegionId>
    var terminatingRegions: set<RegionId>
    var unavailableRegions: set<RegionId>
    var rebalanceInProgress: map<ShardId, set<RegionId>>
    var preparingForShutdown: bool

    function View(): Runtime
      reads this, state, state.allocations
    {
      Runtime(state.View(), allRegionsRegistered, gracefulShutdownRegions, terminatingRegions, unavailableRegions,
              rebalanceInProgress, preparingForShutdown)
    }

    ghost predicate Valid()
      reads this, state, state.allocations
    {
      WellFormed(state.View())
    }

    constructor (state: CoordinatorState)
      requires state.Valid()
      ensures Valid() && this.state == state
      ensures View() == Runtime(state.View(), true, {}, {}, {}, map[], false)
    {
      this.state := state;
      allRegionsRegistered, preparingForShutdown := true, false;
      gracefulShutdownRegions, terminatingRegions, unavailableRegions := {}, {}, {};
      rebalanceInProgress := map[];
    }

    method ActiveAllocations() returns (active: ShardAllocations)
      requires Valid()
      ensures active.Valid() && active.View() == Active(View())
      ensures active == state.allocations || fresh(active)
    {
      hide Consistent, WithoutRegions, Elements;
      if gracefulShutdownRegions == {} && terminatingRegions == {} {
        WithoutNone(state.allocations.View());
        return state.allocations;
      }
      active := new ShardAllocations.Clone(state.allocations);
      var excluded := Sorted(gracefulShutdownRegions) + Sorted(terminatingRegions);
      ExcludedNone(state.allocations.View(), excluded);
      for i := 0 to |excluded|
        invariant fresh(active) && active.Valid()
        invariant active.View() == WithoutRegions(state.allocations.View(), Elements(excluded[..i]))
      {
        Extend(excluded, i);
        WithoutMore(state.allocations.View(), Elements(excluded[..i]), excluded[i]);
        var _ := active.RemoveRegion(excluded[i]);
      }
      assert excluded[..|excluded|] == excluded;
      ExcludedAll(gracefulShutdownRegions, terminatingRegions);
    }

    method BeginRebalance(shard: ShardId) returns (begun: bool)
      requires Valid()
      modifies this
      ensures begun <==> shard !in old(rebalanceInProgress)
      ensures View() == if begun then Marked(old(View()), {shard}) else old(View())
    {
      begun := shard !in rebalanceInProgress;
      if begun {
        rebalanceInProgress := rebalanceInProgress[shard := {}];
      }
    }

    method ClearRebalance(shard: ShardId) returns (requesters: seq<RegionId>)
      requires Valid()
      modifies this
      ensures View() == old(View()).(rebalancing := old(rebalanceInProgress) - {shard})
      ensures requesters == Pending(old(View()), shard)
    {
      requesters := if shard in rebalanceInProgress then Sorted(rebalanceInProgress[shard]) else [];
      rebalanceInProgress := rebalanceInProgress - {shard};
    }

    method RequestShardHome(requester: RegionId, shard: ShardId, strategy: Strategy) returns (plan: HomeResult)
      requires Valid()
      modifies this, state, state.allocations
      ensures Valid()
      ensures (View(), plan) == HomeRequested(old(View()), strategy, requester, shard)
    {
      hide WellFormed, Next, Active;
      if shard in rebalanceInProgress {
        rebalanceInProgress := rebalanceInProgress[shard := rebalanceInProgress[shard] + {requester}];
        return Ok(Deferred(shard, requester));
      }
      if !allRegionsRegistered {
        return Ok(Ignored(shard, NotAllRegionsRegistered));
      }
      if shard in state.allocations.shardHomes {
        var region := state.allocations.shardHomes[shard];
        if region in terminatingRegions {
          return Ok(Ignored(shard, HomeRegionTerminating(region)));
        }
        return Ok(Reply(shard, region));
      }
      var active := ActiveAllocations();
      if |active.regions| == 0 {
        return Ok(Ignored(shard, NoActiveRegions));
      }
      var chosen := strategy.allocate(requester, shard, active.View());
      if chosen.Err? {
        return Err(chosen.error);
      }
      if chosen.value !in active.regions {
        return Ok(Ignored(shard, AllocatedRegionNoLongerActive(chosen.value)));
      }
      var event := HomeAllocated(shard, chosen.value);
      ActiveRegistered(View(), chosen.value);
      var applied := state.Apply(event);
      assert applied.Ok?;
      return Ok(Allocated(event, chosen.value, shard));
    }

    method StartHandoffs(order: seq<ShardId>) returns (plans: seq<HandoffPlan>)
      requires Valid() && Distinct(order)
      modifies this
      ensures View() == Marked(old(View()), Elements(Startable(old(View()), order)))
      ensures plans == Handoffs(old(View()), Startable(old(View()), order))
    {
      hide WellFormed, Marked, Startable, Handoffs, Elements;
      plans := [];
      ghost var before := View();
      StartNone(before, order);
      for i := 0 to |order|
        invariant View() == Marked(before, Elements(Startable(before, order[..i])))
        invariant plans == Handoffs(before, Startable(before, order[..i]))
      {
        var shard := order[i];
        StartNext(before, order, i);
        if shard in rebalanceInProgress {
          continue;
        }
        if shard in state.allocations.shardHomes {
          var _ := BeginRebalance(shard);
          var participants := state.allocations.regions.Keys + state.proxies;
          plans := plans + [HandoffPlan(shard, state.allocations.shardHomes[shard], participants)];
        }
      }
      assert order[..|order|] == order;
    }

    method PlanRebalance(strategy: Strategy) returns (plan: Result<RebalancePlan, ShardingError>)
      requires Valid()
      modifies this
      ensures Valid()
      ensures (View(), plan) == RebalancePlanned(old(View()), strategy)
    {
      hide WellFormed, Active, Startable, Handoffs, Elements;
      if preparingForShutdown {
        return Ok(Skipped(PreparingForShutdown));
      }
      if unavailableRegions != {} {
        return Ok(Skipped(RegionsUnavailable(unavailableRegions)));
      }
      var active := ActiveAllocations();
      if |active.regions| == 0 {
        return Ok(Skipped(NoRegions));
      }
      var selected := strategy.rebalance(active.View(), rebalanceInProgress.Keys);
      if selected.Err? {
        return Err(selected.error);
      }
      if selected.value == {} {
        return Ok(Skipped(StrategySelectedNoShards));
      }
      var order := Sorted(selected.value);
      IncreasingDistinct(order);
      var plans := StartHandoffs(order);
      if plans == [] {
        NothingMarked(old(View()));
        return Ok(Skipped(SelectedShardsMissingHomes));
      }
      return Ok(Started(plans));
    }

    method PlanRegionShutdown(region: RegionId) returns (plan: ShutdownPlan)
      requires Valid()
      modifies this
      ensures Valid()
      ensures (View(), plan) == ShutdownPlanned(old(View()), region)
    {
      if region in gracefulShutdownRegions {
        return AlreadyInProgress(region);
      }
      if region !in state.allocations.regions {
        return NotRegistered(region);
      }
      var shards := state.allocations.regions[region];
      gracefulShutdownRegions := gracefulShutdownRegions + {region};
      StartableFrame(old(View()), View(), shards);
      var plans := StartHandoffs(shards);
      if plans == [] {
        assert Elements<ShardId>([]) == {};
        assert Marked(old(View()).(draining := gracefulShutdownRegions), {}) == old(View()).(draining := gracefulShutdownRegions);
        return NoShards(region);
      }
      return Draining(region, plans);
    }

    method CompleteRebalance(shard: ShardId, ok: bool) returns (completion: Result<Completion, ShardingError>)
      requires Valid()
      modifies this, state, state.allocations
      ensures Valid()
      ensures completion.Ok? && (View(), completion.value) == RebalanceCompleted(old(View()), shard, ok)
    {
      hide Consistent;
      if shard !in rebalanceInProgress {
        return Ok(Cleared(shard, []));
      }
      if !ok {
        if shard in state.allocations.shardHomes {
          gracefulShutdownRegions := gracefulShutdownRegions - {state.allocations.shardHomes[shard]};
        }
        var requesters := ClearRebalance(shard);
        return Ok(TimedOut(shard, requesters));
      }
      if shard in state.allocations.shardHomes {
        var event := HomeDeallocated(shard);
        var applied := state.Apply(event);
        assert applied.Ok?;
        var requesters := ClearRebalance(shard);
        return Ok(HomeReleased(shard, event, requesters, shard));
      }
      var requesters := ClearRebalance(shard);
      return Ok(Cleared(shard, requesters));
    }

    method AllocateRememberedShardHomes(requester: RegionId, strategy: Strategy)
      returns (plans: Result<seq<HomePlan>, ShardingError>)
      requires Valid()
      modifies this, state, state.allocations
      ensures Valid()
      ensures (View(), plans) == RememberedAllocated(old(View()), strategy, requester)
    {
      hide WellFormed, HomeRequested, HomesRequested, Continues;
      if !state.rememberEntities {
        return Ok([]);
      }
      var requests := Sorted(state.unallocatedShards);
      var done: seq<HomePlan> := [];
      assert requests[0..] == requests;
      ContinuesFromStart(HomesRequested(View(), strategy, requester, requests));
      for i := 0 to |requests|
        invariant Valid()
        invariant Continues(HomesRequested(old(View()), strategy, requester, requests), done,
                            HomesRequested(View(), strategy, requester, requests[i..]))
      {
        ServeNext(HomesRequested(old(View()), strategy, requester, requests), done, View(), strategy, requester, requests, i);
        var plan := RequestShardHome(requester, requests[i], strategy);
        if plan.Err? {
          return Err(plan.error);
        }
        done := done + [plan.value];
      }
      ServedAll(HomesRequested(old(View()), strategy, requester, requests), done, View(), strategy, requester, requests);
      return Ok(done);
    }
  }

  // ----- What the decisions promise -----

  /** The table the policy sees: registered regions that neither drain nor terminate, with their lists,
      and the homes in them. */
  lemma ActiveMeaning(rt: Runtime)
    ensures var active, whole := Active(rt), rt.state.alloc;
      && (forall r :: r in active.regions <==> r in whole.regions && r !in rt.draining && r !in rt.terminating)
      && (forall r :: r in active.regions ==> active.regions[r] == whole.regions[r])
      && (forall s :: s in active.homes <==>
            s in whole.homes && whole.homes[s] !in rt.draining && whole.homes[s] !in rt.terminating)
      && (forall s :: s in active.homes ==> active.homes[s] == whole.homes[s])
  {
  }

  /** The shard needs a home and may be given one now. */
  predicate Undecided(rt: Runtime, shard: ShardId) {
    shard !in rt.rebalancing && rt.gateOpen && shard !in rt.state.alloc.homes
  }

  /** The policy is asked: the shard may be given a home and some region accepts shards. */
  predicate Consulted(rt: Runtime, shard: ShardId) {
    Undecided(rt, shard) && Active(rt).regions != map[]
  }

  /** A request waits exactly while its shard is handed off; it is answered with the current home
      exactly when there is one in a region that is not terminating; and it gives a home exactly when
      the policy is asked and answers with a region that accepts shards. Only that changes the durable
      state, by that one home, and a registered region that neither drains nor terminates gets it. */
  lemma HomeRequestMeaning(rt: Runtime, st: Strategy, requester: RegionId, shard: ShardId)
    requires WellFormed(rt.state)
    ensures var (after, plan) := HomeRequested(rt, st, requester, shard);
      var homes := rt.state.alloc.homes;
      var answer := st.allocate(requester, shard, Active(rt));
      && (plan == Ok(Deferred(shard, requester)) <==> shard in rt.rebalancing)
      && (plan.Ok? && plan.value.Deferred? ==> shard in rt.rebalancing)
      && (plan.Ok? && plan.value.Reply? ==> plan.value.shard == shard)
      && (shard in rt.rebalancing ==>
            after == rt.(rebalancing := rt.rebalancing[shard := rt.rebalancing[shard] + {requester}]))
      && (forall r :: plan == Ok(Reply(shard, r)) <==>
            shard !in rt.rebalancing && rt.gateOpen && shard in homes && homes[shard] == r && r !in rt.terminating)
      && (forall r :: plan == Ok(Allocated(HomeAllocated(shard, r), r, shard)) <==>
            Consulted(rt, shard) && answer == Ok(r) && r in Active(rt).regions)
      && (plan.Ok? && plan.value.Allocated? ==>
            var r := plan.value.hostRegion;
            && plan.value == Allocated(HomeAllocated(shard, r), r, shard)
            && r in rt.state.alloc.regions && r !in rt.draining && r !in rt.terminating
            && after == rt.(state := after.state)
            && after.state.alloc.homes == homes[shard := r] && shard !in after.state.unallocated)
      && (!(plan.Ok? && (plan.value.Allocated? || plan.value.Deferred?)) ==> after == rt)
  {
    hide WellFormed;
    var (after, plan) := HomeRequested(rt, st, requester, shard);
    if plan.Ok? && plan.value.Allocated? {
      NextHomes(rt.state, HomeAllocated(shard, plan.value.hostRegion));
    }
  }

  /** A request fails exactly with the policy's own error, and is left unanswered exactly while the gate
      is closed, while the home terminates, when no region accepts shards, or when the policy names a
      region that does not. */
  lemma HomeRequestRefused(rt: Runtime, st: Strategy, requester: RegionId, shard: ShardId)
    ensures var plan := HomeRequested(rt, st, requester, shard).1;
      var homes := rt.state.alloc.homes;
      var answer := st.allocate(requester, shard, Active(rt));
      && (forall e :: plan == Err(e) <==> Consulted(rt, shard) && answer == Err(e))
      && (plan == Ok(Ignored(shard, NotAllRegionsRegistered)) <==> shard !in rt.rebalancing && !rt.gateOpen)
      && (forall r :: plan == Ok(Ignored(shard, HomeRegionTerminating(r))) <==>
            shard !in rt.rebalancing && rt.gateOpen && shard in homes && homes[shard] == r && r in rt.terminating)
      && (plan == Ok(Ignored(shard, NoActiveRegions)) <==> Undecided(rt, shard) && !Consulted(rt, shard))
      && (forall r :: plan == Ok(Ignored(shard, AllocatedRegionNoLongerActive(r))) <==>
            Consulted(rt, shard) && answer == Ok(r) && r !in Active(rt).regions)
      && (plan.Ok? && plan.value.Ignored? ==> plan.value.shard == shard)
  {
    hide Active, Next;
  }

  /** Nothing stands in the way of a rebalance. */
  predicate Balanceable(rt: Runtime) {
    !rt.preparing && rt.unavailable == {} && Active(rt).regions != map[]
  }

  /** The shards of a selection that can be handed off: placed and not under way. */
  function HandedOver(rt: Runtime, selected: set<ShardId>): set<ShardId> {
    set s | s in selected && s in rt.state.alloc.homes && s !in rt.rebalancing
  }

  /** A rebalance is started exactly when nothing stands in its way and the policy selects some placed
      shard that is not under way. Then exactly those selected shards are handed off, one plan for each in
      identifier order, from its home, with every registered region and proxy taking part; nothing else
      changes. */
  lemma RebalancePlanMeaning(rt: Runtime, st: Strategy)
    ensures var (after, plan) := RebalancePlanned(rt, st);
      var answer := st.rebalance(Active(rt), rt.rebalancing.Keys);
      && (plan.Ok? && plan.value.Started? <==>
            Balanceable(rt) && answer.Ok? && HandedOver(rt, answer.value) != {})
      && (plan.Ok? && plan.value.Started? ==>
            var moved := HandedOver(rt, answer.value);
            && after == rt.(rebalancing := after.rebalancing)
            && after.rebalancing.Keys == rt.rebalancing.Keys + moved
            && (forall s :: s in rt.rebalancing ==> after.rebalancing[s] == rt.rebalancing[s])
            && (forall s :: s in moved ==> after.rebalancing[s] == {})
            && |plan.value.plans| == |moved|
            && forall i :: 0 <= i < |plan.value.plans| ==>
                 plan.value.plans[i].shard == Sorted(moved)[i] && Moves(rt, plan.value.plans[i]))
      && (!(plan.Ok? && plan.value.Started?) ==> after == rt)
  {
    hide Active, Startable, Handoffs, Participants, Marked, Sorted, HandedOver, Elements, Moves;
    var answer := st.rebalance(Active(rt), rt.rebalancing.Keys);
    if answer.Ok? {
      var shards := Startable(rt, Sorted(answer.value));
      StartableSorted(rt, answer.value);
      MarkedMeaning(rt, answer.value);
      PlansMove(rt, shards);
      NoneStartable(rt, answer.value);
    }
  }

  /** When a rebalance is not started, and what is answered then. */
  lemma RebalanceSkipped(rt: Runtime, st: Strategy)
    ensures var plan := RebalancePlanned(rt, st).1;
      var answer := st.rebalance(Active(rt), rt.rebalancing.Keys);
      && (plan == Ok(Skipped(PreparingForShutdown)) <==> rt.preparing)
      && (forall u :: plan == Ok(Skipped(RegionsUnavailable(u))) <==> !rt.preparing && u != {} && u == rt.unavailable)
      && (plan == Ok(Skipped(NoRegions)) <==> !rt.preparing && rt.unavailable == {} && Active(rt).regions == map[])
      && (forall e :: plan == Err(e) <==> Balanceable(rt) && answer == Err(e))
      && (plan == Ok(Skipped(StrategySelectedNoShards)) <==> Balanceable(rt) && answer == Ok({}))
      && (plan == Ok(Skipped(SelectedShardsMissingHomes)) <==>
            Balanceable(rt) && answer.Ok? && answer.value != {} && HandedOver(rt, answer.value) == {})
  {
    hide Active, Startable, Handoffs;
    var answer := st.rebalance(Active(rt), rt.rebalancing.Keys);
    if answer.Ok? {
      NoneStartable(rt, answer.value);
    }
  }

  lemma StartableSorted(rt: Runtime, selected: set<ShardId>)
    ensures Startable(rt, Sorted(selected)) == Sorted(HandedOver(rt, selected))
    ensures Elements(Startable(rt, Sorted(selected))) == HandedOver(rt, selected)
  {
    hide Startable, Sorted;
    StartableIncreasing(rt, Sorted(selected));
    SortedUnique(Startable(rt, Sorted(selected)), Sorted(HandedOver(rt, selected)));
  }

  /** Marking what can be handed off of a selection adds it, without requesters, to what is under way. */
  lemma MarkedMeaning(rt: Runtime, selected: set<ShardId>)
    ensures var moved := HandedOver(rt, selected);
      var after := Marked(rt, moved);
      && after == rt.(rebalancing := after.rebalancing)
      && after.rebalancing.Keys == rt.rebalancing.Keys + moved
      && (forall s :: s in rt.rebalancing ==> after.rebalancing[s] == rt.rebalancing[s])
      && (forall s :: s in moved ==> after.rebalancing[s] == {})
  {
  }

  lemma NoneStartable(rt: Runtime, selected: set<ShardId>)
    ensures Startable(rt, Sorted(selected)) == [] <==> HandedOver(rt, selected) == {}
  {
    hide Startable, Sorted;
    StartableSorted(rt, selected);
    var shards := Startable(rt, Sorted(selected));
    if shards != [] {
      assert shards[0] in HandedOver(rt, selected);
    }
  }

  lemma {:induction false} StartableIncreasing(rt: Runtime, order: seq<ShardId>)
    requires Increasing(order)
    ensures Increasing(Startable(rt, order))
  {
    if order != [] {
      var rest, last := order[..|order| - 1], order[|order| - 1];
      StartableIncreasing(rt, rest);
      forall s | s in Startable(rt, rest) ensures Before(s, last) {
        var i :| 0 <= i < |rest| && rest[i] == s;
        assert order[i] == s;
      }
    }
  }

  ghost predicate Moves(rt: Runtime, plan: HandoffPlan) {
    && plan.shard !in rt.rebalancing && plan.shard in rt.state.alloc.homes && rt.state.alloc.homes[plan.shard] == plan.from
    && plan.participants == Participants(rt)
  }

  lemma PlansMove(rt: Runtime, shards: seq<ShardId>)
    requires forall s :: s in shards ==> s in rt.state.alloc.homes && s !in rt.rebalancing
    ensures var plans := Handoffs(rt, shards);
      |plans| == |shards| && forall i :: 0 <= i < |plans| ==> plans[i].shard == shards[i] && Moves(rt, plans[i])
  {
    hide Participants;
    var plans := Handoffs(rt, shards);
    forall i | 0 <= i < |plans| ensures plans[i].shard == shards[i] && Moves(rt, plans[i]) {
      assert shards[i] in shards;
    }
  }

  /** What a graceful shutdown request is answered, and that a registered region starts to drain with
      exactly its shards that were not under way newly handed off, in allocation order: afterwards every
      shard of the region is being handed off. */
  lemma ShutdownPlanMeaning(rt: Runtime, region: RegionId)
    requires WellFormed(rt.state)
    ensures var (after, plan) := ShutdownPlanned(rt, region);
      var homes := rt.state.alloc.homes;
      var moved := HandedOver(rt, HomedAt(rt.state.alloc, region));
      && (plan == AlreadyInProgress(region) <==> region in rt.draining)
      && (plan == NotRegistered(region) <==> region !in rt.draining && region !in rt.state.alloc.regions)
      && (region in rt.draining || region !in rt.state.alloc.regions ==> after == rt)
      && (region in rt.state.alloc.regions && region !in rt.draining ==>
            && (plan == NoShards(region) <==> moved == {})
            && (plan.Draining? <==> moved != {})
            && after == rt.(draining := rt.draining + {region}, rebalancing := after.rebalancing)
            && after.rebalancing.Keys == rt.rebalancing.Keys + moved
            && (forall s :: s in rt.rebalancing ==> after.rebalancing[s] == rt.rebalancing[s])
            && (forall s :: s in homes && homes[s] == region ==> s in after.rebalancing)
            && (plan.Draining? ==>
                  && plan.region == region && |plan.plans| == |moved|
                  && (forall i :: 0 <= i < |plan.plans| ==> Moves(rt, plan.plans[i]) && plan.plans[i].from == region)
                  && forall i, j :: 0 <= i < j < |plan.plans| ==>
                       ListedBefore(rt.state.alloc.regions[region], plan.plans[i].shard, plan.plans[j].shard)))
  {
    hide WellFormed, Participants, Handoffs, Startable, Marked, HandedOver, Elements, HomedAt, ListedBefore;
    if region in rt.state.alloc.regions {
      var shards := Startable(rt, rt.state.alloc.regions[region]);
      PlansMove(rt, shards);
      RegionStartable(rt, region);
      var drained := rt.(draining := rt.draining + {region});
      SameHandedOver(rt, drained, HomedAt(rt.state.alloc, region));
      MarkedMeaning(drained, HomedAt(rt.state.alloc, region));
    }
  }

  ghost predicate ListedBefore(list: seq<ShardId>, s: ShardId, t: ShardId) {
    exists i, j :: 0 <= i < j < |list| && list[i] == s && list[j] == t
  }

  lemma {:induction false} StartableFollows(rt: Runtime, order: seq<ShardId>)
    requires Distinct(order)
    ensures var shards := Startable(rt, order);
      Distinct(shards) && forall i, j :: 0 <= i < j < |shards| ==> ListedBefore(order, shards[i], shards[j])
  {
    if order != [] {
      var rest, last := order[..|order| - 1], order[|order| - 1];
      StartableFollows(rt, rest);
      var before, shards := Startable(rt, rest), Startable(rt, order);
      forall i, j | 0 <= i < j < |shards| ensures ListedBefore(order, shards[i], shards[j]) {
        if j < |before| {
          var a, b :| 0 <= a < b < |rest| && rest[a] == before[i] && rest[b] == before[j];
          assert order[a] == shards[i] && order[b] == shards[j];
        } else {
          assert before[i] in rest;
          var a :| 0 <= a < |rest| && rest[a] == before[i];
          assert order[a] == shards[i] && order[|order| - 1] == shards[j];
        }
      }
    }
  }

  lemma SameHandedOver(a: Runtime, b: Runtime, shards: set<ShardId>)
    requires a.state == b.state && a.rebalancing == b.rebalancing
    ensures HandedOver(a, shards) == HandedOver(b, shards)
  {
  }

  /** What can be handed off of a region is what it owns and is not under way. */
  lemma RegionStartable(rt: Runtime, region: RegionId)
    requires WellFormed(rt.state) && region in rt.state.alloc.regions
    ensures var shards := Startable(rt, rt.state.alloc.regions[region]);
      var moved := HandedOver(rt, HomedAt(rt.state.alloc, region));
      && Elements(shards) == moved && |shards| == |moved| && (shards == [] <==> moved == {})
      && (forall i, j :: 0 <= i < j < |shards| ==> ListedBefore(rt.state.alloc.regions[region], shards[i], shards[j]))
      && (forall s :: s in shards ==> rt.state.alloc.homes[s] == region)
      && (forall i :: 0 <= i < |shards| ==> rt.state.alloc.homes[shards[i]] == region)
      && (forall s :: s in rt.state.alloc.homes && rt.state.alloc.homes[s] == region ==> s in moved || s in rt.rebalancing)
  {
    hide Startable, ListedBefore;
    var shards := Startable(rt, rt.state.alloc.regions[region]);
    var moved := HandedOver(rt, HomedAt(rt.state.alloc, region));
    StartableFollows(rt, rt.state.alloc.regions[region]);
    assert Elements(shards) == moved;
    DistinctCardinality(shards);
    if shards != [] {
      assert shards[0] in moved;
    }
  }

  /** A finished handoff frees its shard either way. Success takes the home away and leaves every marker
      alone; failure keeps the home and only ends the draining of the region it is in. */
  lemma CompletionMeaning(rt: Runtime, shard: ShardId, ok: bool)
    requires WellFormed(rt.state) && shard in rt.rebalancing
    ensures var (after, completion) := RebalanceCompleted(rt, shard, ok);
      var homes := rt.state.alloc.homes;
      && after.rebalancing == rt.rebalancing - {shard} && completion.requesters == Sorted(rt.rebalancing[shard])
      && completion.shard == shard
      && after.state.alloc.homes == (if ok then homes - {shard} else homes)
      && after.draining == (if !ok && shard in homes then rt.draining - {homes[shard]} else rt.draining)
      && after.gateOpen == rt.gateOpen && after.terminating == rt.terminating
      && after.unavailable == rt.unavailable && after.preparing == rt.preparing
      && (!(ok && shard in homes) ==> after.state == rt.state)
      && (ok && shard in homes && rt.state.remember ==> after.state.unallocated == rt.state.unallocated + {shard})
      && (completion.HomeReleased? <==> ok && shard in homes) && (completion.TimedOut? <==> !ok)
      && (completion.HomeReleased? ==> completion.retry == shard && completion.event == HomeDeallocated(shard))
  {
    hide WellFormed, Sorted;
    if shard in rt.state.alloc.homes {
      NextHomes(rt.state, HomeDeallocated(shard));
    } else {
      assert rt.state.alloc.homes - {shard} == rt.state.alloc.homes;
    }
  }

  /** A result for a shard that is not under way changes nothing. */
  lemma StrayCompletion(rt: Runtime, shard: ShardId, ok: bool)
    requires shard !in rt.rebalancing
    ensures RebalanceCompleted(rt, shard, ok) == (rt, Cleared(shard, []))
  {
  }

  /** A whole series of requests equals what was served so far followed by the rest. */
  ghost predicate Continues(whole: (Runtime, Result<seq<HomePlan>, ShardingError>), done: seq<HomePlan>,
                            rest: (Runtime, Result<seq<HomePlan>, ShardingError>)) {
    && whole.0 == rest.0
    && whole.1 == if rest.1.Ok? then Ok(done + rest.1.value) else rest.1
  }

  lemma ContinuesFromStart(whole: (Runtime, Result<seq<HomePlan>, ShardingError>))
    ensures Continues(whole, [], whole)
  {
    if whole.1.Ok? {
      assert [] + whole.1.value == whole.1.value;
    }
  }

  lemma ServeNext(whole: (Runtime, Result<seq<HomePlan>, ShardingError>), done: seq<HomePlan>,
                  rt: Runtime, st: Strategy, requester: RegionId, shards: seq<ShardId>, i: nat)
    requires i < |shards| && Continues(whole, done, HomesRequested(rt, st, requester, shards[i..]))
    ensures var (mid, first) := HomeRequested(rt, st, requester, shards[i]);
      if first.Err? then whole == (mid, Err(first.error))
      else Continues(whole, done + [first.value], HomesRequested(mid, st, requester, shards[i + 1..]))
  {
    hide HomeRequested;
    var (mid, first) := HomeRequested(rt, st, requester, shards[i]);
    assert shards[i..][1..] == shards[i + 1..];
    if first.Ok? {
      var (end, rest) := HomesRequested(mid, st, requester, shards[i + 1..]);
      if rest.Ok? {
        assert done + ([first.value] + rest.value) == done + [first.value] + rest.value;
      }
    }
  }

  lemma ServedAll(whole: (Runtime, Result<seq<HomePlan>, ShardingError>), done: seq<HomePlan>,
                  rt: Runtime, st: Strategy, requester: RegionId, shards: seq<ShardId>)
    requires Continues(whole, done, HomesRequested(rt, st, requester, shards[|shards|..]))
    ensures whole == (rt, Ok(done))
  {
    assert done + [] == done;
  }

  lemma StartNone(rt: Runtime, order: seq<ShardId>)
    ensures Marked(rt, Elements(Startable(rt, order[..0]))) == rt
    ensures Handoffs(rt, Startable(rt, order[..0])) == []
  {
  }

  /** One more shard of the order: skipped when it is already being handed off or has no home. */
  lemma StartNext(rt: Runtime, order: seq<ShardId>, i: nat)
    requires Distinct(order) && i < |order|
    ensures var s := order[i];
      var shards := Startable(rt, order[..i]);
      var next := Startable(rt, order[..i + 1]);
      && (s in Marked(rt, Elements(shards)).rebalancing <==> s in rt.rebalancing)
      && (if s !in rt.rebalancing && s in rt.state.alloc.homes then
            && Marked(rt, Elements(next)) == Marked(Marked(rt, Elements(shards)), {s})
            && Handoffs(rt, next) == Handoffs(rt, shards) + [HandoffPlan(s, rt.state.alloc.homes[s], Participants(rt))]
          else next == shards)
  {
    hide Marked, Handoffs, Participants, Elements;
    var s := order[i];
    assert order[..i + 1][..i] == order[..i];
    var shards := Startable(rt, order[..i]);
    assert s !in shards;
    MarkedHas(rt, shards, s);
    if s !in rt.rebalancing && s in rt.state.alloc.homes {
      MarkedOne(rt, shards, s);
      HandoffsOne(rt, shards, s);
    }
  }

  lemma MarkedHas(rt: Runtime, shards: seq<ShardId>, s: ShardId)
    requires s !in shards
    ensures s in Marked(rt, Elements(shards)).rebalancing <==> s in rt.rebalancing
  {
  }

  lemma MarkedOne(rt: Runtime, shards: seq<ShardId>, s: ShardId)
    ensures Marked(rt, Elements(shards + [s])) == Marked(Marked(rt, Elements(shards)), {s})
  {
    hide Marked;
    MarkedMore(rt, Elements(shards), s);
    assert Elements(shards + [s]) == Elements(shards) + {s};
  }

  lemma HandoffsOne(rt: Runtime, shards: seq<ShardId>, s: ShardId)
    requires forall x :: x in shards ==> x in rt.state.alloc.homes
    requires s in rt.state.alloc.homes
    ensures Handoffs(rt, shards + [s]) == Handoffs(rt, shards) + [HandoffPlan(s, rt.state.alloc.homes[s], Participants(rt))]
  {
  }

  lemma {:induction false} StartableFrame(a: Runtime, b: Runtime, order: seq<ShardId>)
    requires a.rebalancing == b.rebalancing && a.state == b.state
    ensures Startable(a, order) == Startable(b, order)
    ensures Handoffs(a, Startable(a, order)) == Handoffs(b, Startable(b, order))
  {
    if order != [] {
      StartableFrame(a, b, order[..|order| - 1]);
    }
  }

  lemma ActiveRegistered(rt: Runtime, r: RegionId)
    requires r in Active(rt).regions
    ensures r in rt.state.alloc.regions
  {
  }

  lemma WithoutNone(a: Allocations)
    ensures WithoutRegions(a, {} + {}) == a
  {
  }

  lemma ExcludedNone(a: Allocations, excluded: seq<RegionId>)
    ensures WithoutRegions(a, Elements(excluded[..0])) == a
  {
  }

  lemma ExcludedAll(xs: set<RegionId>, ys: set<RegionId>)
    ensures Elements(Sorted(xs) + Sorted(ys)) == xs + ys
  {
  }

  lemma WithoutMore(a: Allocations, rs: set<RegionId>, r: RegionId)
    ensures WithoutRegions(WithoutRegions(a, rs), {r}) == WithoutRegions(a, rs + {r})
  {
  }

  lemma NothingMarked(rt: Runtime)
    ensures Marked(rt, Elements([])) == rt
  {
  }

  lemma MarkedMore(rt: Runtime, shards: set<ShardId>, s: ShardId)
    ensures Marked(Marked(rt, shards), {s}) == Marked(rt, shards + {s})
  {
  }
}
