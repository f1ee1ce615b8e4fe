/** What executions of the coordinator with its workers do to draining regions, to new workers, to regions
    that come and go, and to shards that wait for a home. */
module CoordinatorRuns {
  import opened Ids
  import opened Allocation
  import opened LeastShards
  import opened Coordinator
  import opened CoordinatorDecisions
  import opened CoordinatorActor
  import opened Protocol
  import RememberedHomes

  // ----- Draining regions get no homes -----

  /** Between two coordinators no home is given in region `r`, and it drains at the end. */
  ghost predicate Spared(c: Coord, d: Coord, r: RegionId) {
    && r in d.rt.draining
    && |c.log| <= |d.log| && d.log[..|c.log|] == c.log
    && forall n :: |c.log| <= n < |d.log| && d.log[n].HomeGiven? ==> d.log[n].region != r
  }

  lemma SparedChain(a: Coord, b: Coord, c: Coord, r: RegionId)
    requires Spared(a, b, r) && Spared(b, c, r)
    ensures Spared(a, c, r)
  {
    assert c.log[..|a.log|] == c.log[..|b.log|][..|a.log|];
    forall n | |a.log| <= n < |c.log| && c.log[n].HomeGiven? ensures c.log[n].region != r {
      if n < |b.log| {
        assert c.log[..|b.log|][n] == b.log[n];
      }
    }
  }

  lemma AskedSpares(c: Coord, st: Strategy, q: RegionId, s: ShardId, r: RegionId)
    requires WellFormed(c.rt.state) && r in c.rt.draining
    ensures WellFormed(Asked(c, st, q, s).rt.state) && Spared(c, Asked(c, st, q, s), r)
  {
    hide WellFormed, HomeRequested, Active, Spared;
    AskedCases(c, st, q, s);
    HomeRequestMeaning(c.rt, st, q, s);
    var (rt, plan) := HomeRequested(c.rt, st, q, s);
    var notes := [HomeAsked(s, q)] + if plan.Ok? then PlanNotes(plan.value) else [];
    assert Asked(c, st, q, s).log == c.log + notes;
    QuietSpares(c, Asked(c, st, q, s), notes, r);
  }

  lemma {:induction false} AskedAllSpares(c: Coord, st: Strategy, q: RegionId, shards: seq<ShardId>, r: RegionId)
    requires WellFormed(c.rt.state) && r in c.rt.draining && AskedAll(c, st, q, shards).Some?
    ensures Spared(c, AskedAll(c, st, q, shards).value, r)
    decreases |shards|
  {
    hide WellFormed, Asked, Answered, Spared;
    if shards == [] {
      SparedSelf(c, r);
    } else {
      var d := Asked(c, st, q, shards[0]);
      AskedSpares(c, st, q, shards[0], r);
      SparedDrains(c, d, r);
      AskedAllSpares(d, st, q, shards[1..], r);
      SparedChain(c, d, AskedAll(c, st, q, shards).value, r);
    }
  }

  lemma {:induction false} AskedForSpares(c: Coord, st: Strategy, s: ShardId, requesters: seq<RegionId>, r: RegionId)
    requires WellFormed(c.rt.state) && r in c.rt.draining && AskedFor(c, st, s, requesters).Some?
    ensures Spared(c, AskedFor(c, st, s, requesters).value, r)
    decreases |requesters|
  {
    hide WellFormed, Asked, Answered, Spared;
    if requesters == [] {
      SparedSelf(c, r);
    } else {
      var d := Asked(c, st, requesters[0], s);
      AskedSpares(c, st, requesters[0], s, r);
      SparedDrains(c, d, r);
      AskedForSpares(d, st, s, requesters[1..], r);
      SparedChain(c, d, AskedFor(c, st, s, requesters).value, r);
    }
  }

  lemma SparedSelf(c: Coord, r: RegionId)
    requires r in c.rt.draining
    ensures Spared(c, c, r)
  {
  }

  lemma SparedDrains(c: Coord, d: Coord, r: RegionId)
    requires Spared(c, d, r)
    ensures r in d.rt.draining
  {
  }

  /** A change of runtime that keeps the region draining, with notes that give no home there. */
  lemma QuietSpares(c: Coord, d: Coord, notes: seq<Note>, r: RegionId)
    requires r in d.rt.draining && d.log == c.log + notes
    requires forall i :: 0 <= i < |notes| && notes[i].HomeGiven? ==> notes[i].region != r
    ensures Spared(c, d, r)
  {
  }

  lemma ServedSpares(c: Coord, d: Coord, st: Strategy, r: RegionId)
    requires WellFormed(d.rt.state) && Spared(c, d, r) && RememberedServed(d, st).Some?
    ensures Spared(c, RememberedServed(d, st).value, r)
  {
    hide WellFormed, Spared, AskedAll;
    SparedDrains(c, d, r);
    if d.rt.state.remember {
      AskedAllSpares(d, st, COORDINATOR, Sorted(d.rt.state.unallocated), r);
      SparedChain(c, d, RememberedServed(d, st).value, r);
    }
  }

  lemma {:induction false} SpawnedSpares(c: Coord, plans: seq<HandoffPlan>, r: RegionId)
    requires r in c.rt.draining
    ensures Spared(c, SpawnedFor(c, plans), r)
    decreases |plans|
  {
    hide Spared;
    if plans == [] {
      SparedSelf(c, r);
    } else if plans[0].shard in c.active {
      SpawnedSpares(c, plans[1..], r);
    } else {
      var d := SpawnedOne(c, plans[0]);
      QuietSpares(c, d, [Spawned(WorkerRef(c.nextId, plans[0]))], r);
      SpawnedSpares(d, plans[1..], r);
      SparedChain(c, d, SpawnedFor(c, plans), r);
    }
  }

  /** The steps that may end the draining of `r`: it is lost, its marker is changed, or a handoff from it fails. */
  predicate Undrains(a: Action, r: RegionId) {
    || a == Lose(r)
    || (a.Mark? && r !in a.draining)
    || (a.TakeResult? && !a.result.ok && a.result.worker.plan.from == r)
  }

  /** A result under way belongs to a shard that is handed off, from the home it still has, if any. */
  lemma ResultTracked(x: System, m: Mail)
    requires Inv(x, {}) && m in x.mail
    ensures var s := m.worker.plan.shard;
      && WellFormed(x.c.rt.state) && s in x.c.rt.rebalancing
      && (s in x.c.rt.state.alloc.homes ==> x.c.rt.state.alloc.homes[s] == m.worker.plan.from)
  {
    hide WellFormed, Numbered, Deferrals, HomesKnown, TerminationsReal, WorkerAt;
    assert Tracked(x.c, m.worker.plan.shard);
  }

  lemma TakeSpares(st: Strategy, x: System, m: Mail, y: System, r: RegionId)
    requires Inv(x, {}) && Step(st, x, TakeResult(m), y) && r in x.c.rt.draining && !Undrains(TakeResult(m), r)
    ensures Spared(x.c, y.c, r)
  {
    hide WellFormed, AskedFor, RebalanceCompleted, Spared, Inv, Sorted;
    var s := m.worker.plan.shard;
    var c := Noted(x.c, Ended(m.worker, m.ok));
    var d := Released(c, s, m.ok);
    ResultTracked(x, m);
    CompletionMeaning(x.c.rt, s, m.ok);
    CompletedCases(x.c.rt, s, m.ok);
    var completion := RebalanceCompleted(c.rt, s, m.ok).1;
    QuietSpares(x.c, d, [Ended(m.worker, m.ok), RequestersFreed(s, completion.requesters)], r);
    AskedForSpares(d, st, s, RetryFor(completion), r);
    SparedChain(x.c, d, y.c, r);
  }

  lemma LoseSpares(c: Coord, st: Strategy, gone: RegionId, r: RegionId)
    requires WellFormed(c.rt.state) && r in c.rt.draining && gone != r && RegionLost(c, st, gone).Some?
    ensures Spared(c, RegionLost(c, st, gone).value, r)
  {
    hide WellFormed, Spared, RememberedServed, Next;
    var d := Forgotten(c, gone);
    QuietSpares(c, d, [RegionGone(gone)], r);
    if gone in c.rt.state.alloc.regions {
      var e := d.(rt := d.rt.(state := Next(d.rt.state, RegionTerminated(gone))));
      NextWellFormed(d.rt.state, RegionTerminated(gone));
      QuietSpares(c, e, [RegionGone(gone)], r);
      ServedSpares(c, e, st, r);
    }
  }

  lemma StateSpares(c: Coord, st: Strategy, state: State, r: RegionId)
    requires WellFormed(state) && r in c.rt.draining
    requires RememberedServed(c.(rt := c.rt.(state := state)), st).Some?
    ensures Spared(c, RememberedServed(c.(rt := c.rt.(state := state)), st).value, r)
  {
    hide WellFormed, Spared, RememberedServed;
    var d := c.(rt := c.rt.(state := state));
    QuietSpares(c, d, [], r);
    ServedSpares(c, d, st, r);
  }

  lemma PlanSpares(x: System, st: Strategy, drained: RegionId, r: RegionId)
    requires Inv(x, {}) && r in x.c.rt.draining
    ensures Spared(x.c, Rebalanced(x.c, st), r) && Spared(x.c, Drained(x.c, drained), r)
  {
    hide WellFormed, Spared, SpawnedFor, RebalancePlanned, ShutdownPlanned, Inv;
    InvParts(x, {});
    var rt := RebalancePlanned(x.c.rt, st).0;
    RebalancePlanMeaning(x.c.rt, st);
    PlannedSpares(x.c, rt, Planned(RebalancePlanned(x.c.rt, st).1), r);
    ShutdownPlanMeaning(x.c.rt, drained);
    var (after, plan) := ShutdownPlanned(x.c.rt, drained);
    PlannedSpares(x.c, after, if plan.Draining? then plan.plans else [], r);
  }

  function Planned(plan: Result<RebalancePlan, ShardingError>): seq<HandoffPlan> {
    if plan.Ok? && plan.value.Started? then plan.value.plans else []
  }

  lemma PlannedSpares(c: Coord, rt: Runtime, plans: seq<HandoffPlan>, r: RegionId)
    requires r in rt.draining
    ensures Spared(c, SpawnedFor(c.(rt := rt), plans), r)
  {
    hide Spared, SpawnedFor;
    QuietSpares(c, c.(rt := rt), [], r);
    SpawnedSpares(c.(rt := rt), plans, r);
    SparedChain(c, c.(rt := rt), SpawnedFor(c.(rt := rt), plans), r);
  }

  lemma StepSpares(st: Strategy, x: System, a: Action, y: System, r: RegionId)
    requires Inv(x, {}) && Step(st, x, a, y) && r in x.c.rt.draining && !Undrains(a, r)
    ensures Spared(x.c, y.c, r)
  {
    hide Inv, WellFormed, RememberedServed, RegionLost, Rebalanced, Drained, WorkerDone, Asked, Spared, Next;
    InvParts(x, {});
    match a {
      case AskHome(q, s) => AskedSpares(x.c, st, q, s, r);
      case Register(n) =>
        NextWellFormed(x.c.rt.state, RegionRegistered(n));
        StateSpares(x.c, st, Next(x.c.rt.state, RegionRegistered(n)), r);
      case Lose(n) => LoseSpares(x.c, st, n, r);
      case Load(shards) =>
        MergedMeaning(x.c.rt.state, shards);
        StateSpares(x.c, st, Merged(x.c.rt.state, shards), r);
      case ApplyEvent(e) => QuietSpares(x.c, y.c, EventNotes(x.c, e), r);
      case Mark(_, _, _, _, _) => QuietSpares(x.c, y.c, [], r);
      case Rebalance => PlanSpares(x, st, r, r);
      case Drain(n) => PlanSpares(x, st, n, r);
      case TakeResult(m) => TakeSpares(st, x, m, y, r);
      case Deliver(w, input) => QuietSpares(x.c, y.c, [Processed(w, input)], r);
    }
  }

  /** In every execution a draining region stays draining, and is given no home, until it is lost, its marker
      is changed, or a handoff from it fails. */
  lemma {:induction false} DrainingGetsNoHome(
      st: Strategy, states: seq<System>, actions: seq<Action>, i: nat, j: nat, r: RegionId)
    requires Execution(st, states, actions) && i <= j < |states| && r in states[i].c.rt.draining
    requires forall k :: i <= k < j ==> !Undrains(actions[k], r)
    ensures Spared(states[i].c, states[j].c, r)
    decreases j
  {
    hide Inv, Step, Initial, Spared;
    if i == j {
      SparedSelf(states[i].c, r);
    } else {
      DrainingGetsNoHome(st, states, actions, i, j - 1, r);
      ExecutionKeeps(st, states, actions, j - 1);
      SparedDrains(states[i].c, states[j - 1].c, r);
      StepSpares(st, states[j - 1], actions[j - 1], states[j], r);
      SparedChain(states[i].c, states[j - 1].c, states[j].c, r);
    }
  }

  // ----- Every new worker involves everyone -----

  /** A worker of `y` is one of `x`, or was made for the shard's home in `x` with every region and proxy
      registered then taking part. */
  ghost predicate Continued(x: Coord, y: Coord, s: ShardId) {
    && s in y.active
    && (|| (s in x.active && y.active[s] == x.active[s])
        || (&& s !in x.active && s in x.rt.state.alloc.homes && y.active[s].id >= x.nextId
            && y.active[s].plan.shard == s && y.active[s].plan.from == x.rt.state.alloc.homes[s]
            && y.active[s].plan.participants == x.rt.state.alloc.regions.Keys + x.rt.state.proxies))
  }

  lemma {:induction false} SpawnedWorkers(c: Coord, plans: seq<HandoffPlan>)
    ensures var d := SpawnedFor(c, plans);
      && (forall s :: s in c.active ==> s in d.active && d.active[s] == c.active[s])
      && (forall s :: s in d.active && s !in c.active ==> d.active[s].id >= c.nextId && PlanOf(plans, s, d.active[s].plan))
      && (forall i :: 0 <= i < |plans| ==> plans[i].shard in d.active)
    decreases |plans|
  {
    hide PlanOf;
    if plans != [] {
      var e := if plans[0].shard in c.active then c else SpawnedOne(c, plans[0]);
      SpawnedWorkers(e, plans[1..]);
      var d := SpawnedFor(c, plans);
      assert d == SpawnedFor(e, plans[1..]);
      forall i | 0 <= i < |plans| ensures plans[i].shard in d.active {
        if i > 0 {
          assert plans[1..][i - 1] == plans[i];
        }
      }
      forall s | s in d.active && s !in c.active ensures PlanOf(plans, s, d.active[s].plan) {
        LaterPlan(plans, s, d.active[s].plan);
      }
    }
  }

  ghost predicate PlanOf(plans: seq<HandoffPlan>, s: ShardId, plan: HandoffPlan) {
    exists i :: 0 <= i < |plans| && plans[i] == plan && plan.shard == s
  }

  lemma LaterPlan(plans: seq<HandoffPlan>, s: ShardId, plan: HandoffPlan)
    requires plans != [] && (PlanOf(plans[1..], s, plan) || (plan == plans[0] && plan.shard == s))
    ensures PlanOf(plans, s, plan)
  {
    if plan == plans[0] && plan.shard == s {
    } else {
      var i :| 0 <= i < |plans[1..]| && plans[1..][i] == plan && plan.shard == s;
      assert plans[i + 1] == plan;
    }
  }

  lemma PlannedWorkers(c: Coord, rt: Runtime, plans: seq<HandoffPlan>, s: ShardId)
    requires forall i :: 0 <= i < |plans| ==> Moves(c.rt, plans[i])
    requires s in SpawnedFor(c.(rt := rt), plans).active
    ensures Continued(c, SpawnedFor(c.(rt := rt), plans), s)
  {
    hide SpawnedFor;
    SpawnedWorkers(c.(rt := rt), plans);
  }

  lemma PlanWorkers(x: System, st: Strategy, drained: RegionId, s: ShardId)
    requires Inv(x, {})
    ensures s in Rebalanced(x.c, st).active ==> Continued(x.c, Rebalanced(x.c, st), s)
    ensures s in Drained(x.c, drained).active ==> Continued(x.c, Drained(x.c, drained), s)
  {
    hide WellFormed, Continued, SpawnedFor, RebalancePlanned, ShutdownPlanned, Inv, Moves;
    InvParts(x, {});
    var (rt, plan) := RebalancePlanned(x.c.rt, st);
    RebalancePlanMeaning(x.c.rt, st);
    if s in Rebalanced(x.c, st).active {
      PlannedWorkers(x.c, rt, Planned(plan), s);
    }
    ShutdownPlanMeaning(x.c.rt, drained);
    var (after, shutdown) := ShutdownPlanned(x.c.rt, drained);
    if s in Drained(x.c, drained).active {
      PlannedWorkers(x.c, after, if shutdown.Draining? then shutdown.plans else [], s);
    }
  }

  lemma {:induction false} AskedAllActive(c: Coord, st: Strategy, q: RegionId, shards: seq<ShardId>)
    requires AskedAll(c, st, q, shards).Some?
    ensures AskedAll(c, st, q, shards).value.active == c.active
    decreases |shards|
  {
    hide HomeRequested;
    if shards != [] {
      AskedAllActive(Asked(c, st, q, shards[0]), st, q, shards[1..]);
    }
  }

  lemma {:induction false} AskedForActive(c: Coord, st: Strategy, s: ShardId, requesters: seq<RegionId>)
    requires AskedFor(c, st, s, requesters).Some?
    ensures AskedFor(c, st, s, requesters).value.active == c.active
    decreases |requesters|
  {
    hide HomeRequested;
    if requesters != [] {
      AskedForActive(Asked(c, st, requesters[0], s), st, s, requesters[1..]);
    }
  }

  lemma ServedActive(c: Coord, st: Strategy)
    requires RememberedServed(c, st).Some?
    ensures RememberedServed(c, st).value.active == c.active
  {
    hide AskedAll;
    if c.rt.state.remember {
      AskedAllActive(c, st, COORDINATOR, Sorted(c.rt.state.unallocated));
    }
  }

  lemma LostActive(c: Coord, st: Strategy, r: RegionId)
    requires RegionLost(c, st, r).Some?
    ensures RegionLost(c, st, r).value.active == c.active
  {
    hide RememberedServed, Next;
    var d := Forgotten(c, r);
    if r in c.rt.state.alloc.regions {
      ServedActive(d.(rt := d.rt.(state := Next(d.rt.state, RegionTerminated(r)))), st);
    }
  }

  lemma StepWorkers(st: Strategy, x: System, a: Action, y: System, s: ShardId)
    requires Inv(x, {}) && Step(st, x, a, y) && s in y.c.active
    ensures Continued(x.c, y.c, s)
  {
    hide Inv, RememberedServed, RegionLost, Rebalanced, Drained, HomeRequested, Next, RebalanceCompleted, AskedFor;
    match a {
      case Register(n) => ServedActive(x.c.(rt := x.c.rt.(state := Next(x.c.rt.state, RegionRegistered(n)))), st);
      case Lose(n) => LostActive(x.c, st, n);
      case Load(shards) => ServedActive(x.c.(rt := x.c.rt.(state := Merged(x.c.rt.state, shards))), st);
      case Rebalance => PlanWorkers(x, st, Id(""), s);
      case Drain(n) => PlanWorkers(x, st, n, s);
      case TakeResult(m) =>
        var c := Noted(x.c, Ended(m.worker, m.ok));
        var shard := m.worker.plan.shard;
        AskedForActive(Released(c, shard, m.ok), st, shard, RetryFor(RebalanceCompleted(c.rt, shard, m.ok).1));
      case _ =>
    }
  }

  /** In every execution each worker that appears was spawned for the home its shard had, and waits for every
      region and proxy that was registered then; until its result is taken it is never replaced. */
  lemma WorkersInvolveEveryone(st: Strategy, states: seq<System>, actions: seq<Action>, i: nat, s: ShardId)
    requires Execution(st, states, actions) && i < |actions| && s in states[i + 1].c.active
    ensures Continued(states[i].c, states[i + 1].c, s)
  {
    hide Inv, Step, Continued;
    ExecutionKeeps(st, states, actions, i);
    StepWorkers(st, states[i], actions[i], states[i + 1], s);
  }

  // ----- Regions that come and go -----

  /** Serving waiting shards keeps every home, region and marker. */
  ghost predicate Served(c: Coord, d: Coord) {
    && WellFormed(d.rt.state)
    && d.rt.state.alloc.regions.Keys == c.rt.state.alloc.regions.Keys && d.rt.state.proxies == c.rt.state.proxies
    && (forall s :: s in c.rt.state.alloc.homes ==>
          s in d.rt.state.alloc.homes && d.rt.state.alloc.homes[s] == c.rt.state.alloc.homes[s])
    && d.rt.draining == c.rt.draining && d.rt.terminating == c.rt.terminating && d.rt.unavailable == c.rt.unavailable
  }

  lemma AskedServes(c: Coord, st: Strategy, q: RegionId, s: ShardId)
    requires WellFormed(c.rt.state)
    ensures Served(c, Asked(c, st, q, s))
  {
    hide WellFormed, Active, Next;
    AskedCases(c, st, q, s);
    HomeRequestMeaning(c.rt, st, q, s);
    var plan := HomeRequested(c.rt, st, q, s).1;
    if plan.Ok? && plan.value.Allocated? {
      NextMembers(c.rt.state, HomeAllocated(s, plan.value.hostRegion));
    }
  }

  lemma {:induction false} AskedAllServes(c: Coord, st: Strategy, q: RegionId, shards: seq<ShardId>)
    requires WellFormed(c.rt.state) && AskedAll(c, st, q, shards).Some?
    ensures Served(c, AskedAll(c, st, q, shards).value)
    decreases |shards|
  {
    hide WellFormed, Asked, Answered;
    if shards != [] {
      AskedServes(c, st, q, shards[0]);
      AskedAllServes(Asked(c, st, q, shards[0]), st, q, shards[1..]);
    }
  }

  lemma PassServes(c: Coord, st: Strategy)
    requires WellFormed(c.rt.state) && RememberedServed(c, st).Some?
    ensures Served(c, RememberedServed(c, st).value)
  {
    hide WellFormed, AskedAll, Sorted;
    if c.rt.state.remember {
      AskedAllServes(c, st, COORDINATOR, Sorted(c.rt.state.unallocated));
    }
  }

  /** A region that is lost is not registered, not marked and nobody's home any more; every other home,
      region and marker is as before. */
  lemma LostRegionForgotten(c: Coord, st: Strategy, r: RegionId)
    requires WellFormed(c.rt.state) && RegionLost(c, st, r).Some?
    ensures var d := RegionLost(c, st, r).value;
      && d.rt.state.alloc.regions.Keys == c.rt.state.alloc.regions.Keys - {r}
      && d.rt.draining == c.rt.draining - {r} && d.rt.terminating == c.rt.terminating - {r}
      && d.rt.unavailable == c.rt.unavailable - {r}
      && (forall s :: s in d.rt.state.alloc.homes ==> d.rt.state.alloc.homes[s] != r)
      && (forall s :: s in c.rt.state.alloc.homes && c.rt.state.alloc.homes[s] != r ==>
            s in d.rt.state.alloc.homes && d.rt.state.alloc.homes[s] == c.rt.state.alloc.homes[s])
  {
    hide WellFormed, RememberedServed, Next;
    var d := Forgotten(c, r);
    NextWellFormed(c.rt.state, RegionTerminated(r));
    NextHomes(c.rt.state, RegionTerminated(r));
    NextMembers(c.rt.state, RegionTerminated(r));
    if r in c.rt.state.alloc.regions {
      PassServes(d.(rt := d.rt.(state := Next(d.rt.state, RegionTerminated(r)))), st);
    }
    NowhereAt(RegionLost(c, st, r).value.rt.state, r);
  }

  lemma NowhereAt(c: State, r: RegionId)
    requires WellFormed(c)
    ensures r !in c.alloc.regions ==> forall s :: s in c.alloc.homes ==> c.alloc.homes[s] != r
  {
  }

  /** A region that registers is registered, and every home, other region and marker is as before. */
  lemma RegisteredRegionKnown(c: Coord, st: Strategy, r: RegionId)
    requires WellFormed(c.rt.state) && Registered(c, st, r).Some?
    ensures var d := Registered(c, st, r).value;
      && d.rt.state.alloc.regions.Keys == c.rt.state.alloc.regions.Keys + {r}
      && d.rt.draining == c.rt.draining && d.rt.terminating == c.rt.terminating
      && (forall s :: s in c.rt.state.alloc.homes ==>
            s in d.rt.state.alloc.homes && d.rt.state.alloc.homes[s] == c.rt.state.alloc.homes[s])
  {
    hide WellFormed, RememberedServed, Next;
    NextWellFormed(c.rt.state, RegionRegistered(r));
    NextHomes(c.rt.state, RegionRegistered(r));
    NextMembers(c.rt.state, RegionRegistered(r));
    PassServes(c.(rt := c.rt.(state := Next(c.rt.state, RegionRegistered(r)))), st);
  }

  // ----- Waiting shards are served -----

  /** Some registered region accepts shards and the gate is open. */
  ghost predicate Hospitable(rt: Runtime) {
    && rt.gateOpen
    && exists r :: r in rt.state.alloc.regions && r !in rt.draining && r !in rt.terminating
  }

  lemma HospitableServes(rt: Runtime)
    requires WellFormed(rt.state) && Hospitable(rt)
    ensures RememberedHomes.Serving(rt)
  {
    hide WellFormed;
    var r :| r in rt.state.alloc.regions && r !in rt.draining && r !in rt.terminating;
    assert r in Active(rt).regions;
  }

  /** With the least-shards policy a pass never fails and leaves waiting exactly the shards under handoff. */
  lemma PassLeavesNone(c: Coord, limits: Limits)
    requires WellFormed(c.rt.state) && Hospitable(c.rt)
    ensures var d := RememberedServed(c, Policy(limits));
      d.Some? && d.value.rt.state.unallocated == c.rt.state.unallocated * c.rt.rebalancing.Keys
  {
    hide WellFormed, Hospitable, HomesRequested, AskedAll, RememberedHomes.EvenShare;
    HospitableServes(c.rt);
    RememberedHomes.RememberedHomesPlaced(c.rt, limits, COORDINATOR);
    AskedAllRequests(c, Policy(limits), COORDINATOR, Sorted(c.rt.state.unallocated));
  }

  /** With the gate open and the least-shards policy, a region that registers and may take shards leaves no
      remembered shard waiting but those under handoff. */
  lemma RegistrationServesWaiting(c: Coord, limits: Limits, r: RegionId)
    requires WellFormed(c.rt.state) && c.rt.gateOpen && r !in c.rt.draining && r !in c.rt.terminating
    ensures var d := Registered(c, Policy(limits), r);
      d.Some? && d.value.rt.state.unallocated == c.rt.state.unallocated * c.rt.rebalancing.Keys
  {
    hide WellFormed, RememberedServed, Policy;
    var e := RegionRegistered(r);
    NextWellFormed(c.rt.state, e);
    NextMembers(c.rt.state, e);
    assert r in Next(c.rt.state, e).alloc.regions.Keys;
    PassLeavesNone(c.(rt := c.rt.(state := Next(c.rt.state, e))), limits);
  }

  /** The shards of a lost region find new homes at once, as long as some other region accepts them. */
  lemma LossServesWaiting(c: Coord, limits: Limits, r: RegionId)
    requires WellFormed(c.rt.state) && c.rt.state.remember && r in c.rt.state.alloc.regions
    requires Hospitable(c.rt.(draining := c.rt.draining + {r}))
    ensures var d := RegionLost(c, Policy(limits), r);
      && d.Some?
      && d.value.rt.state.unallocated == (c.rt.state.unallocated + HomedAt(c.rt.state.alloc, r)) * c.rt.rebalancing.Keys
  {
    hide WellFormed, RememberedServed, Policy;
    var e := RegionTerminated(r);
    NextWellFormed(c.rt.state, e);
    NextMembers(c.rt.state, e);
    var d := Forgotten(c, r);
    var q :| q in c.rt.state.alloc.regions && q !in c.rt.draining + {r} && q !in c.rt.terminating;
    assert q in Next(c.rt.state, e).alloc.regions.Keys;
    PassLeavesNone(d.(rt := d.rt.(state := Next(d.rt.state, e))), limits);
  }

  /** Shards loaded from the remember store are placed at once. */
  lemma LoadServesWaiting(c: Coord, limits: Limits, shards: set<ShardId>)
    requires WellFormed(c.rt.state) && c.rt.state.remember && Hospitable(c.rt)
    ensures var d := RememberedLoaded(c, Policy(limits), shards);
      && d.Some?
      && d.value.rt.state.unallocated ==
           (c.rt.state.unallocated + (shards - c.rt.state.alloc.homes.Keys)) * c.rt.rebalancing.Keys
  {
    hide WellFormed, RememberedServed, Policy;
    MergedMeaning(c.rt.state, shards);
    var d := c.(rt := c.rt.(state := Merged(c.rt.state, shards)));
    var q :| q in c.rt.state.alloc.regions && q !in c.rt.draining && q !in c.rt.terminating;
    assert q in d.rt.state.alloc.regions;
    PassLeavesNone(d, limits);
  }

  /** A shard that needs a home gets it in the lightest region that accepts shards. */
  lemma LightestHomeGiven(rt: Runtime, limits: Limits, requester: RegionId, shard: ShardId)
    requires WellFormed(rt.state) && Undecided(rt, shard) && Hospitable(rt)
    ensures var (after, plan) := HomeRequested(rt, Policy(limits), requester, shard);
      && plan.Ok? && plan.value.Allocated?
      && IsLightest(LoadsOf(Active(rt)), Active(rt).regions.Keys, plan.value.hostRegion)
      && after.state.alloc.homes == rt.state.alloc.homes[shard := plan.value.hostRegion]
  {
    hide WellFormed, IsLightest, Active;
    HospitableServes(rt);
    HomeRequestMeaning(rt, Policy(limits), requester, shard);
    HomeRequestRefused(rt, Policy(limits), requester, shard);
    AllocateActive(Active(rt));
  }

  lemma AllocateActive(a: Allocations)
    requires |a.regions| > 0
    ensures a.regions != map[] && Allocate(a).Ok? && Allocate(a).value in a.regions
    ensures IsLightest(LoadsOf(a), a.regions.Keys, Allocate(a).value)
  {
  }
}
