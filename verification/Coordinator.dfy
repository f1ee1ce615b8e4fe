/** Durable coordinator state: shard homes, region proxies and the remembered
    shards that wait for a home. */
module Coordinator {
  import opened Ids
  import opened Allocation

  datatype Event =
    | RegionRegistered(region: RegionId)
    | ProxyRegistered(proxy: RegionId)
    | RegionTerminated(region: RegionId)
    | ProxyTerminated(proxy: RegionId)
    | HomeAllocated(shard: ShardId, region: RegionId)
    | HomeDeallocated(shard: ShardId)
    | Initialized

  datatype State = State(
    alloc: Allocations,
    proxies: set<RegionId>,
    unallocated: set<ShardId>,
    remember: bool)

  /** Exact double index, no remembered shard that also has a home, and nothing remembered while
      remembering is off. */
  ghost predicate WellFormed(c: State) {
    && Consistent(c.alloc)
    && c.unallocated !! c.alloc.homes.Keys
    && (!c.remember ==> c.unallocated == {})
  }

  /** Why an event is refused, if it is. */
  function Refusal(c: State, e: Event): Option<ShardingError> {
    match e
    case RegionRegistered(r) => if r in c.alloc.regions then Some(RegionAlreadyRegistered(r)) else None
    case ProxyRegistered(p) => if p in c.proxies then Some(RegionProxyAlreadyRegistered(p)) else None
    case RegionTerminated(r) => if r in c.alloc.regions then None else Some(UnknownRegion(r))
    case ProxyTerminated(p) => if p in c.proxies then None else Some(UnknownRegionProxy(p))
    case HomeAllocated(s, r) =>
      if s in c.alloc.homes then Some(ShardAlreadyAllocated(s))
      else if r in c.alloc.regions then None else Some(UnknownRegion(r))
    case HomeDeallocated(s) => if s in c.alloc.homes then None else Some(UnknownShard(s))
    case Initialized => None
  }

  /** The state after an event. A refused event changes nothing. */
  function Next(c: State, e: Event): State {
    if Refusal(c, e).Some? then c
    else
      match e
      case RegionRegistered(r) => c.(alloc := WithRegion(c.alloc, r))
      case ProxyRegistered(p) => c.(proxies := c.proxies + {p})
      case RegionTerminated(r) => Waiting(c.(alloc := WithoutRegions(c.alloc, {r})), HomedAt(c.alloc, r))
      case ProxyTerminated(p) => c.(proxies := c.proxies - {p})
      case HomeAllocated(s, r) => c.(alloc := Assigned(c.alloc, r, s), unallocated := c.unallocated - {s})
      case HomeDeallocated(s) => Waiting(c.(alloc := Deallocated(c.alloc, s)), {s})
      case Initialized => c
  }

  function HomedAt(a: Allocations, r: RegionId): set<ShardId> {
    set s | s in a.homes && a.homes[s] == r
  }

  /** Shards that lost their home wait for a new one only when they are remembered. */
  function Waiting(c: State, shards: set<ShardId>): State {
    if c.remember then c.(unallocated := c.unallocated + shards) else c
  }

  /** Remembered shards without a home join the waiting ones. */
  function Merged(c: State, shards: set<ShardId>): State {
    Waiting(c, shards - c.alloc.homes.Keys)
  }

  /** The shards that were not known before, each once, in the order given. */
  function NewlyKnown(shards: seq<ShardId>, known: set<ShardId>): (added: seq<ShardId>)
    ensures Elements(added) == Elements(shards) - known
  {
    if shards == [] then []
    else
      var last := shards[|shards| - 1];
      var rest := shards[..|shards| - 1];
      assert shards == rest + [last] && Elements(shards) == Elements(rest) + {last};
      var added := NewlyKnown(rest, known);
      if last in known || last in rest then added
      else
        assert Elements(added + [last]) == Elements(added) + {last};
        added + [last]
  }

  /** Switches remembering on or off; off forgets every waiting shard. */
  function Remembering(c: State, enabled: bool): State {
    c.(remember := enabled, unallocated := if enabled then c.unallocated else {})
  }

  /** Every shard the coordinator knows. */
  function AllShards(c: State): set<ShardId> {
    (set r, s | r in c.alloc.regions && s in c.alloc.regions[r] :: s) + c.unallocated
  }

  // ----- Invariants of every event -----

  lemma NextWellFormed(c: State, e: Event)
    requires WellFormed(c)
    ensures WellFormed(Next(c, e))
  {
    hide Distinct;
    match e {
      case RegionRegistered(r) => WithRegionConsistent(c.alloc, r);
      case RegionTerminated(r) => WithoutRegionsConsistent(c.alloc, {r});
      case HomeAllocated(s, r) => if r in c.alloc.regions { AssignedConsistent(c.alloc, r, s); }
      case HomeDeallocated(s) => DeallocatedConsistent(c.alloc, s);
      case _ =>
    }
  }

  lemma AllShardsMeaning(c: State)
    requires WellFormed(c)
    ensures AllShards(c) == c.alloc.homes.Keys + c.unallocated
  {
  }

  /** The events that take away a shard's home are the only ones that do. */
  lemma NextHomes(c: State, e: Event)
    requires WellFormed(c)
    ensures Next(c, e).alloc.homes ==
      if Refusal(c, e).Some? then c.alloc.homes
      else if e.RegionTerminated? then map s | s in c.alloc.homes && c.alloc.homes[s] != e.region :: c.alloc.homes[s]
      else if e.HomeAllocated? then c.alloc.homes[e.shard := e.region]
      else if e.HomeDeallocated? then c.alloc.homes - {e.shard}
      else c.alloc.homes
  {
    hide Consistent;
    match e {
      case HomeAllocated(s, r) => if r in c.alloc.regions { AssignedConsistent(c.alloc, r, s); }
      case _ =>
    }
  }

  /** A remembering coordinator never loses a shard. */
  lemma NextKeepsShards(c: State, e: Event)
    requires WellFormed(c) && c.remember
    ensures Next(c, e).remember && AllShards(c) <= AllShards(Next(c, e))
  {
    NextWellFormed(c, e);
    NextHomes(c, e);
    AllShardsMeaning(c);
    AllShardsMeaning(Next(c, e));
    HomesKept(c, e);
  }

  lemma HomesKept(c: State, e: Event)
    requires WellFormed(c) && c.remember
    ensures c.alloc.homes.Keys + c.unallocated <= Next(c, e).alloc.homes.Keys + Next(c, e).unallocated
  {
    hide Consistent;
    NextHomes(c, e);
    forall s | s in c.alloc.homes || s in c.unallocated
      ensures s in Next(c, e).alloc.homes || s in Next(c, e).unallocated
    {
    }
  }

  /** After an event what it reports is so: registered regions and proxies, and homes, are exactly the ones
      before with the reported one added or gone. Everything else is as before. */
  lemma NextMembers(c: State, e: Event)
    requires WellFormed(c)
    ensures var d := Next(c, e);
      && d.remember == c.remember
      && d.proxies == (match e
                       case ProxyRegistered(p) => c.proxies + {p}
                       case ProxyTerminated(p) => c.proxies - {p}
                       case _ => c.proxies)
      && d.alloc.regions.Keys == (match e
                                  case RegionRegistered(r) => c.alloc.regions.Keys + {r}
                                  case RegionTerminated(r) => c.alloc.regions.Keys - {r}
                                  case _ => c.alloc.regions.Keys)
      && d.alloc.homes.Keys == (match e
                                case RegionTerminated(r) => c.alloc.homes.Keys - HomedAt(c.alloc, r)
                                case HomeAllocated(s, r) =>
                                  if r in c.alloc.regions then c.alloc.homes.Keys + {s} else c.alloc.homes.Keys
                                case HomeDeallocated(s) => c.alloc.homes.Keys - {s}
                                case _ => c.alloc.homes.Keys)
  {
    hide Consistent;
    NextHomes(c, e);
    match e {
      case RegionTerminated(r) => if r !in c.alloc.regions { NobodyAt(c.alloc, r); }
      case HomeAllocated(s, r) => if r in c.alloc.regions { AssignedConsistent(c.alloc, r, s); }
      case _ =>
    }
  }

  lemma NobodyAt(a: Allocations, r: RegionId)
    requires Consistent(a) && r !in a.regions
    ensures HomedAt(a, r) == {}
  {
  }

  /** A remembering coordinator knows after an event exactly the shards it knew before and the one it was
      told is allocated in a registered region. With `NextMembers` this fixes which shards wait. */
  lemma NextShards(c: State, e: Event)
    requires WellFormed(c) && c.remember
    ensures AllShards(Next(c, e)) ==
      AllShards(c) + if e.HomeAllocated? && e.region in c.alloc.regions then {e.shard} else {}
  {
    hide Consistent, AllShards;
    NextWellFormed(c, e);
    AllShardsMeaning(c);
    AllShardsMeaning(Next(c, e));
    HomesKept(c, e);
    NextMembers(c, e);
    WaitingBound(c, e);
  }

  lemma WaitingBound(c: State, e: Event)
    ensures Next(c, e).unallocated <= c.unallocated + c.alloc.homes.Keys
  {
  }

  /** Every event but the initial one is refused exactly when it would change nothing. */
  lemma RefusedExactly(c: State, e: Event)
    requires WellFormed(c) && !e.Initialized?
    ensures Refusal(c, e).Some? <==> Next(c, e) == c
  {
    hide Consistent, Assigned, Deallocated;
    NextMembers(c, e);
  }

  /** A refusal names what is wrong: a region or proxy that is already or not yet registered, or a shard that
      already has or does not have a home. */
  lemma RefusalNames(c: State, e: Event)
    ensures forall r :: Refusal(c, e) == Some(RegionAlreadyRegistered(r)) <==> e == RegionRegistered(r) && r in c.alloc.regions
    ensures forall p :: Refusal(c, e) == Some(RegionProxyAlreadyRegistered(p)) <==> e == ProxyRegistered(p) && p in c.proxies
    ensures forall p :: Refusal(c, e) == Some(UnknownRegionProxy(p)) <==> e == ProxyTerminated(p) && p !in c.proxies
    ensures forall s :: Refusal(c, e) == Some(UnknownShard(s)) <==> e == HomeDeallocated(s) && s !in c.alloc.homes
    ensures forall s :: Refusal(c, e) == Some(ShardAlreadyAllocated(s)) <==>
              e.HomeAllocated? && e.shard == s && s in c.alloc.homes
    ensures forall r :: Refusal(c, e) == Some(UnknownRegion(r)) <==>
              && r !in c.alloc.regions
              && (e == RegionTerminated(r) || (e.HomeAllocated? && e.region == r && e.shard !in c.alloc.homes))
  {
  }

  /** A merge adds exactly the given shards to what a remembering coordinator knows, and touches nothing else. */
  lemma MergedMeaning(c: State, shards: set<ShardId>)
    requires WellFormed(c)
    ensures var d := Merged(c, shards);
      && WellFormed(d) && d == c.(unallocated := d.unallocated)
      && AllShards(d) == AllShards(c) + if c.remember then shards else {}
  {
    hide Consistent, AllShards;
    AllShardsMeaning(c);
    AllShardsMeaning(Merged(c, shards));
  }

  // ----- Whole histories -----

  datatype Change = Apply(event: Event) | Merge(shards: set<ShardId>) | SetRemember(enabled: bool)

  function Changed(c: State, change: Change): State {
    match change
    case Apply(e) => Next(c, e)
    case Merge(shards) => Merged(c, shards)
    case SetRemember(enabled) => Remembering(c, enabled)
  }

  function History(c: State, changes: seq<Change>): State
    decreases |changes|
  {
    if changes == [] then c else History(Changed(c, changes[0]), changes[1..])
  }

  lemma ChangedWellFormed(c: State, change: Change)
    requires WellFormed(c)
    ensures WellFormed(Changed(c, change))
  {
    if change.Apply? {
      NextWellFormed(c, change.event);
    }
  }

  /** Over every history the two indexes stay exact inverses, waiting and placed shards stay
      apart, and as long as remembering stays on no shard is ever forgotten. */
  lemma {:induction false} HistoryInvariant(c: State, changes: seq<Change>)
    requires WellFormed(c)
    ensures WellFormed(History(c, changes))
    ensures c.remember && (forall i :: 0 <= i < |changes| ==> changes[i] != SetRemember(false)) ==>
              AllShards(c) <= AllShards(History(c, changes))
    decreases |changes|
  {
    hide Consistent;
    if changes != [] {
      var d := Changed(c, changes[0]);
      ChangedWellFormed(c, changes[0]);
      HistoryInvariant(d, changes[1..]);
      if c.remember && changes[0] != SetRemember(false) {
        ChangedKeepsShards(c, changes[0]);
        assert forall i :: 0 <= i < |changes[1..]| ==> changes[1..][i] == changes[i + 1];
      }
    }
  }

  lemma ChangedKeepsShards(c: State, change: Change)
    requires WellFormed(c) && c.remember && change != SetRemember(false)
    ensures Changed(c, change).remember && AllShards(c) <= AllShards(Changed(c, change))
  {
    if change.Apply? {
      NextKeepsShards(c, change.event);
    }
  }

  // ----- The mutable state -----

  class CoordinatorState {
    const allocations: ShardAllocations
    var proxies: set<RegionId>
    var unallocatedShards: set<ShardId>
    var rememberEntities: bool

    function View(): State
      reads this, allocations
    {
      State(allocations.View(), proxies, unallocatedShards, rememberEntities)
    }

    ghost predicate Valid()
      reads this, allocations
    {
      WellFormed(View())
    }

    constructor ()
      ensures Valid() && fresh(allocations)
      ensures View() == State(EMPTY, {}, {}, false)
    {
      allocations := new ShardAllocations();
      proxies, unallocatedShards, rememberEntities := {}, {}, false;
    }

    method SetRememberEntities(enabled: bool)
      requires Valid()
      modifies this
      ensures Valid() && View() == Remembering(old(View()), enabled)
    {
      rememberEntities := enabled;
      if !enabled {
        unallocatedShards := {};
      }
    }

    method MergeRememberedShards(shards: seq<ShardId>) returns (added: seq<ShardId>)
      requires Valid()
      modifies this
      ensures Valid() && View() == Merged(old(View()), Elements(shards))
      ensures added == if rememberEntities then NewlyKnown(shards, old(unallocatedShards) + allocations.shardHomes.Keys) else []
    {
      added := [];
      if !rememberEntities {
        return;
      }
      for i := 0 to |shards|
        invariant rememberEntities && proxies == old(proxies)
        invariant unallocatedShards == old(unallocatedShards) + (Elements(shards[..i]) - allocations.shardHomes.Keys)
        invariant added == NewlyKnown(shards[..i], old(unallocatedShards) + allocations.shardHomes.Keys)
      {
        assert shards[..i + 1] == shards[..i] + [shards[i]] && shards[..i + 1][..i] == shards[..i];
        assert Elements(shards[..i + 1]) == Elements(shards[..i]) + {shards[i]};
        if shards[i] !in allocations.shardHomes && shards[i] !in unallocatedShards {
          unallocatedShards := unallocatedShards + {shards[i]};
          added := added + [shards[i]];
        }
      }
      assert shards[..|shards|] == shards;
    }

    method Apply(event: Event) returns (result: Result<(), ShardingError>)
      requires Valid()
      modifies this, allocations
      ensures Valid() && View() == Next(old(View()), event)
      ensures result == if Refusal(old(View()), event).Some? then Err(Refusal(old(View()), event).value) else Ok(())
    {
      hide Consistent;
      NextWellFormed(View(), event);
      match event {
        case RegionRegistered(region) =>
          var inserted := allocations.InsertRegion(region);
          if !inserted {
            return Err(RegionAlreadyRegistered(region));
          }
        case ProxyRegistered(proxy) =>
          if proxy in proxies {
            return Err(RegionProxyAlreadyRegistered(proxy));
          }
          proxies := proxies + {proxy};
        case RegionTerminated(region) =>
          var shards := allocations.RemoveRegion(region);
          if shards.None? {
            return Err(UnknownRegion(region));
          }
          if rememberEntities {
            OwnedShards(old(allocations.View()), region);
            unallocatedShards := unallocatedShards + Elements(shards.value);
          }
        case ProxyTerminated(proxy) =>
          if proxy !in proxies {
            return Err(UnknownRegionProxy(proxy));
          }
          proxies := proxies - {proxy};
        case HomeAllocated(shard, region) =>
          if shard in allocations.shardHomes {
            return Err(ShardAlreadyAllocated(shard));
          }
          var moved := allocations.AllocateShard(region, shard);
          if moved.Err? {
            return Err(moved.error);
          }
          if rememberEntities {
            unallocatedShards := unallocatedShards - {shard};
          }
        case HomeDeallocated(shard) =>
          var owner := allocations.DeallocateShard(shard);
          if owner.None? {
            return Err(UnknownShard(shard));
          }
          if rememberEntities {
            unallocatedShards := unallocatedShards + {shard};
          }
        case Initialized =>
      }
      return Ok(());
    }
  }

  lemma OwnedShards(a: Allocations, r: RegionId)
    requires Consistent(a) && r in a.regions
    ensures Elements(a.regions[r]) == HomedAt(a, r)
  {
  }
}
