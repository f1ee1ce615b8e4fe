/** One shard region: which region owns each shard, which local shards run, and the bounded queues of
    messages that wait for a shard. */
module Region {
  import opened Ids
  import opened Loads

  datatype RouteError =
    | HomeDuringHandOff(shard: ShardId, region: RegionId)
    | InconsistentHome(shard: ShardId, current: RegionId, new_: RegionId)

  datatype DropReason = EmptyShardId | BufferFull

  datatype RoutePlan<M> =
    | DeliverLocal(shard: ShardId, message: M)
    | Forward(shard: ShardId, region: RegionId, message: M)
    | Buffered(shard: ShardId, request: bool)
    | Dropped(target: Option<ShardId>, reason: DropReason, message: M)

  datatype HostPlan<M> =
    | StartLocalShard(shard: ShardId)
    | AlreadyStarted(shard: ShardId, buffered: seq<M>)
    | IgnoredGracefulShutdown(shard: ShardId)

  datatype HomePlan<M> =
    | StartHere(shard: ShardId)
    | ReplayLocal(shard: ShardId, buffered: seq<M>)
    | ForwardAll(shard: ShardId, region: RegionId, buffered: seq<M>)

  datatype BeginPlan = Ack(shard: ShardId) | IgnoredPreparing(shard: ShardId)

  datatype HandOffPlan =
    | ForwardToLocalShard(shard: ShardId, dropped: nat)
    | ReplyShardStopped(shard: ShardId, dropped: nat)

  datatype View<M> = View(
    self: RegionId,
    capacity: nat,
    homes: map<ShardId, RegionId>,
    local: set<ShardId>,
    starting: set<ShardId>,
    handingOff: set<ShardId>,
    buffers: map<ShardId, seq<M>>,
    draining: bool,
    preparing: bool)

  // ----- What each operation means -----

  function Empty<M>(self: RegionId, capacity: nat): View<M> {
    View(self, capacity, map[], {}, {}, {}, map[], false, false)
  }

  function Lengths<M>(buffers: map<ShardId, seq<M>>): map<ShardId, nat> {
    map s | s in buffers :: |buffers[s]|
  }

  ghost function Total<M>(buffers: map<ShardId, seq<M>>): nat {
    Sum(Count, Lengths(buffers))
  }

  function Queue<M>(v: View<M>, s: ShardId): seq<M> {
    if s in v.buffers then v.buffers[s] else []
  }

  function Queued<M>(v: View<M>, s: ShardId, m: M): View<M> {
    v.(buffers := v.buffers[s := Queue(v, s) + [m]])
  }

  function Drained<M>(v: View<M>, s: ShardId): View<M> {
    v.(buffers := v.buffers - {s})
  }

  function Homed<M>(v: View<M>, s: ShardId, r: RegionId): View<M> {
    v.(homes := v.homes[s := r])
  }

  function Unhomed<M>(v: View<M>, s: ShardId): View<M> {
    v.(homes := v.homes - {s})
  }

  ghost function Held<M>(v: View<M>, s: ShardId, m: M, request: bool): (View<M>, RoutePlan<M>) {
    if Total(v.buffers) >= v.capacity then (v, Dropped(Some(s), BufferFull, m))
    else (Queued(v, s, m), Buffered(s, request))
  }

  ghost function Routed<M>(v: View<M>, s: ShardId, m: M): (View<M>, RoutePlan<M>) {
    if s.name == "" then (v, Dropped(None, EmptyShardId, m))
    else if s !in v.homes then Held(v, s, m, s !in v.buffers)
    else if v.homes[s] != v.self then (v, Forward(s, v.homes[s], m))
    else if s in v.local && s !in v.buffers then (v, DeliverLocal(s, m))
    else Held(v, s, m, false)
  }

  function Hosted<M>(v: View<M>, s: ShardId): (View<M>, HostPlan<M>) {
    if v.draining then (v, IgnoredGracefulShutdown(s))
    else
      var w := Homed(v, s, v.self);
      if s in v.local then (Drained(w, s), AlreadyStarted(s, Queue(v, s)))
      else (w.(starting := v.starting + {s}), StartLocalShard(s))
  }

  function HomeRecorded<M>(v: View<M>, s: ShardId, r: RegionId): (View<M>, Result<HomePlan<M>, RouteError>) {
    if s in v.handingOff then (v, Err(HomeDuringHandOff(s, r)))
    else if s in v.homes && v.homes[s] == v.self && r != v.self then (v, Err(InconsistentHome(s, v.self, r)))
    else
      var w := Homed(v, s, r);
      if r != v.self then (Drained(w, s), Ok(ForwardAll(s, r, Queue(v, s))))
      else if s in v.local then (Drained(w, s), Ok(ReplayLocal(s, Queue(v, s))))
      else (w.(starting := v.starting + {s}), Ok(StartHere(s)))
  }

  function ShardStarted<M>(v: View<M>, s: ShardId): (View<M>, seq<M>) {
    (Drained(Homed(v, s, v.self), s).(starting := v.starting - {s}, local := v.local + {s}), Queue(v, s))
  }

  function HandoffBegun<M>(v: View<M>, s: ShardId): (View<M>, BeginPlan) {
    if v.preparing then (v, IgnoredPreparing(s)) else (Unhomed(v, s), Ack(s))
  }

  function HandedOff<M>(v: View<M>, s: ShardId): (View<M>, HandOffPlan) {
    var w := Drained(Unhomed(v, s), s);
    if s in v.local then (w.(handingOff := v.handingOff + {s}), ForwardToLocalShard(s, |Queue(v, s)|))
    else (w, ReplyShardStopped(s, |Queue(v, s)|))
  }

  function ShardStopped<M>(v: View<M>, s: ShardId): View<M> {
    Unhomed(v, s).(local := v.local - {s}, starting := v.starting - {s}, handingOff := v.handingOff - {s})
  }

  function HomedAt(homes: map<ShardId, RegionId>, r: RegionId): set<ShardId> {
    set s | s in homes && homes[s] == r
  }

  function RegionStopped<M>(v: View<M>, r: RegionId): (View<M>, seq<ShardId>) {
    (v.(homes := v.homes - HomedAt(v.homes, r)), Sorted(HomedAt(v.homes, r)))
  }

  // ----- The mutable region -----

  /** The second index lists, for every region that owns a shard, exactly the shards it owns. */
  ghost predicate Inverse(homes: map<ShardId, RegionId>, shards: map<RegionId, set<ShardId>>) {
    && (forall r :: r in shards <==> HomedAt(homes, r) != {})
    && (forall r :: r in shards ==> shards[r] == HomedAt(homes, r))
  }

  class ShardRegionRuntime<M> {
    const selfRegion: RegionId
    const bufferCapacity: nat
    var regionByShard: map<ShardId, RegionId>
    var shardsByRegion: map<RegionId, set<ShardId>>
    var localShards: set<ShardId>
    var startingShards: set<ShardId>
    var handingOffShards: set<ShardId>
    var shardBuffers: map<ShardId, seq<M>>
    var gracefulShutdownInProgress: bool
    var preparingForShutdown: bool

    ghost function Now(): View<M>
      reads this
    {
      View(selfRegion, bufferCapacity, regionByShard, localShards, startingShards, handingOffShards, shardBuffers,
           gracefulShutdownInProgress, preparingForShutdown)
    }

    ghost predicate Valid()
      reads this
    {
      Inverse(regionByShard, shardsByRegion)
    }

    constructor (selfRegion: RegionId, bufferCapacity: nat)
      ensures Valid() && Now() == Empty(selfRegion, bufferCapacity)
    {
      this.selfRegion, this.bufferCapacity := selfRegion, bufferCapacity;
      regionByShard, shardsByRegion, shardBuffers := map[], map[], map[];
      localShards, startingShards, handingOffShards := {}, {}, {};
      gracefulShutdownInProgress, preparingForShutdown := false, false;
    }

    method TotalBufferedCount() returns (total: nat)
      ensures total == Total(shardBuffers)
    {
      hide SumAlong, Sum, Elements;
      total := 0;
      var order := Sorted(shardBuffers.Keys);
      ghost var lengths := Lengths(shardBuffers);
      assert lengths.Keys == shardBuffers.Keys;
      ListedOnce(lengths, order);
      for i := 0 to |order|
        invariant Elements(order[..i]) <= lengths.Keys && total == SumAlong(Count, lengths, order[..i])
      {
        SumAlongNext(Count, lengths, order, i);
        total := total + |shardBuffers[order[i]]|;
      }
      assert order[..|order|] == order;
      SumAlongAll(Count, lengths, order);
    }

    method GracefulShutdownComplete() returns (complete: bool)
      ensures complete <==>
        gracefulShutdownInProgress && localShards == {} && forall s :: s in shardBuffers ==> shardBuffers[s] == []
    {
      hide SumAlong;
      var total := TotalBufferedCount();
      SumZero(Count, Lengths(shardBuffers));
      complete := gracefulShutdownInProgress && localShards == {} && total == 0;
      assert forall s :: s in shardBuffers <==> s in Lengths(shardBuffers);
    }

    method BufferMessage(shard: ShardId, message: M) returns (kept: bool)
      requires Valid()
      modifies this
      ensures Valid() && (kept <==> Total(old(shardBuffers)) < bufferCapacity)
      ensures Now() == if kept then Queued(old(Now()), shard, message) else old(Now())
    {
      var total := TotalBufferedCount();
      if total >= bufferCapacity {
        return false;
      }
      var queue := if shard in shardBuffers then shardBuffers[shard] else [];
      shardBuffers := shardBuffers[shard := queue + [message]];
      return true;
    }

    method DrainBuffer(shard: ShardId) returns (buffered: seq<M>)
      requires Valid()
      modifies this
      ensures Valid() && buffered == Queue(old(Now()), shard) && Now() == Drained(old(Now()), shard)
    {
      buffered := if shard in shardBuffers then shardBuffers[shard] else [];
      shardBuffers := shardBuffers - {shard};
    }

    method UnassignShard(shard: ShardId)
      requires Valid()
      modifies this
      ensures Valid() && Now() == Unhomed(old(Now()), shard)
    {
      if shard in regionByShard {
        var region := regionByShard[shard];
        InverseRemove(regionByShard, shardsByRegion, shard);
        regionByShard := regionByShard - {shard};
        var shards := shardsByRegion[region] - {shard};
        shardsByRegion := if shards == {} then shardsByRegion - {region} else shardsByRegion[region := shards];
      } else {
        assert regionByShard - {shard} == regionByShard;
      }
    }

    method AssignShard(shard: ShardId, region: RegionId)
      requires Valid()
      modifies this
      ensures Valid() && Now() == Homed(old(Now()), shard, region)
    {
      hide Inverse;
      UnassignShard(shard);
      InverseAdd(regionByShard, shardsByRegion, shard, region);
      regionByShard := regionByShard[shard := region];
      var shards := if region in shardsByRegion then shardsByRegion[region] else {};
      shardsByRegion := shardsByRegion[region := shards + {shard}];
    }

    method Route(shard: ShardId, message: M) returns (plan: RoutePlan<M>)
      requires Valid()
      modifies this
      ensures Valid() && (Now(), plan) == Routed(old(Now()), shard, message)
    {
      hide Inverse, Total;
      if shard.name == "" {
        return Dropped(None, EmptyShardId, message);
      }
      var request := false;
      if shard in regionByShard {
        if regionByShard[shard] != selfRegion {
          return Forward(shard, regionByShard[shard], message);
        }
        if shard in localShards && shard !in shardBuffers {
          return DeliverLocal(shard, message);
        }
      } else {
        request := shard !in shardBuffers;
      }
      var kept := BufferMessage(shard, message);
      plan := if kept then Buffered(shard, request) else Dropped(Some(shard), BufferFull, message);
    }

    method HostShard(shard: ShardId) returns (plan: HostPlan<M>)
      requires Valid()
      modifies this
      ensures Valid() && (Now(), plan) == Hosted(old(Now()), shard)
    {
      hide Inverse;
      if gracefulShutdownInProgress {
        return IgnoredGracefulShutdown(shard);
      }
      AssignShard(shard, selfRegion);
      if shard in localShards {
        var buffered := DrainBuffer(shard);
        return AlreadyStarted(shard, buffered);
      }
      startingShards := startingShards + {shard};
      return StartLocalShard(shard);
    }

    method RecordShardHome(shard: ShardId, region: RegionId) returns (plan: Result<HomePlan<M>, RouteError>)
      requires Valid()
      modifies this
      ensures Valid() && (Now(), plan) == HomeRecorded(old(Now()), shard, region)
    {
      hide Inverse;
      if shard in handingOffShards {
        return Err(HomeDuringHandOff(shard, region));
      }
      if shard in regionByShard && regionByShard[shard] == selfRegion && region != selfRegion {
        return Err(InconsistentHome(shard, selfRegion, region));
      }
      AssignShard(shard, region);
      if region == selfRegion {
        if shard in localShards {
          var buffered := DrainBuffer(shard);
          return Ok(ReplayLocal(shard, buffered));
        }
        startingShards := startingShards + {shard};
        return Ok(StartHere(shard));
      }
      var buffered := DrainBuffer(shard);
      return Ok(ForwardAll(shard, region, buffered));
    }

    method MarkShardStarted(shard: ShardId) returns (buffered: seq<M>)
      requires Valid()
      modifies this
      ensures Valid() && (Now(), buffered) == ShardStarted(old(Now()), shard)
    {
      hide Inverse;
      startingShards := startingShards - {shard};
      localShards := localShards + {shard};
      AssignShard(shard, selfRegion);
      buffered := DrainBuffer(shard);
    }

    method BeginHandoff(shard: ShardId) returns (plan: BeginPlan)
      requires Valid()
      modifies this
      ensures Valid() && (Now(), plan) == HandoffBegun(old(Now()), shard)
    {
      hide Inverse;
      if preparingForShutdown {
        return IgnoredPreparing(shard);
      }
      UnassignShard(shard);
      return Ack(shard);
    }

    method Handoff(shard: ShardId) returns (plan: HandOffPlan)
      requires Valid()
      modifies this
      ensures Valid() && (Now(), plan) == HandedOff(old(Now()), shard)
    {
      hide Inverse;
      var dropped := DrainBuffer(shard);
      UnassignShard(shard);
      if shard in localShards {
        handingOffShards := handingOffShards + {shard};
        return ForwardToLocalShard(shard, |dropped|);
      }
      return ReplyShardStopped(shard, |dropped|);
    }

    method MarkShardStopped(shard: ShardId)
      requires Valid()
      modifies this
      ensures Valid() && Now() == ShardStopped(old(Now()), shard)
    {
      hide Inverse;
      localShards := localShards - {shard};
      startingShards := startingShards - {shard};
      handingOffShards := handingOffShards - {shard};
      UnassignShard(shard);
    }

    method MarkRegionStopped(region: RegionId) returns (shards: seq<ShardId>)
      requires Valid()
      modifies this
      ensures Valid() && (Now(), shards) == RegionStopped(old(Now()), region)
    {
      hide Inverse, HomedAt, Elements, Sorted;
      InverseDrop(regionByShard, shardsByRegion, region);
      if region !in shardsByRegion {
        return [];
      }
      ghost var homes := regionByShard;
      shards := Sorted(shardsByRegion[region]);
      shardsByRegion := shardsByRegion - {region};
      ListedAll(HomedAt(homes, region));
      RemoveNone(homes, shards);
      for i := 0 to |shards|
        invariant regionByShard == homes - Elements(shards[..i]) && shardsByRegion == old(shardsByRegion) - {region}
        invariant Now() == old(Now()).(homes := regionByShard)
      {
        RemoveNext(homes, shards, i);
        regionByShard := regionByShard - {shards[i]};
      }
    }
  }

  lemma ListedOnce(lengths: map<ShardId, nat>, order: seq<ShardId>)
    requires order == Sorted(lengths.Keys)
    ensures Elements(order) == lengths.Keys && |order| == |lengths| && Elements(order[..0]) <= lengths.Keys
    ensures SumAlong(Count, lengths, order[..0]) == 0
  {
  }

  lemma RemoveNext(homes: map<ShardId, RegionId>, shards: seq<ShardId>, i: nat)
    requires i < |shards|
    ensures homes - Elements(shards[..i + 1]) == homes - Elements(shards[..i]) - {shards[i]}
  {
    assert Elements(shards[..i + 1]) == Elements(shards[..i]) + {shards[i]};
  }

  lemma RemoveNone(homes: map<ShardId, RegionId>, shards: seq<ShardId>)
    ensures homes - Elements(shards[..0]) == homes
  {
  }

  lemma ListedAll(shards: set<ShardId>)
    ensures Elements(Sorted(shards)[..|Sorted(shards)|]) == shards
  {
  }

  lemma InverseRemove(homes: map<ShardId, RegionId>, shards: map<RegionId, set<ShardId>>, s: ShardId)
    requires Inverse(homes, shards) && s in homes
    ensures var r := homes[s];
      && r in shards
      && Inverse(homes - {s}, if shards[r] - {s} == {} then shards - {r} else shards[r := shards[r] - {s}])
  {
    var r := homes[s];
    assert s in HomedAt(homes, r);
    assert HomedAt(homes - {s}, r) == HomedAt(homes, r) - {s};
    forall q | q != r ensures HomedAt(homes - {s}, q) == HomedAt(homes, q) {
    }
  }

  lemma InverseAdd(homes: map<ShardId, RegionId>, shards: map<RegionId, set<ShardId>>, s: ShardId, r: RegionId)
    requires Inverse(homes, shards) && s !in homes
    ensures Inverse(homes[s := r], shards[r := (if r in shards then shards[r] else {}) + {s}])
  {
    var after := homes[s := r];
    assert s in HomedAt(after, r);
    assert HomedAt(after, r) == HomedAt(homes, r) + {s};
    forall q | q != r ensures HomedAt(after, q) == HomedAt(homes, q) {
    }
  }

  lemma InverseDrop(homes: map<ShardId, RegionId>, shards: map<RegionId, set<ShardId>>, r: RegionId)
    requires Inverse(homes, shards)
    ensures Inverse(homes - HomedAt(homes, r), shards - {r})
    ensures if r in shards then shards[r] == HomedAt(homes, r)
            else homes - HomedAt(homes, r) == homes && Sorted(HomedAt(homes, r)) == []
  {
    var after := homes - HomedAt(homes, r);
    assert HomedAt(after, r) == {};
    forall q | q != r ensures HomedAt(after, q) == HomedAt(homes, q) {
    }
  }
}
