/** Homes for remembered shards: what one pass over the waiting shards achieves
    under the least-shards policy. */
module RememberedHomes {
  import opened Ids
  import opened Loads
  import opened Allocation
  import opened LeastShards
  import opened Rebalancing
  import opened Coordinator
  import opened CoordinatorDecisions

  /** Requests can be served: the gate is open and some region accepts shards. */
  ghost predicate Serving(rt: Runtime) {
    WellFormed(rt.state) && rt.gateOpen && |Active(rt).regions| > 0
  }

  /** A region is left alone or filled to at most the even share of the final table. */
  ghost predicate EvenShare(before: Allocations, after: Allocations) {
    && after.regions.Keys == before.regions.Keys && |after.regions| > 0
    && |before.homes| <= |after.homes|
    && forall r :: r in after.regions ==>
         || |after.regions[r]| == |before.regions[r]|
         || |after.regions[r]| <= DivCeil(|after.homes|, |after.regions|)
  }

  /** The effect of serving the waiting shards `shards`. */
  ghost predicate Served(rt: Runtime, end: Runtime, shards: set<ShardId>) {
    && Serving(end)
    && end.rebalancing.Keys == rt.rebalancing.Keys
    && end.draining == rt.draining && end.terminating == rt.terminating
    && end.state.remember == rt.state.remember
    && end.state.unallocated == rt.state.unallocated - (shards - rt.rebalancing.Keys)
    && end.state.alloc.homes.Keys == rt.state.alloc.homes.Keys + (shards - rt.rebalancing.Keys)
    && (forall s :: s in rt.state.alloc.homes ==> end.state.alloc.homes[s] == rt.state.alloc.homes[s])
    && EvenShare(Active(rt), Active(end))
  }

  lemma Cancel(p: int, q: int, y: nat)
    requires y > 0 && p * y < q * y
    ensures p < q
  {
    assert (q - p) * y == q * y - p * y;
  }

  lemma CeilMonotone(x: nat, z: nat, y: nat)
    requires y > 0 && x <= z
    ensures DivCeil(x, y) <= DivCeil(z, y)
  {
    hide DivCeil;
    DivCeilBounds(x, y);
    DivCeilBounds(z, y);
    if x > 0 {
      Cancel(DivCeil(x, y) - 1, DivCeil(z, y), y);
    } else {
      CeilZero(y);
    }
  }

  lemma CeilZero(y: nat)
    requires y > 0
    ensures DivCeil(0, y) == 0
  {
  }

  lemma EvenShareTransitive(a: Allocations, b: Allocations, c: Allocations)
    requires EvenShare(a, b) && EvenShare(b, c)
    ensures EvenShare(a, c)
  {
    CeilMonotone(|b.homes|, |c.homes|, |c.regions|);
    assert |b.regions.Keys| == |c.regions.Keys|;
  }

  /** Excluding regions commutes with placing a new shard elsewhere. */
  lemma PlaceElsewhere(a: Allocations, rs: set<RegionId>, r: RegionId, s: ShardId)
    requires Consistent(a) && r in a.regions && r !in rs && s !in a.homes
    ensures WithoutRegions(Assigned(a, r, s), rs) == Assigned(WithoutRegions(a, rs), r, s)
  {
    hide Consistent;
    DeallocatedAbsent(a, s);
    WithoutRegionsConsistent(a, rs);
    DeallocatedAbsent(WithoutRegions(a, rs), s);
  }

  /** The lightest region has at most an even share. */
  lemma LightestShare(a: Allocations, r: RegionId)
    requires Consistent(a) && IsLightest(LoadsOf(a), a.regions.Keys, r)
    ensures |a.regions[r]| * |a.regions| <= |a.homes|
  {
    var level := |a.regions[r]|;
    forall q | q in LoadsOf(a) ensures Weigh(Below(level), LoadsOf(a)[q]) == 0 {
      LightestBound(a, r, q);
    }
    SumZero(Below(level), LoadsOf(a));
    TableBalance(a, level);
  }

  lemma PlaceEvenly(a: Allocations, r: RegionId, s: ShardId)
    requires Consistent(a) && s !in a.homes && IsLightest(LoadsOf(a), a.regions.Keys, r)
    ensures r in a.regions && EvenShare(a, Assigned(a, r, s))
  {
    hide Consistent, DivCeil, Assigned;
    var b := Assigned(a, r, s);
    LightestShare(a, r);
    AssignedConsistent(a, r, s);
    AssignedLoads(a, r, s);
    assert |b.regions.Keys| == |a.regions.Keys|;
    assert b.homes.Keys == a.homes.Keys + {s};
    assert |b.homes.Keys| == |a.homes.Keys| + 1;
    Share(|a.regions[r]|, |a.regions|, |b.homes|);
    forall q | q in b.regions
      ensures |b.regions[q]| == |a.regions[q]| || |b.regions[q]| <= DivCeil(|b.homes|, |b.regions|)
    {
      assert |b.regions[q]| == LoadsOf(b)[q];
    }
  }

  lemma Share(m: nat, n: nat, h: nat)
    requires n > 0 && m * n < h
    ensures m + 1 <= DivCeil(h, n)
  {
    hide DivCeil;
    DivCeilBounds(h, n);
    Cancel(m, DivCeil(h, n), n);
  }

  /** A waiting shard that is not being handed off gets the lightest active region as its home. */
  lemma ServeWaiting(rt: Runtime, limits: Limits, requester: RegionId, s: ShardId)
    requires Serving(rt) && s in rt.state.unallocated && s !in rt.rebalancing
    ensures var (end, plan) := HomeRequested(rt, Policy(limits), requester, s);
      && plan.Ok? && plan.value.Allocated?
      && Served(rt, end, {s})
  {
    hide Consistent, Allocate, Active, Served;
    var r := Allocate(Active(rt)).value;
    assert Policy(limits).allocate(requester, s, Active(rt)) == Ok(r);
    PlacedServed(rt, r, s);
  }

  lemma PlacedServed(rt: Runtime, r: RegionId, s: ShardId)
    requires Serving(rt) && s in rt.state.unallocated && s !in rt.rebalancing
    requires r in Active(rt).regions && IsLightest(LoadsOf(Active(rt)), Active(rt).regions.Keys, r)
    ensures Served(rt, rt.(state := Next(rt.state, HomeAllocated(s, r))), {s})
  {
    hide Consistent, Assigned, WithoutRegions, EvenShare, IsLightest, LoadsOf;
    ActiveConsistent(rt);
    var end := rt.(state := Next(rt.state, HomeAllocated(s, r)));
    NextWellFormed(rt.state, HomeAllocated(s, r));
    AssignedConsistent(rt.state.alloc, r, s);
    PlaceElsewhere(rt.state.alloc, rt.draining + rt.terminating, r, s);
    assert Active(end) == Assigned(Active(rt), r, s);
    PlaceEvenly(Active(rt), r, s);
    EvenShareRegions(Active(rt), Active(end));
  }

  lemma EvenShareRegions(a: Allocations, b: Allocations)
    requires EvenShare(a, b)
    ensures |b.regions| > 0
  {
    hide DivCeil;
  }

  lemma ActiveConsistent(rt: Runtime)
    requires WellFormed(rt.state)
    ensures Consistent(Active(rt)) && Active(rt).homes.Keys <= rt.state.alloc.homes.Keys
    ensures Active(rt).regions.Keys == rt.state.alloc.regions.Keys - (rt.draining + rt.terminating)
  {
    WithoutRegionsConsistent(rt.state.alloc, rt.draining + rt.terminating);
  }

  /** A shard that is being handed off keeps waiting; its requester is deferred. */
  lemma ServeBusy(rt: Runtime, limits: Limits, requester: RegionId, s: ShardId)
    requires Serving(rt) && s in rt.rebalancing
    ensures var (end, plan) := HomeRequested(rt, Policy(limits), requester, s);
      && plan == Ok(Deferred(s, requester))
      && Served(rt, end, {s})
  {
    hide WellFormed, WithoutRegions, Policy;
    EvenShareSelf(Active(rt));
  }

  lemma EvenShareSelf(a: Allocations)
    requires |a.regions| > 0
    ensures EvenShare(a, a)
  {
    hide DivCeil;
  }

  lemma ServedTransitive(a: Runtime, b: Runtime, c: Runtime, xs: set<ShardId>, ys: set<ShardId>)
    requires Served(a, b, xs) && Served(b, c, ys)
    ensures Served(a, c, xs + ys)
  {
    hide EvenShare, Serving, Active;
    EvenShareTransitive(Active(a), Active(b), Active(c));
    assert xs + ys - a.rebalancing.Keys == (xs - a.rebalancing.Keys) + (ys - a.rebalancing.Keys);
  }

  lemma ServedNone(rt: Runtime)
    requires Serving(rt)
    ensures Served(rt, rt, {})
  {
  }

  lemma {:induction false} ServeAll(rt: Runtime, limits: Limits, requester: RegionId, shards: seq<ShardId>)
    requires Serving(rt) && Distinct(shards)
    requires forall s :: s in shards ==> s in rt.state.unallocated
    ensures var (end, plans) := HomesRequested(rt, Policy(limits), requester, shards);
      plans.Ok? && |plans.value| == |shards| && Served(rt, end, Elements(shards))
    decreases |shards|
  {
    hide Serving, Active, EvenShare, HomeRequested, Policy;
    if shards == [] {
      ServedNone(rt);
    } else {
      var s := shards[0];
      var (mid, plan) := HomeRequested(rt, Policy(limits), requester, s);
      assert s in shards;
      if s in rt.rebalancing {
        ServeBusy(rt, limits, requester, s);
      } else {
        ServeWaiting(rt, limits, requester, s);
      }
      forall x | x in shards[1..] ensures x in mid.state.unallocated {
        assert x in shards && x != s;
      }
      ServeAll(mid, limits, requester, shards[1..]);
      var (end, plans) := HomesRequested(mid, Policy(limits), requester, shards[1..]);
      ServedTransitive(rt, mid, end, {s}, Elements(shards[1..]));
      assert Elements(shards) == {s} + Elements(shards[1..]);
    }
  }

  /** One pass places every waiting shard that is not being handed off, disturbs no existing
      home, never fails, and fills no active region beyond its old load or the even share. */
  lemma RememberedHomesPlaced(rt: Runtime, limits: Limits, requester: RegionId)
    requires Serving(rt)
    ensures var (end, plans) := RememberedAllocated(rt, Policy(limits), requester);
      && plans.Ok?
      && end.state.unallocated == rt.state.unallocated * rt.rebalancing.Keys
      && end.state.alloc.homes.Keys == rt.state.alloc.homes.Keys + (rt.state.unallocated - rt.rebalancing.Keys)
      && (forall s :: s in rt.state.alloc.homes ==> end.state.alloc.homes[s] == rt.state.alloc.homes[s])
      && EvenShare(Active(rt), Active(end))
  {
    hide Active, EvenShare, HomesRequested, Policy;
    if rt.state.remember {
      var order := Sorted(rt.state.unallocated);
      IncreasingDistinct(order);
      ServeAll(rt, limits, requester, order);
      assert Elements(order) == rt.state.unallocated;
    } else {
      ServedNone(rt);
    }
  }
}
