/** The coordinator's table of shard homes: for every registered region the
    shards it owns in allocation order, and an index from shard to owner. */
module Allocation {
  import opened Ids
  import opened Loads

  datatype ShardingError =
    | NoShardRegions
    | UnknownRegion(region: RegionId)
    | RegionAlreadyRegistered(region: RegionId)
    | UnknownRegionProxy(proxy: RegionId)
    | RegionProxyAlreadyRegistered(proxy: RegionId)
    | UnknownShard(shard: ShardId)
    | ShardAlreadyAllocated(shard: ShardId)

  datatype Allocations = Allocations(
    regions: map<RegionId, seq<ShardId>>,
    homes: map<ShardId, RegionId>)

  const EMPTY := Allocations(map[], map[])

  /** Region lists are free of duplicates and the home index is exactly their inverse. */
  ghost predicate Consistent(a: Allocations) {
    && (forall r :: r in a.regions ==> Distinct(a.regions[r]))
    && (forall r, s :: r in a.regions && s in a.regions[r] ==> s in a.homes && a.homes[s] == r)
    && (forall s :: s in a.homes ==> a.homes[s] in a.regions && s in a.regions[a.homes[s]])
  }

  function Home(a: Allocations, s: ShardId): Option<RegionId> {
    if s in a.homes then Some(a.homes[s]) else None
  }

  function LoadsOf(a: Allocations): map<RegionId, nat> {
    map r | r in a.regions :: |a.regions[r]|
  }

  /** `xs` with every occurrence of `x` left out. */
  function Without(xs: seq<ShardId>, x: ShardId): (ys: seq<ShardId>)
    ensures forall y :: y in ys <==> y in xs && y != x
  {
    if xs == [] then []
    else if xs[0] == x then Without(xs[1..], x)
    else [xs[0]] + Without(xs[1..], x)
  }

  // ----- What each table operation means -----

  function WithRegion(a: Allocations, r: RegionId): Allocations {
    if r in a.regions then a else a.(regions := a.regions[r := []])
  }

  /** Forgets the given regions together with every home that names one of them. */
  function WithoutRegions(a: Allocations, rs: set<RegionId>): Allocations {
    Allocations(a.regions - rs, map s | s in a.homes && a.homes[s] !in rs :: a.homes[s])
  }

  /** Takes the shard out of every region list and out of the home index. */
  function Deallocated(a: Allocations, s: ShardId): Allocations {
    Allocations(map r | r in a.regions :: Without(a.regions[r], s), a.homes - {s})
  }

  /** Makes `r` the only owner of `s`, as its newest shard unless it was the owner already. */
  function Assigned(a: Allocations, r: RegionId, s: ShardId): Allocations
    requires r in a.regions
  {
    if Home(a, s) == Some(r) then a
    else
      var d := Deallocated(a, s);
      Allocations(d.regions[r := d.regions[r] + [s]], d.homes[s := r])
  }

  lemma {:induction false} WithoutDistinct(xs: seq<ShardId>, x: ShardId)
    requires Distinct(xs)
    ensures Distinct(Without(xs, x))
    ensures |Without(xs, x)| == if x in xs then |xs| - 1 else |xs|
  {
    if xs != [] {
      WithoutDistinct(xs[1..], x);
      assert xs[0] !in xs[1..];
    }
  }

  lemma {:induction false} WithoutAt(xs: seq<ShardId>, i: nat)
    requires Distinct(xs) && i < |xs|
    ensures Without(xs, xs[i]) == xs[..i] + xs[i + 1..]
  {
    if i == 0 {
      WithoutAbsent(xs[1..], xs[0]);
    } else {
      WithoutAt(xs[1..], i - 1);
      assert xs[0] != xs[i];
    }
  }

  lemma {:induction false} WithoutAbsent(xs: seq<ShardId>, x: ShardId)
    requires x !in xs
    ensures Without(xs, x) == xs
  {
    if xs != [] {
      WithoutAbsent(xs[1..], x);
    }
  }

  // ----- Every operation keeps the table consistent -----

  lemma WithRegionConsistent(a: Allocations, r: RegionId)
    requires Consistent(a)
    ensures Consistent(WithRegion(a, r))
    ensures WithRegion(a, r).homes == a.homes
  {
  }

  lemma WithoutRegionsConsistent(a: Allocations, rs: set<RegionId>)
    requires Consistent(a)
    ensures Consistent(WithoutRegions(a, rs))
  {
  }

  lemma DeallocatedLists(a: Allocations, s: ShardId, r: RegionId)
    requires Consistent(a) && r in a.regions
    ensures Distinct(Deallocated(a, s).regions[r])
    ensures s !in a.homes || a.homes[s] != r ==> Deallocated(a, s).regions[r] == a.regions[r]
  {
    WithoutDistinct(a.regions[r], s);
    if s !in a.regions[r] {
      WithoutAbsent(a.regions[r], s);
    }
  }

  lemma DeallocatedConsistent(a: Allocations, s: ShardId)
    requires Consistent(a)
    ensures Consistent(Deallocated(a, s))
    ensures forall r :: r in a.regions && (s !in a.homes || a.homes[s] != r) ==> Deallocated(a, s).regions[r] == a.regions[r]
  {
    forall r | r in a.regions
      ensures Distinct(Deallocated(a, s).regions[r])
      ensures s !in a.homes || a.homes[s] != r ==> Deallocated(a, s).regions[r] == a.regions[r]
    {
      DeallocatedLists(a, s, r);
    }
  }

  lemma DeallocatedAbsent(a: Allocations, s: ShardId)
    requires Consistent(a) && s !in a.homes
    ensures Deallocated(a, s) == a
  {
    DeallocatedConsistent(a, s);
  }

  /** Only the owner's list changes, at the one position that holds the shard. */
  lemma DeallocatedAt(a: Allocations, s: ShardId, i: nat)
    requires Consistent(a) && s in a.homes
    requires i < |a.regions[a.homes[s]]| && a.regions[a.homes[s]][i] == s
    ensures Deallocated(a, s) == Allocations(
      a.regions[a.homes[s] := a.regions[a.homes[s]][..i] + a.regions[a.homes[s]][i + 1..]], a.homes - {s})
  {
    WithoutAt(a.regions[a.homes[s]], i);
    DeallocatedConsistent(a, s);
  }

  lemma AssignedConsistent(a: Allocations, r: RegionId, s: ShardId)
    requires Consistent(a) && r in a.regions
    ensures Consistent(Assigned(a, r, s))
    ensures Assigned(a, r, s).homes == a.homes[s := r]
    ensures Assigned(a, r, s).regions.Keys == a.regions.Keys
  {
    if Home(a, s) == Some(r) {
      assert a.homes[s := r] == a.homes;
    } else {
      DeallocatedConsistent(a, s);
      PlaceConsistent(Deallocated(a, s), r, s);
      assert (a.homes - {s})[s := r] == a.homes[s := r];
    }
  }

  lemma PlaceConsistent(d: Allocations, r: RegionId, s: ShardId)
    requires Consistent(d) && r in d.regions && s !in d.homes
    ensures Consistent(Allocations(d.regions[r := d.regions[r] + [s]], d.homes[s := r]))
  {
    assert s !in d.regions[r];
  }

  // ----- Loads -----

  /** Removing a placed shard takes one off its owner's load and leaves every other load alone. */
  lemma DeallocatedLoads(a: Allocations, s: ShardId)
    requires Consistent(a) && s in a.homes
    ensures LoadsOf(a)[a.homes[s]] > 0
    ensures LoadsOf(Deallocated(a, s)) == LoadsOf(a)[a.homes[s] := LoadsOf(a)[a.homes[s]] - 1]
  {
    DeallocatedConsistent(a, s);
    WithoutDistinct(a.regions[a.homes[s]], s);
  }

  /** Placing an unplaced shard adds one to its new owner's load and leaves every other load alone. */
  lemma AssignedLoads(a: Allocations, r: RegionId, s: ShardId)
    requires Consistent(a) && r in a.regions && s !in a.homes
    ensures LoadsOf(Assigned(a, r, s)) == LoadsOf(a)[r := LoadsOf(a)[r] + 1]
  {
    DeallocatedConsistent(a, s);
  }

  /** The loads add up to the number of placed shards. */
  lemma {:induction false} LoadsTotal(a: Allocations)
    requires Consistent(a)
    ensures Sum(Count, LoadsOf(a)) == |a.homes|
    decreases |a.regions|
  {
    if a.regions == map[] {
      assert a.homes == map[];
    } else {
      var r :| r in a.regions;
      var b := WithoutRegions(a, {r});
      WithoutRegionsConsistent(a, {r});
      RegionsShrink(a, r);
      LoadsTotal(b);
      SumSplit(Count, LoadsOf(a), r);
      OwnedCount(a, r, b);
    }
  }

  lemma RegionsShrink(a: Allocations, r: RegionId)
    requires r in a.regions
    ensures |WithoutRegions(a, {r}).regions| < |a.regions|
    ensures LoadsOf(WithoutRegions(a, {r})) == LoadsOf(a) - {r}
  {
    assert (a.regions - {r}).Keys == a.regions.Keys - {r};
  }

  lemma OwnedCount(a: Allocations, r: RegionId, b: Allocations)
    requires Consistent(a) && r in a.regions && b == WithoutRegions(a, {r})
    ensures |a.homes| == |a.regions[r]| + |b.homes|
  {
    DistinctCardinality(a.regions[r]);
    OwnedSplit(a, r, b, Elements(a.regions[r]));
    DisjointCount(a.homes.Keys, Elements(a.regions[r]), b.homes.Keys);
  }

  lemma OwnedSplit(a: Allocations, r: RegionId, b: Allocations, mine: set<ShardId>)
    requires Consistent(a) && r in a.regions && b == WithoutRegions(a, {r}) && mine == Elements(a.regions[r])
    ensures a.homes.Keys == mine + b.homes.Keys && mine !! b.homes.Keys
  {
    forall s ensures s in a.homes <==> s in mine || s in b.homes {
    }
  }

  lemma DisjointCount(whole: set<ShardId>, part: set<ShardId>, rest: set<ShardId>)
    requires whole == part + rest && part !! rest
    ensures |whole| == |part| + |rest|
  {
  }

  /** An assigned shard is its new region's newest and keeps its place if it was there already; no other shard
      moves within a list, and only the shard itself leaves one. */
  lemma AssignedNewest(a: Allocations, r: RegionId, s: ShardId, q: RegionId)
    requires Consistent(a) && r in a.regions && q in a.regions
    ensures var list := Assigned(a, r, s).regions[q];
      && (Home(a, s) == Some(r) ==> list == a.regions[q])
      && (Home(a, s) != Some(r) && q == r ==> list == a.regions[q] + [s])
      && (Home(a, s) != Some(r) && q != r && Home(a, s) != Some(q) ==> list == a.regions[q])
      && (Home(a, s) != Some(r) && Home(a, s) == Some(q) ==>
            exists i :: 0 <= i < |a.regions[q]| && a.regions[q][i] == s && list == a.regions[q][..i] + a.regions[q][i + 1..])
  {
    hide Without;
    DeallocatedConsistent(a, s);
    if Home(a, s) == Some(q) && q != r {
      var i :| 0 <= i < |a.regions[q]| && a.regions[q][i] == s;
      WithoutAt(a.regions[q], i);
    }
  }

  // ----- The mutable table -----

  /** The first position at which `x` is listed. */
  method Position(xs: seq<ShardId>, x: ShardId) returns (index: nat)
    requires x in xs
    ensures index < |xs| && xs[index] == x && x !in xs[..index]
  {
    index := 0;
    while xs[index] != x
      invariant index < |xs| && x in xs[index..] && x !in xs[..index]
      decreases |xs| - index
    {
      index := index + 1;
    }
  }

  class ShardAllocations {
    var regions: map<RegionId, seq<ShardId>>
    var shardHomes: map<ShardId, RegionId>

    function View(): Allocations
      reads this
    {
      Allocations(regions, shardHomes)
    }

    ghost predicate Valid()
      reads this
    {
      Consistent(View())
    }

    constructor ()
      ensures Valid() && View() == EMPTY
    {
      regions, shardHomes := map[], map[];
    }

    /** Copies another table. */
    constructor Clone(from: ShardAllocations)
      requires from.Valid()
      ensures Valid() && View() == from.View()
    {
      regions, shardHomes := from.regions, from.shardHomes;
    }

    method InsertRegion(region: RegionId) returns (inserted: bool)
      requires Valid()
      modifies this
      ensures Valid() && View() == WithRegion(old(View()), region)
      ensures inserted <==> region !in old(regions)
    {
      inserted := region !in regions;
      if inserted {
        regions := regions[region := []];
      }
    }

    method RemoveRegion(region: RegionId) returns (owned: Option<seq<ShardId>>)
      requires Valid()
      modifies this
      ensures Valid() && View() == WithoutRegions(old(View()), {region})
      ensures owned == if region in old(regions) then Some(old(regions)[region]) else None
      ensures owned.None? ==> View() == old(View())
    {
      WithoutRegionsConsistent(View(), {region});
      if region !in regions {
        assert WithoutRegions(View(), {region}) == View();
        return None;
      }
      var shards := regions[region];
      regions := regions - {region};
      for i := 0 to |shards|
        invariant regions == old(regions) - {region}
        invariant shardHomes == old(shardHomes) - (set s | s in shards[..i])
      {
        assert shards[..i + 1] == shards[..i] + [shards[i]];
        shardHomes := shardHomes - {shards[i]};
      }
      assert shards[..|shards|] == shards;
      assert shardHomes == WithoutRegions(old(View()), {region}).homes;
      return Some(shards);
    }

    method AllocateShard(region: RegionId, shard: ShardId) returns (moved: Result<bool, ShardingError>)
      requires Valid()
      modifies this
      ensures Valid()
      ensures region in old(regions) ==> View() == Assigned(old(View()), region, shard)
      ensures region !in old(regions) ==> View() == old(View())
      ensures moved == if region !in old(regions) then Err(UnknownRegion(region))
                       else Ok(Home(old(View()), shard) != Some(region))
    {
      if region !in regions {
        return Err(UnknownRegion(region));
      }
      AssignedConsistent(View(), region, shard);
      if shard in shardHomes && shardHomes[shard] == region {
        return Ok(false);
      }
      var _ := DeallocateShard(shard);
      regions := regions[region := regions[region] + [shard]];
      shardHomes := shardHomes[shard := region];
      return Ok(true);
    }

    method DeallocateShard(shard: ShardId) returns (owner: Option<RegionId>)
      requires Valid()
      modifies this
      ensures Valid() && View() == Deallocated(old(View()), shard)
      ensures owner == Home(old(View()), shard)
      ensures owner.None? ==> View() == old(View())
    {
      hide Deallocated;
      DeallocatedConsistent(View(), shard);
      if shard !in shardHomes {
        DeallocatedAbsent(View(), shard);
        return None;
      }
      var region := shardHomes[shard];
      var shards := regions[region];
      var index := Position(shards, shard);
      DeallocatedAt(View(), shard, index);
      shardHomes := shardHomes - {shard};
      regions := regions[region := shards[..index] + shards[index + 1..]];
      return Some(region);
    }
  }
}
