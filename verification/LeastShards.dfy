/** The least-shards policy: where a new shard goes and which shards a
    rebalance round moves. */
module LeastShards {
  import opened Ids
  import opened Loads
  import opened Allocation

  /** A placement policy as the coordinator sees it: two decisions over a snapshot of the table. */
  datatype Strategy = Strategy(
    allocate: (RegionId, ShardId, Allocations) -> Result<RegionId, ShardingError>,
    rebalance: (Allocations, set<ShardId>) -> Result<set<ShardId>, ShardingError>)

  datatype Limits = Limits(absolute: nat, relative: real)

  function Min(x: int, y: int): int {
    if x < y then x else y
  }

  /** The most shards one round may move. */
  function RebalanceLimit(limits: Limits, shardCount: nat): (n: nat)
    ensures n >= 1
    ensures n > 1 ==> n <= limits.absolute && n as real <= limits.relative * shardCount as real
    ensures n < limits.absolute ==> limits.relative * shardCount as real < (n + 1) as real
  {
    var relative := (limits.relative * shardCount as real).Floor;
    var n := Min(limits.absolute, relative);
    if n < 1 then 1 else n
  }

  // ----- Order of regions by load -----

  /** `x` comes before `y`: fewer shards, and on a tie the smaller identifier. */
  predicate Lighter(loads: map<RegionId, nat>, x: RegionId, y: RegionId)
    requires x in loads && y in loads
  {
    loads[x] < loads[y] || (loads[x] == loads[y] && Before(x, y))
  }

  predicate IsLightest(loads: map<RegionId, nat>, rs: set<RegionId>, x: RegionId)
    requires rs <= loads.Keys
  {
    x in rs && forall y :: y in rs && y != x ==> Lighter(loads, x, y)
  }

  lemma LighterTotal(loads: map<RegionId, nat>, x: RegionId, y: RegionId)
    requires x in loads && y in loads && x != y
    ensures Lighter(loads, x, y) || Lighter(loads, y, x)
    ensures !(Lighter(loads, x, y) && Lighter(loads, y, x))
  {
    LessTrichotomy(x.name, y.name);
  }

  lemma LighterTransitive(loads: map<RegionId, nat>, x: RegionId, y: RegionId, z: RegionId)
    requires x in loads && y in loads && z in loads
    requires Lighter(loads, x, y) && Lighter(loads, y, z)
    ensures Lighter(loads, x, z)
  {
    if loads[x] == loads[y] == loads[z] {
      LessTransitive(x.name, y.name, z.name);
    }
  }

  /** The lightest of `rs`, found by one pass in identifier order that keeps the best so far. */
  function Lightest(loads: map<RegionId, nat>, rs: seq<RegionId>): (x: RegionId)
    requires rs != [] && Elements(rs) <= loads.Keys
    ensures IsLightest(loads, Elements(rs), x)
  {
    var last := rs[|rs| - 1];
    var rest := rs[..|rs| - 1];
    if rest == [] then
      assert Elements(rs) == {last};
      last
    else
      assert Elements(rs) == Elements(rest) + {last};
      var x := Lightest(loads, rest);
      if last != x && Lighter(loads, last, x) then
        assert IsLightest(loads, Elements(rs), last) by {
          forall y | y in Elements(rs) && y != last ensures Lighter(loads, last, y) {
            if y != x { LighterTransitive(loads, last, x, y); }
          }
        }
        last
      else
        assert last == x || Lighter(loads, x, last) by {
          if last != x { LighterTotal(loads, x, last); }
        }
        x
  }

  /** The home least-shards gives to a new shard. */
  function Allocate(a: Allocations): (home: Result<RegionId, ShardingError>)
    ensures home.Ok? <==> a.regions != map[]
    ensures home.Ok? ==> IsLightest(LoadsOf(a), a.regions.Keys, home.value)
    ensures home.Err? ==> home.error == NoShardRegions
  {
    if a.regions == map[] then Err(NoShardRegions)
    else
      var rs := Sorted(a.regions.Keys);
      assert Elements(rs) == a.regions.Keys;
      Ok(Lightest(LoadsOf(a), rs))
  }

  ghost predicate Ordered(loads: map<RegionId, nat>, order: seq<RegionId>)
    requires Elements(order) <= loads.Keys
  {
    forall i, j :: 0 <= i < j < |order| ==> Lighter(loads, order[i], order[j])
  }

  /** All of `rs` ordered from lightest to heaviest. */
  function ByLoad(loads: map<RegionId, nat>, rs: set<RegionId>): (order: seq<RegionId>)
    requires rs <= loads.Keys
    ensures Elements(order) == rs && |order| == |rs|
    ensures Ordered(loads, order)
  {
    if rs == {} then []
    else
      var ids := Sorted(rs);
      assert Elements(ids) == rs;
      var x := Lightest(loads, ids);
      var rest := ByLoad(loads, rs - {x});
      assert Elements([x] + rest) == rs && Ordered(loads, [x] + rest) by {
        LightestFirst(loads, rs, x, rest);
      }
      [x] + rest
  }

  lemma LightestFirst(loads: map<RegionId, nat>, rs: set<RegionId>, x: RegionId, rest: seq<RegionId>)
    requires rs <= loads.Keys && IsLightest(loads, rs, x)
    requires Elements(rest) == rs - {x} && Ordered(loads, rest)
    ensures Elements([x] + rest) == rs && Ordered(loads, [x] + rest)
  {
    assert Elements([x] + rest) == {x} + Elements(rest);
    var order := [x] + rest;
    forall i, j | 0 <= i < j < |order|
      ensures order[i] in loads && order[j] in loads && Lighter(loads, order[i], order[j])
    {
      assert order[j] == rest[j - 1] && order[j] in Elements(rest);
      if i > 0 {
        assert order[i] == rest[i - 1] && order[i] in Elements(rest);
      }
    }
  }

  // ----- Which shards a round moves -----

  function DivCeil(x: nat, y: nat): nat
    requires y > 0
  {
    (x + y - 1) / y
  }

  function Take<T>(xs: seq<T>, n: nat): seq<T> {
    if n < |xs| then xs[..n] else xs
  }

  /** The oldest shards of every region that has more than `optimal` of them. */
  function Surplus(a: Allocations, order: seq<RegionId>, optimal: nat): seq<ShardId>
    requires Elements(order) <= a.regions.Keys
  {
    if order == [] then []
    else
      var last := order[|order| - 1];
      var rest := order[..|order| - 1];
      assert last in Elements(order) && Elements(rest) <= Elements(order);
      var shards := a.regions[last];
      Surplus(a, rest, optimal) + if |shards| > optimal then shards[..|shards| - optimal] else []
  }

  /** The oldest shard of every region that has at least `optimal` of them. */
  function Oldest(a: Allocations, order: seq<RegionId>, optimal: nat): seq<ShardId>
    requires Elements(order) <= a.regions.Keys
  {
    if order == [] then []
    else
      var last := order[|order| - 1];
      var rest := order[..|order| - 1];
      assert last in Elements(order) && Elements(rest) <= Elements(order);
      var shards := a.regions[last];
      Oldest(a, rest, optimal) + if |shards| >= optimal && shards != [] then [shards[0]] else []
  }

  /** Drain regions above the optimal load first; only when there are none, fill the regions
      more than one below it from the fullest ones. */
  function Chosen(a: Allocations, order: seq<RegionId>, optimal: nat, limit: nat): set<ShardId>
    requires Elements(order) <= a.regions.Keys
  {
    var surplus := Surplus(a, order, optimal);
    if surplus != [] then Elements(Take(surplus, limit))
    else
      var missing := SumAlong(Below(Lower(optimal)), LoadsOf(a), order);
      if missing == 0 then {}
      else Elements(Take(Oldest(a, order, optimal), Min(missing, limit)))
  }

  function Lower(n: nat): nat {
    if n > 0 then n - 1 else 0
  }

  /** The shards one rebalance round hands off. */
  function Selected(limits: Limits, a: Allocations, inProgress: set<ShardId>): set<ShardId> {
    if inProgress != {} || |a.homes| == 0 || |a.regions| == 0 then {}
    else
      Chosen(a, ByLoad(LoadsOf(a), a.regions.Keys), DivCeil(|a.homes|, |a.regions|), RebalanceLimit(limits, |a.homes|))
  }

  method Rebalance(limits: Limits, current: ShardAllocations, inProgress: set<ShardId>)
    returns (selected: Result<set<ShardId>, ShardingError>)
    requires current.Valid()
    ensures selected == Ok(Selected(limits, current.View(), inProgress))
  {
    if inProgress != {} {
      return Ok({});
    }
    var a := current.View();
    var shardCount, regionCount := |a.homes|, |a.regions|;
    if shardCount == 0 || regionCount == 0 {
      return Ok({});
    }
    var optimal := DivCeil(shardCount, regionCount);
    var limit := RebalanceLimit(limits, shardCount);
    var entries := ByLoad(LoadsOf(a), a.regions.Keys);
    var chosen := Choose(a, entries, optimal, limit);
    return Ok(chosen);
  }

  method Choose(a: Allocations, entries: seq<RegionId>, optimal: nat, limit: nat) returns (chosen: set<ShardId>)
    requires Elements(entries) <= a.regions.Keys
    ensures chosen == Chosen(a, entries, optimal, limit)
  {
    var surplus := CollectSurplus(a, entries, optimal);
    if surplus != [] {
      return Elements(Take(surplus, limit));
    }
    var missing := CountBelow(LoadsOf(a), entries, Lower(optimal));
    if missing == 0 {
      return {};
    }
    var oldest := CollectOldest(a, entries, optimal);
    return Elements(Take(oldest, Min(missing, limit)));
  }

  method CollectSurplus(a: Allocations, entries: seq<RegionId>, optimal: nat) returns (surplus: seq<ShardId>)
    requires Elements(entries) <= a.regions.Keys
    ensures surplus == Surplus(a, entries, optimal)
  {
    surplus := [];
    for i := 0 to |entries|
      invariant Elements(entries[..i]) <= a.regions.Keys
      invariant surplus == Surplus(a, entries[..i], optimal)
    {
      Extend(entries, i);
      var shards := a.regions[entries[i]];
      if |shards| > optimal {
        surplus := surplus + shards[..|shards| - optimal];
      }
    }
    assert entries[..|entries|] == entries;
  }

  method CountBelow(loads: map<RegionId, nat>, entries: seq<RegionId>, level: nat) returns (missing: nat)
    requires Elements(entries) <= loads.Keys
    ensures missing == SumAlong(Below(level), loads, entries)
  {
    missing := 0;
    for i := 0 to |entries|
      invariant Elements(entries[..i]) <= loads.Keys
      invariant missing == SumAlong(Below(level), loads, entries[..i])
    {
      Extend(entries, i);
      if loads[entries[i]] < level {
        missing := missing + (level - loads[entries[i]]);
      }
    }
    assert entries[..|entries|] == entries;
  }

  method CollectOldest(a: Allocations, entries: seq<RegionId>, optimal: nat) returns (oldest: seq<ShardId>)
    requires Elements(entries) <= a.regions.Keys
    ensures oldest == Oldest(a, entries, optimal)
  {
    oldest := [];
    for i := 0 to |entries|
      invariant Elements(entries[..i]) <= a.regions.Keys
      invariant oldest == Oldest(a, entries[..i], optimal)
    {
      Extend(entries, i);
      var shards := a.regions[entries[i]];
      if |shards| >= optimal && shards != [] {
        oldest := oldest + [shards[0]];
      }
    }
    assert entries[..|entries|] == entries;
  }

  lemma Extend(xs: seq<RegionId>, i: nat)
    requires i < |xs|
    ensures xs[..i + 1] == xs[..i] + [xs[i]] && xs[..i + 1][..i] == xs[..i]
    ensures Elements(xs[..i + 1]) == Elements(xs[..i]) + {xs[i]} && Elements(xs[..i + 1]) <= Elements(xs)
  {
  }

  function Policy(limits: Limits): Strategy {
    Strategy(
      (requester: RegionId, shard: ShardId, a: Allocations) => Allocate(a),
      (a: Allocations, inProgress: set<ShardId>) => Ok(Selected(limits, a, inProgress)))
  }
}
