/** What least-shards rebalancing achieves: when it acts, how far it may drain a
    region, and why repeated rounds end with balanced regions. */
module Rebalancing {
  import opened Ids
  import opened Loads
  import opened Allocation
  import opened LeastShards

  /** No region has more than one shard more than another. */
  ghost predicate Balanced(a: Allocations) {
    forall r, q :: r in a.regions && q in a.regions ==> |a.regions[r]| <= |a.regions[q]| + 1
  }

  /** The shards of `moving` that currently live in `r`. */
  ghost function Leaving(a: Allocations, moving: set<ShardId>, r: RegionId): set<ShardId> {
    set s | s in moving && Home(a, s) == Some(r)
  }

  /** Shards still to be moved never drain their region below `level`, and the regions below
      `level` have room for all of them and for `homeless` more. */
  ghost predicate Movable(a: Allocations, moving: set<ShardId>, homeless: nat, level: nat) {
    && Consistent(a)
    && moving <= a.homes.Keys
    && (forall r :: r in a.regions && Leaving(a, moving, r) != {} ==>
          |a.regions[r]| >= |Leaving(a, moving, r)| + level)
    && |moving| + homeless <= Sum(Below(level), LoadsOf(a))
  }

  // ----- The selection -----

  lemma DivCeilBounds(x: nat, y: nat)
    requires y > 0
    ensures x <= DivCeil(x, y) * y
    ensures x > 0 ==> DivCeil(x, y) > 0 && (DivCeil(x, y) - 1) * y < x
  {
    var q := (x + y - 1) / y;
    assert x + y - 1 == q * y + (x + y - 1) % y;
    assert (q - 1) * y == q * y - y;
    assert q <= 0 ==> q * y <= 0;
  }

  lemma {:induction false} SurplusLength(a: Allocations, order: seq<RegionId>, optimal: nat)
    requires Elements(order) <= a.regions.Keys
    ensures |Surplus(a, order, optimal)| == SumAlong(Above(optimal), LoadsOf(a), order)
  {
    if order != [] {
      assert order[|order| - 1] in Elements(order);
      var rest := order[..|order| - 1];
      assert Elements(rest) <= Elements(order);
      SurplusLength(a, rest, optimal);
    }
  }

  lemma {:induction false} SurplusPicks(a: Allocations, order: seq<RegionId>, optimal: nat, s: ShardId)
    requires Consistent(a) && Elements(order) <= a.regions.Keys
    requires s in Surplus(a, order, optimal)
    ensures s in a.homes && a.homes[s] in order && |a.regions[a.homes[s]]| > optimal
    ensures s in a.regions[a.homes[s]][..|a.regions[a.homes[s]]| - optimal]
  {
    var last := order[|order| - 1];
    var rest := order[..|order| - 1];
    assert last in Elements(order) && Elements(rest) <= Elements(order);
    if s in Surplus(a, rest, optimal) {
      SurplusPicks(a, rest, optimal, s);
    } else {
      assert s in a.regions[last];
    }
  }

  lemma {:induction false} OldestPicks(a: Allocations, order: seq<RegionId>, optimal: nat, s: ShardId)
    requires Consistent(a) && Elements(order) <= a.regions.Keys
    requires s in Oldest(a, order, optimal)
    ensures s in a.homes && a.homes[s] in order
    ensures |a.regions[a.homes[s]]| >= optimal && s == a.regions[a.homes[s]][0]
  {
    var last := order[|order| - 1];
    var rest := order[..|order| - 1];
    assert last in Elements(order) && Elements(rest) <= Elements(order);
    if s in Oldest(a, rest, optimal) {
      OldestPicks(a, rest, optimal, s);
    } else {
      assert s in a.regions[last];
    }
  }

  lemma {:induction false} OldestFound(a: Allocations, order: seq<RegionId>, optimal: nat, r: RegionId)
    requires Elements(order) <= a.regions.Keys && r in order
    requires 0 < optimal <= |a.regions[r]|
    ensures Oldest(a, order, optimal) != []
  {
    var last := order[|order| - 1];
    var rest := order[..|order| - 1];
    assert last in Elements(order) && Elements(rest) <= Elements(order);
    if r != last {
      OldestFound(a, rest, optimal, r);
    }
  }

  lemma TakeWithin<T>(xs: seq<T>, n: nat)
    ensures forall x :: x in Take(xs, n) ==> x in xs
    ensures |Elements(Take(xs, n))| <= n && |Elements(Take(xs, n))| <= |xs|
    ensures n > 0 && xs != [] ==> Elements(Take(xs, n)) != {}
  {
    ElementsBound(Take(xs, n));
    if n > 0 && xs != [] {
      assert Take(xs, n)[0] in Elements(Take(xs, n));
    }
  }

  /** Level, shard count and region count that describe the table a round starts from. */
  ghost predicate Loaded(a: Allocations, order: seq<RegionId>, optimal: nat) {
    && Consistent(a) && |a.homes| > 0 && |a.regions| > 0
    && Elements(order) == a.regions.Keys && |order| == |a.regions|
    && optimal > 0
    && (optimal - 1) * |a.regions| < |a.homes| <= optimal * |a.regions|
  }

  lemma LoadsCount(a: Allocations, order: seq<RegionId>, w: Weight)
    requires Elements(order) == a.regions.Keys && |order| == |a.regions|
    ensures SumAlong(w, LoadsOf(a), order) == Sum(w, LoadsOf(a))
    ensures |LoadsOf(a)| == |a.regions|
  {
    assert LoadsOf(a).Keys == a.regions.Keys;
    assert |LoadsOf(a)| == |LoadsOf(a).Keys| == |a.regions.Keys|;
    SumAlongAll(w, LoadsOf(a), order);
  }

  /** Balance equation of the table at a level. */
  lemma TableBalance(a: Allocations, level: nat)
    requires Consistent(a)
    ensures |a.homes| + Sum(Below(level), LoadsOf(a)) == level * |a.regions| + Sum(Above(level), LoadsOf(a))
  {
    LoadsTotal(a);
    SumBalance(level, LoadsOf(a));
    assert LoadsOf(a).Keys == a.regions.Keys;
  }

  lemma SurplusRoom(a: Allocations, order: seq<RegionId>, optimal: nat)
    requires Loaded(a, order, optimal)
    ensures |Surplus(a, order, optimal)| == Sum(Above(optimal), LoadsOf(a)) <= Sum(Below(optimal), LoadsOf(a))
  {
    SurplusLength(a, order, optimal);
    LoadsCount(a, order, Above(optimal));
    TableBalance(a, optimal);
  }

  lemma SurplusMovable(a: Allocations, order: seq<RegionId>, optimal: nat, limit: nat)
    requires Loaded(a, order, optimal)
    ensures Movable(a, Elements(Take(Surplus(a, order, optimal), limit)), 0, optimal)
  {
    var surplus := Surplus(a, order, optimal);
    var moving := Elements(Take(surplus, limit));
    TakeWithin(surplus, limit);
    SurplusRoom(a, order, optimal);
    forall s | s in moving ensures s in a.homes {
      SurplusPicks(a, order, optimal, s);
    }
    forall r | r in a.regions && Leaving(a, moving, r) != {}
      ensures |a.regions[r]| >= |Leaving(a, moving, r)| + optimal
    {
      SurplusLeaves(a, order, optimal, moving, r);
    }
  }

  lemma SurplusLeaves(a: Allocations, order: seq<RegionId>, optimal: nat, moving: set<ShardId>, r: RegionId)
    requires Consistent(a) && Elements(order) <= a.regions.Keys && r in a.regions
    requires forall s :: s in moving ==> s in Surplus(a, order, optimal)
    requires Leaving(a, moving, r) != {}
    ensures |a.regions[r]| >= |Leaving(a, moving, r)| + optimal
  {
    var leaving := Leaving(a, moving, r);
    var any :| any in leaving;
    SurplusPicks(a, order, optimal, any);
    var front := a.regions[r][..|a.regions[r]| - optimal];
    forall s | s in leaving ensures s in Elements(front) {
      SurplusPicks(a, order, optimal, s);
    }
    ElementsBound(front);
    Subset(leaving, Elements(front));
  }

  lemma {:induction false} Subset<T>(x: set<T>, y: set<T>)
    requires x <= y
    ensures |x| <= |y|
  {
    if x != {} {
      var e :| e in x;
      Subset(x - {e}, y - {e});
    }
  }

  lemma OldestMovable(a: Allocations, order: seq<RegionId>, optimal: nat, limit: nat)
    requires Loaded(a, order, optimal)
    ensures var missing := SumAlong(Below(optimal - 1), LoadsOf(a), order);
      Movable(a, Elements(Take(Oldest(a, order, optimal), Min(missing, limit))), 0, optimal - 1)
  {
    var missing := SumAlong(Below(optimal - 1), LoadsOf(a), order);
    var oldest := Oldest(a, order, optimal);
    var moving := Elements(Take(oldest, Min(missing, limit)));
    TakeWithin(oldest, Min(missing, limit));
    LoadsCount(a, order, Below(optimal - 1));
    forall s | s in moving ensures s in a.homes {
      OldestPicks(a, order, optimal, s);
    }
    forall r | r in a.regions && Leaving(a, moving, r) != {}
      ensures |a.regions[r]| >= |Leaving(a, moving, r)| + (optimal - 1)
    {
      OldestLeaves(a, order, optimal, moving, r);
    }
  }

  lemma OldestLeaves(a: Allocations, order: seq<RegionId>, optimal: nat, moving: set<ShardId>, r: RegionId)
    requires Consistent(a) && Elements(order) <= a.regions.Keys && r in a.regions
    requires forall s :: s in moving ==> s in Oldest(a, order, optimal)
    requires Leaving(a, moving, r) != {}
    ensures |Leaving(a, moving, r)| == 1 && |a.regions[r]| >= optimal
  {
    var leaving := Leaving(a, moving, r);
    var any :| any in leaving;
    OldestPicks(a, order, optimal, any);
    forall s | s in leaving ensures s == any {
      OldestPicks(a, order, optimal, s);
    }
    assert leaving == {any};
  }

  lemma StartLoaded(a: Allocations)
    requires Consistent(a) && |a.homes| > 0 && |a.regions| > 0
    ensures Loaded(a, ByLoad(LoadsOf(a), a.regions.Keys), DivCeil(|a.homes|, |a.regions|))
  {
    DivCeilBounds(|a.homes|, |a.regions|);
  }

  /** A selection is movable at a level no lower than one below the optimal load. */
  lemma SelectedMovable(limits: Limits, a: Allocations) returns (level: nat)
    requires Consistent(a) && |a.regions| > 0
    ensures Movable(a, Selected(limits, a, {}), 0, level)
    ensures level + 1 >= DivCeil(|a.homes|, |a.regions|)
    ensures |Selected(limits, a, {})| <= RebalanceLimit(limits, |a.homes|)
  {
    if |a.homes| == 0 {
      level := 0;
      NothingMovable(a);
    } else {
      StartLoaded(a);
      SelectedChosen(limits, a);
      level := ChosenMovable(a, ByLoad(LoadsOf(a), a.regions.Keys), DivCeil(|a.homes|, |a.regions|),
                             RebalanceLimit(limits, |a.homes|));
    }
  }

  lemma NothingMovable(a: Allocations)
    requires Consistent(a) && |a.regions| > 0 && |a.homes| == 0
    ensures Movable(a, {}, 0, 0)
    ensures DivCeil(|a.homes|, |a.regions|) == 0
  {
    assert forall r :: Leaving(a, {}, r) == {};
  }

  lemma SelectedChosen(limits: Limits, a: Allocations)
    requires |a.homes| > 0 && |a.regions| > 0
    ensures Selected(limits, a, {}) == Chosen(a, ByLoad(LoadsOf(a), a.regions.Keys),
                                              DivCeil(|a.homes|, |a.regions|), RebalanceLimit(limits, |a.homes|))
  {
  }

  lemma ChosenMovable(a: Allocations, order: seq<RegionId>, optimal: nat, limit: nat) returns (level: nat)
    requires Loaded(a, order, optimal)
    ensures Movable(a, Chosen(a, order, optimal, limit), 0, level)
    ensures level + 1 >= optimal
    ensures |Chosen(a, order, optimal, limit)| <= limit
  {
    hide Movable, Surplus, Oldest, SumAlong, Consistent, Take;
    var surplus := Surplus(a, order, optimal);
    if surplus != [] {
      TakeWithin(surplus, limit);
      SurplusMovable(a, order, optimal, limit);
      level := optimal;
    } else {
      var missing := SumAlong(Below(optimal - 1), LoadsOf(a), order);
      TakeWithin(Oldest(a, order, optimal), Min(missing, limit));
      OldestMovable(a, order, optimal, limit);
      level := optimal - 1;
    }
  }

  lemma NothingAbove(a: Allocations, order: seq<RegionId>, optimal: nat)
    requires Loaded(a, order, optimal) && Balanced(a)
    ensures Sum(Above(optimal), LoadsOf(a)) == 0
  {
    SumZero(Above(optimal), LoadsOf(a));
    if r :| r in LoadsOf(a) && Weigh(Above(optimal), LoadsOf(a)[r]) != 0 {
      forall q | q in LoadsOf(a) ensures Weigh(Below(optimal), LoadsOf(a)[q]) == 0 {
        assert |a.regions[r]| <= |a.regions[q]| + 1;
      }
      SumZero(Below(optimal), LoadsOf(a));
      TableBalance(a, optimal);
    }
  }

  lemma NothingFarBelow(a: Allocations, order: seq<RegionId>, optimal: nat)
    requires Loaded(a, order, optimal) && Balanced(a)
    ensures Sum(Below(optimal - 1), LoadsOf(a)) == 0
  {
    SumZero(Below(optimal - 1), LoadsOf(a));
    if r :| r in LoadsOf(a) && Weigh(Below(optimal - 1), LoadsOf(a)[r]) != 0 {
      forall q | q in LoadsOf(a) ensures Weigh(Above(optimal - 1), LoadsOf(a)[q]) == 0 {
        assert |a.regions[q]| <= |a.regions[r]| + 1;
      }
      SumZero(Above(optimal - 1), LoadsOf(a));
      TableBalance(a, optimal - 1);
    }
  }

  /** Loads are within one of each other exactly when none is above the optimum and none two below it. */
  lemma BalancedLevels(a: Allocations, order: seq<RegionId>, optimal: nat)
    requires Loaded(a, order, optimal)
    ensures Balanced(a) <==> Sum(Above(optimal), LoadsOf(a)) == 0 && Sum(Below(optimal - 1), LoadsOf(a)) == 0
  {
    if Balanced(a) {
      NothingAbove(a, order, optimal);
      NothingFarBelow(a, order, optimal);
    } else {
      var r, q :| r in a.regions && q in a.regions && |a.regions[r]| > |a.regions[q]| + 1;
      assert r in LoadsOf(a) && q in LoadsOf(a);
      SumZero(Above(optimal), LoadsOf(a));
      SumZero(Below(optimal - 1), LoadsOf(a));
      assert Weigh(Above(optimal), LoadsOf(a)[r]) != 0 || Weigh(Below(optimal - 1), LoadsOf(a)[q]) != 0;
    }
  }

  /** Some region carries at least the optimal load. */
  lemma FullRegion(a: Allocations, order: seq<RegionId>, optimal: nat) returns (r: RegionId)
    requires Loaded(a, order, optimal)
    ensures r in a.regions && |a.regions[r]| >= optimal
  {
    TableBalance(a, optimal - 1);
    SumZero(Above(optimal - 1), LoadsOf(a));
    r :| r in LoadsOf(a) && Weigh(Above(optimal - 1), LoadsOf(a)[r]) != 0;
  }

  lemma ChosenEmpty(a: Allocations, order: seq<RegionId>, optimal: nat, limit: nat)
    requires Loaded(a, order, optimal) && limit > 0
    ensures Chosen(a, order, optimal, limit) == {} <==> Balanced(a)
  {
    BalancedLevels(a, order, optimal);
    SurplusRoom(a, order, optimal);
    LoadsCount(a, order, Below(optimal - 1));
    var surplus := Surplus(a, order, optimal);
    if surplus != [] {
      TakeWithin(surplus, limit);
    } else {
      var missing := SumAlong(Below(optimal - 1), LoadsOf(a), order);
      if missing != 0 {
        var r := FullRegion(a, order, optimal);
        assert r in Elements(order);
        OldestFound(a, order, optimal, r);
        TakeWithin(Oldest(a, order, optimal), Min(missing, limit));
      }
    }
  }

  lemma EmptyBalanced(a: Allocations)
    requires Consistent(a) && |a.homes| == 0
    ensures Balanced(a) && forall s :: s !in a.homes
  {
    assert forall r :: r in a.regions && a.regions[r] != [] ==> a.regions[r][0] in a.homes;
  }

  /** Least-shards acts exactly when regions are out of balance, within its limit, on placed
      shards only, and never drains a region more than one below the optimal load. */
  lemma SelectionSpec(limits: Limits, a: Allocations)
    requires Consistent(a) && |a.regions| > 0
    ensures Selected(limits, a, {}) == {} <==> Balanced(a)
    ensures Selected(limits, a, {}) <= a.homes.Keys
    ensures |Selected(limits, a, {})| <= RebalanceLimit(limits, |a.homes|)
    ensures forall r :: r in a.regions && Leaving(a, Selected(limits, a, {}), r) != {} ==>
              |a.regions[r]| - |Leaving(a, Selected(limits, a, {}), r)| >= DivCeil(|a.homes|, |a.regions|) - 1
  {
    hide Selected, Chosen, DivCeil, RebalanceLimit, ByLoad, Loaded, Consistent, Balanced;
    var level := SelectedMovable(limits, a);
    if |a.homes| == 0 {
      EmptyBalanced(a);
    } else {
      StartLoaded(a);
      SelectedChosen(limits, a);
      ChosenEmpty(a, ByLoad(LoadsOf(a), a.regions.Keys), DivCeil(|a.homes|, |a.regions|), RebalanceLimit(limits, |a.homes|));
    }
  }

  // ----- Which shards, and how many -----

  lemma DistinctJoin<T>(xs: seq<T>, ys: seq<T>)
    requires Distinct(xs) && Distinct(ys) && forall x :: x in xs ==> x !in ys
    ensures Distinct(xs + ys)
  {
    forall i, j | 0 <= i < j < |xs + ys| ensures (xs + ys)[i] != (xs + ys)[j] {
      if i < |xs| <= j {
        assert (xs + ys)[i] in xs && (xs + ys)[j] in ys;
      }
    }
  }

  lemma {:induction false} SurplusDistinct(a: Allocations, order: seq<RegionId>, optimal: nat)
    requires Consistent(a) && Elements(order) <= a.regions.Keys && Distinct(order)
    ensures Distinct(Surplus(a, order, optimal))
  {
    if order != [] {
      var rest, last := order[..|order| - 1], order[|order| - 1];
      assert last in Elements(order) && Elements(rest) <= Elements(order);
      SurplusDistinct(a, rest, optimal);
      forall s | s in Surplus(a, rest, optimal) ensures s !in a.regions[last] {
        SurplusPicks(a, rest, optimal, s);
      }
      if |a.regions[last]| > optimal {
        DistinctJoin(Surplus(a, rest, optimal), a.regions[last][..|a.regions[last]| - optimal]);
      } else {
        assert Surplus(a, rest, optimal) + [] == Surplus(a, rest, optimal);
      }
    }
  }

  /** Regions that carry at least the optimal load. */
  ghost function Full(a: Allocations, rs: set<RegionId>, optimal: nat): set<RegionId>
    requires rs <= a.regions.Keys
  {
    set r | r in rs && |a.regions[r]| >= optimal
  }

  lemma {:induction false} OldestDistinct(a: Allocations, order: seq<RegionId>, optimal: nat)
    requires Consistent(a) && Elements(order) <= a.regions.Keys && Distinct(order) && optimal > 0
    ensures Distinct(Oldest(a, order, optimal)) && |Oldest(a, order, optimal)| == |Full(a, Elements(order), optimal)|
  {
    if order != [] {
      var rest, last := order[..|order| - 1], order[|order| - 1];
      assert order == rest + [last];
      assert Elements(order) == Elements(rest) + {last};
      OldestDistinct(a, rest, optimal);
      forall s | s in Oldest(a, rest, optimal) ensures s !in a.regions[last] {
        OldestPicks(a, rest, optimal, s);
      }
      if |a.regions[last]| >= optimal {
        DistinctJoin(Oldest(a, rest, optimal), [a.regions[last][0]]);
      } else {
        assert Oldest(a, rest, optimal) + [] == Oldest(a, rest, optimal);
      }
      FullMore(a, Elements(rest), last, optimal);
    } else {
      assert Full(a, Elements(order), optimal) == {};
    }
  }

  lemma FullMore(a: Allocations, rs: set<RegionId>, r: RegionId, optimal: nat)
    requires rs + {r} <= a.regions.Keys && r !in rs
    ensures |Full(a, rs + {r}, optimal)| == |Full(a, rs, optimal)| + if |a.regions[r]| >= optimal then 1 else 0
  {
    assert Full(a, rs + {r}, optimal) ==
      if |a.regions[r]| >= optimal then Full(a, rs, optimal) + {r} else Full(a, rs, optimal);
  }

  lemma OrderedDistinct(loads: map<RegionId, nat>, order: seq<RegionId>)
    requires Elements(order) <= loads.Keys && Ordered(loads, order)
    ensures Distinct(order)
  {
    forall i, j | 0 <= i < j < |order| ensures order[i] != order[j] {
      assert order[i] in Elements(order) && order[j] in Elements(order);
      LessTrichotomy(order[i].name, order[i].name);
      assert Lighter(loads, order[i], order[j]);
    }
  }

  lemma TakeCount<T>(xs: seq<T>, n: nat)
    requires Distinct(xs)
    ensures |Elements(Take(xs, n))| == Min(|xs|, n)
  {
    DistinctCardinality(Take(xs, n));
  }

  /** A shard ahead in its region's list comes ahead in the surplus. */
  lemma {:induction false} SurplusEarlier(
      a: Allocations, order: seq<RegionId>, optimal: nat, p: nat, r: RegionId, i: nat, j: nat)
    requires Consistent(a) && Elements(order) <= a.regions.Keys && Distinct(order) && r in a.regions
    requires i < j < |a.regions[r]| && p < |Surplus(a, order, optimal)| && Surplus(a, order, optimal)[p] == a.regions[r][j]
    ensures exists q :: 0 <= q < p && Surplus(a, order, optimal)[q] == a.regions[r][i]
  {
    hide Consistent;
    var rest, last := order[..|order| - 1], order[|order| - 1];
    assert last in Elements(order) && Elements(rest) <= Elements(order);
    var before := Surplus(a, rest, optimal);
    if p < |before| {
      SurplusEarlier(a, rest, optimal, p, r, i, j);
      var q :| 0 <= q < p && before[q] == a.regions[r][i];
      assert Surplus(a, order, optimal)[q] == a.regions[r][i];
    } else {
      var front := a.regions[last][..|a.regions[last]| - optimal];
      assert Surplus(a, order, optimal) == before + front;
      assert a.regions[last][p - |before|] == a.regions[r][j];
      SamePlace(a, last, p - |before|, r, j);
      assert Surplus(a, order, optimal)[|before| + i] == a.regions[r][i];
    }
  }

  lemma SamePlace(a: Allocations, q: RegionId, k: nat, r: RegionId, j: nat)
    requires Consistent(a) && q in a.regions && r in a.regions && k < |a.regions[q]| && j < |a.regions[r]|
    requires a.regions[q][k] == a.regions[r][j]
    ensures q == r && k == j
  {
    var s := a.regions[q][k];
    assert s in a.regions[q] && a.homes[s] == q;
    assert a.regions[r][j] in a.regions[r] && a.homes[s] == r;
    assert Distinct(a.regions[q]);
  }

  /** The selected shards of a region are its oldest ones. */
  lemma ChosenOldest(a: Allocations, order: seq<RegionId>, optimal: nat, limit: nat, r: RegionId, i: nat, j: nat)
    requires Loaded(a, order, optimal) && Distinct(order) && r in a.regions && i < j < |a.regions[r]|
    requires a.regions[r][j] in Chosen(a, order, optimal, limit)
    ensures a.regions[r][i] in Chosen(a, order, optimal, limit)
  {
    hide Surplus, Oldest, SumAlong, Consistent;
    var surplus := Surplus(a, order, optimal);
    if surplus != [] {
      var p :| 0 <= p < |Take(surplus, limit)| && Take(surplus, limit)[p] == a.regions[r][j];
      SurplusEarlier(a, order, optimal, p, r, i, j);
      var q :| 0 <= q < p && surplus[q] == a.regions[r][i];
      assert Take(surplus, limit)[q] == a.regions[r][i];
    } else {
      var s := a.regions[r][j];
      OldestPicks(a, order, optimal, s);
      SamePlace(a, a.homes[s], 0, r, j);
    }
  }

  lemma ChosenCount(a: Allocations, order: seq<RegionId>, optimal: nat, limit: nat)
    requires Loaded(a, order, optimal) && Distinct(order)
    ensures var above, below := Sum(Above(optimal), LoadsOf(a)), Sum(Below(optimal - 1), LoadsOf(a));
      |Chosen(a, order, optimal, limit)| ==
        if above > 0 then Min(above, limit)
        else Min(|Full(a, a.regions.Keys, optimal)|, Min(below, limit))
  {
    hide Surplus, Oldest, SumAlong, Sum, Consistent, Take, LoadsOf;
    SurplusRoom(a, order, optimal);
    if Surplus(a, order, optimal) != [] {
      SurplusDistinct(a, order, optimal);
      TakeCount(Surplus(a, order, optimal), limit);
    } else {
      LoadsCount(a, order, Below(optimal - 1));
      OldestDistinct(a, order, optimal);
      var below := Sum(Below(optimal - 1), LoadsOf(a));
      TakeCount(Oldest(a, order, optimal), Min(below, limit));
    }
  }

  /** While something is under way nothing is selected. Otherwise, with shards to place: if some region is above
      the even share, exactly as many shards move as are above it, up to the limit; if none is, as many as regions
      are short of one below it, up to the limit and the number of full regions, one from each. Each region gives
      its oldest shards. */
  lemma SelectionExact(limits: Limits, a: Allocations, inProgress: set<ShardId>)
    requires Consistent(a) && |a.regions| > 0 && |a.homes| > 0
    ensures inProgress != {} ==> Selected(limits, a, inProgress) == {}
    ensures var optimal, limit := DivCeil(|a.homes|, |a.regions|), RebalanceLimit(limits, |a.homes|);
      && optimal > 0
      && var above, below := Sum(Above(optimal), LoadsOf(a)), Sum(Below(optimal - 1), LoadsOf(a));
         |Selected(limits, a, {})| ==
           if above > 0 then Min(above, limit)
           else Min(|Full(a, a.regions.Keys, optimal)|, Min(below, limit))
    ensures forall r, i, j ::
              (r in a.regions && 0 <= i < j < |a.regions[r]| && a.regions[r][j] in Selected(limits, a, {})) ==>
                a.regions[r][i] in Selected(limits, a, {})
  {
    hide Consistent, Sum, Chosen, DivCeil, RebalanceLimit, LoadsOf, Full;
    if inProgress != {} {
      WaitsForHandoffs(limits, a, inProgress);
    }
    SelectionParts(limits, a);
  }

  lemma WaitsForHandoffs(limits: Limits, a: Allocations, inProgress: set<ShardId>)
    requires inProgress != {}
    ensures Selected(limits, a, inProgress) == {}
  {
  }

  lemma SelectionParts(limits: Limits, a: Allocations)
    requires Consistent(a) && |a.regions| > 0 && |a.homes| > 0
    ensures var optimal, limit := DivCeil(|a.homes|, |a.regions|), RebalanceLimit(limits, |a.homes|);
      && optimal > 0
      && var above, below := Sum(Above(optimal), LoadsOf(a)), Sum(Below(optimal - 1), LoadsOf(a));
         |Selected(limits, a, {})| ==
           if above > 0 then Min(above, limit)
           else Min(|Full(a, a.regions.Keys, optimal)|, Min(below, limit))
    ensures forall r, i, j ::
              (r in a.regions && 0 <= i < j < |a.regions[r]| && a.regions[r][j] in Selected(limits, a, {})) ==>
                a.regions[r][i] in Selected(limits, a, {})
  {
    hide Consistent, Sum, Chosen, DivCeil, RebalanceLimit, Full, Selected, ByLoad;
    var optimal, limit := DivCeil(|a.homes|, |a.regions|), RebalanceLimit(limits, |a.homes|);
    var order := ByLoad(LoadsOf(a), a.regions.Keys);
    StartLoaded(a);
    SelectedChosen(limits, a);
    OrderedDistinct(LoadsOf(a), order);
    ChosenCount(a, order, optimal, limit);
    forall r, i, j | r in a.regions && 0 <= i < j < |a.regions[r]| && a.regions[r][j] in Selected(limits, a, {})
      ensures a.regions[r][i] in Selected(limits, a, {})
    {
      ChosenOldest(a, order, optimal, limit, r, i, j);
    }
  }

  // ----- A round: every selected shard loses its home once and gets a new one once -----

  datatype Round = Round(table: Allocations, waiting: set<ShardId>, homeless: set<ShardId>)

  datatype Move = Release(shard: ShardId) | Place(shard: ShardId)

  predicate Possible(x: Round, m: Move) {
    match m
    case Release(s) => s in x.waiting
    case Place(s) => s in x.homeless && Allocate(x.table).Ok?
  }

  function After(x: Round, m: Move): Round
    requires Possible(x, m)
  {
    match m
    case Release(s) => Round(Deallocated(x.table, s), x.waiting - {s}, x.homeless + {s})
    case Place(s) => Round(Assigned(x.table, Allocate(x.table).value, s), x.waiting, x.homeless - {s})
  }

  /** Any interleaving of the releases and placements of a round. */
  ghost predicate Interleaving(x: Round, moves: seq<Move>, y: Round)
    decreases |moves|
  {
    if moves == [] then x == y
    else Possible(x, moves[0]) && Interleaving(After(x, moves[0]), moves[1..], y)
  }

  ghost function Squares(a: Allocations): nat {
    Sum(Square, LoadsOf(a))
  }

  /** Sum of squares, corrected for shards still to be moved. */
  ghost function Potential(x: Round, level: nat): int {
    Squares(x.table) + (2 * level - 1) * |x.homeless| - 2 * |x.waiting|
  }

  ghost predicate Underway(x: Round, level: nat) {
    && Movable(x.table, x.waiting, |x.homeless|, level)
    && x.homeless !! x.table.homes.Keys
    && |x.table.regions| > 0
  }

  lemma ReleaseLeaving(a: Allocations, moving: set<ShardId>, h: nat, level: nat, s: ShardId, r: RegionId)
    requires Movable(a, moving, h, level) && s in moving && r in a.regions
    requires Leaving(Deallocated(a, s), moving - {s}, r) != {}
    ensures |Deallocated(a, s).regions[r]| >= |Leaving(Deallocated(a, s), moving - {s}, r)| + level
  {
    hide Consistent, Sum, Deallocated, Leaving;
    var before := Leaving(a, moving, r);
    LeavingReleased(a, moving, s, r);
    ReleasedLength(a, s, r);
    assert before != {};
    assert |before - {s}| == |before| - if s in before then 1 else 0;
  }

  lemma LeavingReleased(a: Allocations, moving: set<ShardId>, s: ShardId, r: RegionId)
    requires s in moving && s in a.homes
    ensures Leaving(Deallocated(a, s), moving - {s}, r) == Leaving(a, moving, r) - {s}
    ensures s in Leaving(a, moving, r) <==> a.homes[s] == r
  {
  }

  lemma ReleasedLength(a: Allocations, s: ShardId, r: RegionId)
    requires Consistent(a) && s in a.homes && r in a.regions
    ensures r in Deallocated(a, s).regions
    ensures |Deallocated(a, s).regions[r]| == |a.regions[r]| - if a.homes[s] == r then 1 else 0
  {
    DeallocatedLists(a, s, r);
    WithoutDistinct(a.regions[r], s);
  }

  /** A shard that is still to be moved lives in a region above the level. */
  lemma ReleaseHigh(a: Allocations, moving: set<ShardId>, h: nat, level: nat, s: ShardId)
    requires Movable(a, moving, h, level) && s in moving
    ensures Consistent(a) && s in a.homes && a.homes[s] in a.regions && |a.regions[a.homes[s]]| >= level + 1
  {
    hide Sum;
    var leaving := Leaving(a, moving, a.homes[s]);
    assert s in leaving;
    assert |leaving| > 0;
  }

  lemma ReleaseSums(a: Allocations, moving: set<ShardId>, h: nat, level: nat, s: ShardId)
    requires Movable(a, moving, h, level) && s in moving && s in a.homes
    ensures Sum(Below(level), LoadsOf(Deallocated(a, s))) == Sum(Below(level), LoadsOf(a))
    ensures Squares(Deallocated(a, s)) + 2 * level + 1 <= Squares(a)
  {
    hide Sum, Movable, Consistent, Deallocated;
    ReleaseHigh(a, moving, h, level, s);
    var r := a.homes[s];
    var n := |a.regions[r]|;
    DeallocatedLoads(a, s);
    SumUpdate(Below(level), LoadsOf(a), r, n - 1);
    SumUpdate(Square, LoadsOf(a), r, n - 1);
    SquareStep(n - 1);
  }

  lemma SquareStep(n: nat)
    ensures (n + 1) * (n + 1) == n * n + 2 * n + 1
  {
  }

  lemma ReleaseMovable(a: Allocations, moving: set<ShardId>, h: nat, level: nat, s: ShardId)
    requires Movable(a, moving, h, level) && s in moving
    ensures Movable(Deallocated(a, s), moving - {s}, h + 1, level)
  {
    DeallocatedConsistent(a, s);
    ReleaseSums(a, moving, h, level, s);
    forall q | q in a.regions && Leaving(Deallocated(a, s), moving - {s}, q) != {}
      ensures |Deallocated(a, s).regions[q]| >= |Leaving(Deallocated(a, s), moving - {s}, q)| + level
    {
      ReleaseLeaving(a, moving, h, level, s, q);
    }
  }

  lemma PlaceSums(a: Allocations, level: nat, r: RegionId, s: ShardId)
    requires Consistent(a) && r in a.regions && s !in a.homes && |a.regions[r]| < level
    ensures Sum(Below(level), LoadsOf(Assigned(a, r, s))) == Sum(Below(level), LoadsOf(a)) - 1
    ensures Squares(Assigned(a, r, s)) <= Squares(a) + 2 * level - 1
  {
    var n := |a.regions[r]|;
    AssignedLoads(a, r, s);
    SumUpdate(Below(level), LoadsOf(a), r, n + 1);
    SumUpdate(Square, LoadsOf(a), r, n + 1);
    SquareStep(n);
  }

  lemma PlaceMovable(a: Allocations, moving: set<ShardId>, h: nat, level: nat, r: RegionId, s: ShardId)
    requires Movable(a, moving, h + 1, level)
    requires r in a.regions && s !in a.homes && |a.regions[r]| < level
    ensures Movable(Assigned(a, r, s), moving, h, level)
  {
    hide Consistent, Sum, Leaving, Assigned;
    var b := Assigned(a, r, s);
    AssignedConsistent(a, r, s);
    PlaceSums(a, level, r, s);
    forall q | q in b.regions && Leaving(b, moving, q) != {}
      ensures |b.regions[q]| >= |Leaving(b, moving, q)| + level
    {
      PlaceLeaving(a, moving, r, s, q);
    }
  }

  /** Placing a shard makes no region smaller and leaves the shards to move where they are. */
  lemma PlaceLeaving(a: Allocations, moving: set<ShardId>, r: RegionId, s: ShardId, q: RegionId)
    requires Consistent(a) && moving <= a.homes.Keys && r in a.regions && s !in a.homes && q in a.regions
    ensures q in Assigned(a, r, s).regions && |Assigned(a, r, s).regions[q]| >= |a.regions[q]|
    ensures Leaving(Assigned(a, r, s), moving, q) == Leaving(a, moving, q)
  {
    hide Consistent, Assigned;
    AssignedConsistent(a, r, s);
    AssignedLoads(a, r, s);
    assert LoadsOf(Assigned(a, r, s))[q] >= LoadsOf(a)[q];
  }

  lemma ReleaseStep(x: Round, s: ShardId, level: nat)
    requires Underway(x, level) && s in x.waiting
    ensures Underway(After(x, Release(s)), level)
    ensures Potential(After(x, Release(s)), level) <= Potential(x, level)
    ensures SameShards(x, After(x, Release(s)))
  {
    hide Consistent, Sum, Movable, Deallocated, Squares, Potential, SameShards;
    MovableConsistent(x.table, x.waiting, |x.homeless|, level);
    ReleaseMovable(x.table, x.waiting, |x.homeless|, level, s);
    ReleaseSums(x.table, x.waiting, |x.homeless|, level, s);
    OneReleased(x, s);
    DeallocatedKeys(x.table, s);
    SameAfterRelease(x, After(x, Release(s)), s);
    ReleasePotential(x, After(x, Release(s)), level);
  }

  lemma SameAfterRelease(x: Round, y: Round, s: ShardId)
    requires s in x.table.homes && x.homeless !! x.table.homes.Keys
    requires y.table.regions.Keys == x.table.regions.Keys && y.table.homes == x.table.homes - {s}
    requires y.homeless == x.homeless + {s}
    ensures SameShards(x, y) && y.homeless !! y.table.homes.Keys
  {
  }

  lemma SameAfterPlace(x: Round, y: Round, s: ShardId, r: RegionId)
    requires s in x.homeless && x.homeless !! x.table.homes.Keys
    requires y.table.regions.Keys == x.table.regions.Keys && y.table.homes == x.table.homes[s := r]
    requires y.homeless == x.homeless - {s}
    ensures SameShards(x, y) && y.homeless !! y.table.homes.Keys
  {
  }

  lemma OneReleased(x: Round, s: ShardId)
    requires s in x.waiting && x.waiting <= x.table.homes.Keys && x.homeless !! x.table.homes.Keys
    ensures |x.homeless + {s}| == |x.homeless| + 1 && |x.waiting - {s}| == |x.waiting| - 1
  {
  }

  lemma ReleasePotential(x: Round, y: Round, level: nat)
    requires Squares(y.table) + 2 * level + 1 <= Squares(x.table)
    requires |y.homeless| == |x.homeless| + 1 && |y.waiting| == |x.waiting| - 1
    ensures Potential(y, level) <= Potential(x, level)
  {
    hide Squares;
    Weighted(level, |x.homeless|);
  }

  lemma PlacePotential(x: Round, y: Round, level: nat)
    requires Squares(y.table) <= Squares(x.table) + 2 * level - 1
    requires |y.homeless| == |x.homeless| - 1 && |y.waiting| == |x.waiting|
    ensures Potential(y, level) <= Potential(x, level)
  {
    hide Squares;
    Weighted(level, |y.homeless|);
  }

  lemma MovableConsistent(a: Allocations, moving: set<ShardId>, h: nat, level: nat)
    requires Movable(a, moving, h, level)
    ensures Consistent(a) && moving <= a.homes.Keys
  {
  }

  lemma DeallocatedKeys(a: Allocations, s: ShardId)
    ensures Deallocated(a, s).regions.Keys == a.regions.Keys && |Deallocated(a, s).regions| == |a.regions|
    ensures Deallocated(a, s).homes == a.homes - {s}
  {
    assert Deallocated(a, s).regions.Keys == a.regions.Keys;
  }

  lemma Weighted(level: nat, h: nat)
    ensures (2 * level - 1) * (h + 1) == (2 * level - 1) * h + 2 * level - 1
  {
  }

  /** The lightest region is below the level as long as some region is. */
  lemma PlaceRoom(a: Allocations, level: nat)
    requires |a.regions| > 0 && Sum(Below(level), LoadsOf(a)) > 0
    ensures Allocate(a).Ok? && |a.regions[Allocate(a).value]| < level
  {
    hide Sum, Allocate, IsLightest;
    SumZero(Below(level), LoadsOf(a));
    var q :| q in LoadsOf(a) && Weigh(Below(level), LoadsOf(a)[q]) != 0;
    assert a.regions != map[];
    LightestKnown(a, Allocate(a).value);
    LightestBound(a, Allocate(a).value, q);
  }

  lemma LightestKnown(a: Allocations, r: RegionId)
    requires IsLightest(LoadsOf(a), a.regions.Keys, r)
    ensures r in a.regions
  {
  }

  lemma LightestBound(a: Allocations, r: RegionId, q: RegionId)
    requires IsLightest(LoadsOf(a), a.regions.Keys, r) && q in a.regions
    ensures |a.regions[r]| <= |a.regions[q]|
  {
    assert q == r || Lighter(LoadsOf(a), r, q);
  }

  lemma PlaceStep(x: Round, s: ShardId, r: RegionId, level: nat)
    requires Underway(x, level) && s in x.homeless
    requires r in x.table.regions && |x.table.regions[r]| < level
    ensures Underway(Round(Assigned(x.table, r, s), x.waiting, x.homeless - {s}), level)
    ensures Potential(Round(Assigned(x.table, r, s), x.waiting, x.homeless - {s}), level) <= Potential(x, level)
    ensures SameShards(x, Round(Assigned(x.table, r, s), x.waiting, x.homeless - {s}))
  {
    hide Consistent, Sum, Movable, Assigned, Squares, LoadsOf, Potential, SameShards;
    var y := Round(Assigned(x.table, r, s), x.waiting, x.homeless - {s});
    assert |x.homeless - {s}| == |x.homeless| - 1;
    MovableConsistent(x.table, x.waiting, |x.homeless|, level);
    PlaceMovable(x.table, x.waiting, |x.homeless| - 1, level, r, s);
    PlaceSums(x.table, level, r, s);
    AssignedConsistent(x.table, r, s);
    assert |y.table.regions.Keys| == |x.table.regions.Keys|;
    SameAfterPlace(x, y, s, r);
    PlacePotential(x, y, level);
  }

  lemma PlaceNext(x: Round, s: ShardId, level: nat)
    requires Underway(x, level) && s in x.homeless
    ensures Possible(x, Place(s)) && Underway(After(x, Place(s)), level)
    ensures Potential(After(x, Place(s)), level) <= Potential(x, level)
    ensures SameShards(x, After(x, Place(s)))
  {
    hide Consistent, Sum, Leaving, Allocate;
    assert |x.homeless| > 0;
    PlaceRoom(x.table, level);
    PlaceStep(x, s, Allocate(x.table).value, level);
  }

  ghost predicate SameShards(x: Round, y: Round) {
    && y.table.regions.Keys == x.table.regions.Keys
    && y.table.homes.Keys + y.homeless == x.table.homes.Keys + x.homeless
  }

  /** What a whole interleaving keeps. */
  lemma {:induction false} InterleavingLowers(x: Round, moves: seq<Move>, y: Round, level: nat)
    requires Underway(x, level) && Interleaving(x, moves, y)
    ensures Underway(y, level) && Potential(y, level) <= Potential(x, level)
    ensures SameShards(x, y)
    decreases |moves|
  {
    hide Underway, Potential, Allocate;
    if moves != [] {
      match moves[0] {
        case Release(s) => ReleaseStep(x, s, level);
        case Place(s) => PlaceNext(x, s, level);
      }
      InterleavingLowers(After(x, moves[0]), moves[1..], y, level);
    }
  }

  /** One complete round over the table `a`, in any interleaving, ends in `b`. */
  ghost predicate CompleteRound(limits: Limits, a: Allocations, b: Allocations) {
    exists moves :: Interleaving(Round(a, Selected(limits, a, {}), {}), moves, Round(b, {}, {}))
  }

  /** A complete round places every shard again and lowers the sum of squared loads by at least
      two for every shard it moved. */
  lemma RoundLowersSquares(limits: Limits, a: Allocations, b: Allocations)
    requires Consistent(a) && |a.regions| > 0 && CompleteRound(limits, a, b)
    ensures Consistent(b) && b.regions.Keys == a.regions.Keys && b.homes.Keys == a.homes.Keys
    ensures Squares(b) + 2 * |Selected(limits, a, {})| <= Squares(a)
  {
    hide Consistent, Sum, Leaving, Selected, DivCeil, RebalanceLimit;
    var level := SelectedMovable(limits, a);
    var start := Round(a, Selected(limits, a, {}), {});
    var moves :| Interleaving(start, moves, Round(b, {}, {}));
    InterleavingLowers(start, moves, Round(b, {}, {}), level);
  }

  /** Consecutive tables of a sequence are joined by complete rounds that moved something. */
  ghost predicate Rounds(limits: Limits, tables: seq<Allocations>) {
    forall i :: 0 <= i < |tables| - 1 ==>
      CompleteRound(limits, tables[i], tables[i + 1]) && Selected(limits, tables[i], {}) != {}
  }

  lemma LaterRounds(limits: Limits, tables: seq<Allocations>)
    requires |tables| > 1 && Rounds(limits, tables)
    ensures Rounds(limits, tables[1..])
  {
    hide CompleteRound, Selected;
    forall i | 0 <= i < |tables[1..]| - 1
      ensures CompleteRound(limits, tables[1..][i], tables[1..][i + 1]) && Selected(limits, tables[1..][i], {}) != {}
    {
      assert CompleteRound(limits, tables[i + 1], tables[i + 1 + 1]);
    }
  }

  /** Only finitely many rounds can move anything, however their handoffs interleave. */
  lemma {:induction false} RoundsBounded(limits: Limits, tables: seq<Allocations>)
    requires tables != [] && Consistent(tables[0]) && |tables[0].regions| > 0
    requires Rounds(limits, tables)
    ensures 2 * (|tables| - 1) <= Squares(tables[0])
    decreases |tables|
  {
    hide Consistent, CompleteRound, Selected, Squares;
    if |tables| > 1 {
      assert CompleteRound(limits, tables[0], tables[0 + 1]);
      RoundLowersSquares(limits, tables[0], tables[1]);
      LaterRounds(limits, tables);
      assert |tables[1].regions.Keys| == |tables[0].regions.Keys|;
      assert |Selected(limits, tables[0], {})| > 0;
      RoundsBounded(limits, tables[1..]);
    }
  }

  /** A round that has begun can always be finished. */
  lemma {:induction false} RoundFinishes(x: Round, level: nat) returns (moves: seq<Move>, b: Allocations)
    requires Underway(x, level)
    ensures Interleaving(x, moves, Round(b, {}, {}))
    decreases |x.waiting|, |x.homeless|
  {
    hide Underway, Potential, Allocate;
    if x.homeless != {} {
      var s :| s in x.homeless;
      PlaceNext(x, s, level);
      moves, b := RoundFinishes(After(x, Place(s)), level);
      moves := [Place(s)] + moves;
    } else if x.waiting != {} {
      var s :| s in x.waiting;
      ReleaseStep(x, s, level);
      moves, b := RoundFinishes(After(x, Release(s)), level);
      moves := [Release(s)] + moves;
    } else {
      moves, b := [], x.table;
    }
  }

  /** Repeating rounds until nothing is selected ends with balanced regions. */
  lemma {:induction false} RoundsReachBalance(limits: Limits, a: Allocations) returns (tables: seq<Allocations>)
    requires Consistent(a) && |a.regions| > 0
    ensures tables != [] && tables[0] == a && Rounds(limits, tables)
    ensures Balanced(tables[|tables| - 1])
    ensures Selected(limits, tables[|tables| - 1], {}) == {}
    decreases Squares(a)
  {
    hide Consistent, Sum, Leaving, Selected, DivCeil, RebalanceLimit, Interleaving, Balanced, Squares;
    SelectionSpec(limits, a);
    if Selected(limits, a, {}) == {} {
      tables := [a];
    } else {
      var level := SelectedMovable(limits, a);
      var start := Round(a, Selected(limits, a, {}), {});
      var moves, b := RoundFinishes(start, level);
      assert CompleteRound(limits, a, b);
      RoundLowersSquares(limits, a, b);
      assert |b.regions.Keys| == |a.regions.Keys|;
      assert |start.waiting| > 0;
      var rest := RoundsReachBalance(limits, b);
      tables := [a] + rest;
      forall i | 0 <= i < |tables| - 1
        ensures CompleteRound(limits, tables[i], tables[i + 1]) && Selected(limits, tables[i], {}) != {}
      {
        if i > 0 {
          assert tables[i] == rest[i - 1] && tables[i + 1] == rest[i - 1 + 1];
        }
      }
    }
  }
}
