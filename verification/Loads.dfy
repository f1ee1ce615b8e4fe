/** Sums over the load (number of shards) of every region. */
module Loads {
  import opened Ids

  /** What one region with load `n` contributes to a sum. */
  datatype Weight = One | Count | Square | Below(bound: nat) | Above(bound: nat)

  function Weigh(w: Weight, n: nat): nat {
    match w
    case One => 1
    case Count => n
    case Square => n * n
    case Below(c) => if n < c then c - n else 0
    case Above(c) => if n > c then n - c else 0
  }

  ghost function Sum(w: Weight, loads: map<RegionId, nat>): nat
    decreases |loads|
  {
    if loads == map[] then 0
    else
      var r :| r in loads;
      Weigh(w, loads[r]) + Sum(w, loads - {r})
  }

  /** A sum does not depend on which region is counted first. */
  lemma {:induction false} SumSplit(w: Weight, loads: map<RegionId, nat>, r: RegionId)
    requires r in loads
    ensures Sum(w, loads) == Weigh(w, loads[r]) + Sum(w, loads - {r})
    decreases |loads|
  {
    var q :| q in loads && Sum(w, loads) == Weigh(w, loads[q]) + Sum(w, loads - {q});
    if q != r {
      SumSplit(w, loads - {q}, r);
      SumSplit(w, loads - {r}, q);
      assert loads - {q} - {r} == loads - {r} - {q};
    }
  }

  /** Changing one region's load changes a sum by that region's contribution only. */
  lemma SumUpdate(w: Weight, loads: map<RegionId, nat>, r: RegionId, n: nat)
    requires r in loads
    ensures Sum(w, loads[r := n]) == Sum(w, loads) - Weigh(w, loads[r]) + Weigh(w, n)
  {
    SumSplit(w, loads, r);
    SumSplit(w, loads[r := n], r);
    assert loads[r := n] - {r} == loads - {r};
  }

  lemma RemoveOne(loads: map<RegionId, nat>, r: RegionId)
    requires r in loads
    ensures |loads| == |loads - {r}| + 1
  {
    assert (loads - {r}).Keys == loads.Keys - {r};
  }

  lemma {:induction false} SumOne(loads: map<RegionId, nat>)
    ensures Sum(One, loads) == |loads|
    decreases |loads|
  {
    if loads != map[] {
      var r :| r in loads;
      SumSplit(One, loads, r);
      SumOne(loads - {r});
      RemoveOne(loads, r);
    }
  }

  /** Loads above a level, loads below it and the level itself account for every shard. */
  lemma {:induction false} SumBalance(c: nat, loads: map<RegionId, nat>)
    ensures Sum(Count, loads) + Sum(Below(c), loads) == c * |loads| + Sum(Above(c), loads)
    decreases |loads|
  {
    if loads == map[] {
      assert c * |loads| == 0;
    } else {
      var r :| r in loads;
      var rest := loads - {r};
      SumBalance(c, rest);
      SplitAll(c, loads, r);
      RemoveOne(loads, r);
      Distribute(c, |rest|);
    }
  }

  lemma Distribute(c: nat, n: nat)
    ensures c * (n + 1) == c * n + c
  {
  }

  lemma SplitAll(c: nat, loads: map<RegionId, nat>, r: RegionId)
    requires r in loads
    ensures Sum(Count, loads) + Sum(Below(c), loads) - Sum(Above(c), loads)
         == Sum(Count, loads - {r}) + Sum(Below(c), loads - {r}) - Sum(Above(c), loads - {r}) + c
  {
    SumSplit(Count, loads, r);
    SumSplit(Below(c), loads, r);
    SumSplit(Above(c), loads, r);
  }

  /** A sum is zero exactly when every region contributes nothing. */
  lemma {:induction false} SumZero(w: Weight, loads: map<RegionId, nat>)
    ensures Sum(w, loads) == 0 <==> forall r :: r in loads ==> Weigh(w, loads[r]) == 0
    decreases |loads|
  {
    if loads != map[] {
      var r :| r in loads;
      SumSplit(w, loads, r);
      SumZero(w, loads - {r});
      assert forall q :: q in loads ==> q == r || q in loads - {r};
    }
  }

  /** The same sum taken along a list of regions. */
  function SumAlong(w: Weight, loads: map<RegionId, nat>, order: seq<RegionId>): nat
    requires Elements(order) <= loads.Keys
  {
    if order == [] then 0
    else
      var last := order[|order| - 1];
      assert last in Elements(order);
      var rest := order[..|order| - 1];
      assert Elements(rest) <= Elements(order);
      SumAlong(w, loads, rest) + Weigh(w, loads[last])
  }

  lemma SumAlongNext(w: Weight, loads: map<RegionId, nat>, order: seq<RegionId>, i: nat)
    requires Elements(order) <= loads.Keys && i < |order|
    ensures order[i] in loads && Elements(order[..i]) <= loads.Keys && Elements(order[..i + 1]) <= loads.Keys
    ensures SumAlong(w, loads, order[..i + 1]) == SumAlong(w, loads, order[..i]) + Weigh(w, loads[order[i]])
  {
    hide Weigh;
    assert order[i] in Elements(order);
    assert order[..i + 1][..i] == order[..i];
  }

  lemma {:induction false} SumAlongAll(w: Weight, loads: map<RegionId, nat>, order: seq<RegionId>)
    requires Elements(order) == loads.Keys && |order| == |loads|
    ensures SumAlong(w, loads, order) == Sum(w, loads)
  {
    if order != [] {
      var last := order[|order| - 1];
      var rest := order[..|order| - 1];
      assert order == rest + [last];
      assert Elements(order) == Elements(rest) + {last};
      RemoveOne(loads, last);
      ElementsBound(rest);
      assert last in Elements(rest) ==> Elements(rest) == loads.Keys;
      assert Elements(rest) == (loads - {last}).Keys;
      SumAlongAll(w, loads - {last}, rest);
      SumAlongFrame(w, loads, loads - {last}, rest);
      SumSplit(w, loads, last);
    }
  }

  lemma {:induction false} SumAlongFrame(w: Weight, a: map<RegionId, nat>, b: map<RegionId, nat>, order: seq<RegionId>)
    requires Elements(order) <= a.Keys && Elements(order) <= b.Keys
    requires forall r :: r in Elements(order) ==> a[r] == b[r]
    ensures SumAlong(w, a, order) == SumAlong(w, b, order)
  {
    if order != [] {
      var rest := order[..|order| - 1];
      assert Elements(rest) <= Elements(order);
      assert order[|order| - 1] in Elements(order);
      SumAlongFrame(w, a, b, rest);
    }
  }
}
