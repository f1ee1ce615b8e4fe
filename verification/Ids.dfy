/** Identifiers of regions and shards, and the deterministic iteration order of
    the ordered maps and sets that hold them. */
module Ids {

  datatype Option<+T> = None | Some(value: T)

  datatype Result<+T, +E> = Ok(value: T) | Err(error: E)

  /** A stable identifier. Region and shard identifiers are both plain strings in the system. */
  datatype Id = Id(name: string)

  type RegionId = Id

  type ShardId = Id

  /** Lexicographic order of the scalar values of two strings. */
  predicate Less(a: string, b: string) {
    if a == [] then b != []
    else if b == [] then false
    else if a[0] != b[0] then a[0] < b[0]
    else Less(a[1..], b[1..])
  }

  predicate Before(a: Id, b: Id) {
    Less(a.name, b.name)
  }

  lemma {:induction false} LessTrichotomy(a: string, b: string)
    ensures Less(a, b) || a == b || Less(b, a)
    ensures !(Less(a, b) && Less(b, a))
    ensures a == b ==> !Less(a, b)
  {
    if a != [] && b != [] && a[0] == b[0] {
      LessTrichotomy(a[1..], b[1..]);
      assert a == [a[0]] + a[1..] && b == [b[0]] + b[1..];
    }
  }

  lemma {:induction false} LessTransitive(a: string, b: string, c: string)
    requires Less(a, b) && Less(b, c)
    ensures Less(a, c)
  {
    if a != [] && a[0] == b[0] == c[0] {
      LessTransitive(a[1..], b[1..], c[1..]);
    }
  }

  /** Strictly increasing, hence also free of duplicates. */
  predicate Increasing(ids: seq<Id>) {
    forall i, j :: 0 <= i < j < |ids| ==> Before(ids[i], ids[j])
  }

  predicate Lists(ids: seq<Id>, s: set<Id>) {
    (forall x :: x in ids ==> x in s) && (forall x :: x in s ==> x in ids)
  }

  predicate IsFirst(x: Id, s: set<Id>) {
    x in s && forall y :: y in s && y != x ==> Before(x, y)
  }

  lemma {:induction false} FirstExists(s: set<Id>) returns (x: Id)
    requires s != {}
    ensures IsFirst(x, s)
    decreases s
  {
    x :| x in s;
    if s != {x} {
      var y := FirstExists(s - {x});
      LessTrichotomy(x.name, y.name);
      assert x.name == y.name ==> x == y;
      if Before(y, x) {
        x := y;
      } else {
        forall z | z in s && z != x ensures Before(x, z) {
          if z != y {
            assert z in s - {x};
            LessTransitive(x.name, y.name, z.name);
          }
        }
      }
    }
  }

  /** The first identifier of a non-empty ordered set. */
  function First(s: set<Id>): (x: Id)
    requires s != {}
    ensures IsFirst(x, s)
  {
    ghost var w := FirstOf(s);
    assert forall x, y :: IsFirst(x, s) && IsFirst(y, s) ==> x == y by {
      forall x, y | IsFirst(x, s) && IsFirst(y, s) ensures x == y {
        LessTrichotomy(x.name, y.name);
      }
    }
    var x :| x in s && IsFirst(x, s);
    x
  }

  ghost function FirstOf(s: set<Id>): (x: Id)
    requires s != {}
    ensures IsFirst(x, s)
  {
    assert exists x :: IsFirst(x, s) by {
      var x := FirstExists(s);
    }
    var x :| IsFirst(x, s);
    x
  }

  /** The order in which an ordered set of identifiers is iterated. */
  function Sorted(s: set<Id>): (ids: seq<Id>)
    ensures Increasing(ids) && Lists(ids, s)
    ensures |ids| == |s|
  {
    if s == {} then []
    else
      var x := First(s);
      var rest := Sorted(s - {x});
      assert forall y :: y in s ==> y == x || y in s - {x};
      [x] + rest
  }

  /** The iteration order is the only increasing listing of a set. */
  lemma {:induction false} SortedUnique(a: seq<Id>, b: seq<Id>)
    requires Increasing(a) && Increasing(b)
    requires forall x :: x in a <==> x in b
    ensures a == b
  {
    assert a != [] ==> a[0] in b;
    assert b != [] ==> b[0] in a;
    if a != [] && b != [] {
      LessTrichotomy(a[0].name, b[0].name);
      assert a[0] == b[0];
      forall x | x in a[1..] ensures x in b[1..] {
        var i :| 1 <= i < |a| && a[i] == x;
        LessTrichotomy(a[0].name, a[i].name);
        assert x in b;
      }
      forall x | x in b[1..] ensures x in a[1..] {
        var i :| 1 <= i < |b| && b[i] == x;
        LessTrichotomy(b[0].name, b[i].name);
        assert x in a;
      }
      SortedUnique(a[1..], b[1..]);
    }
  }

  /** No identifier is listed twice. */
  ghost predicate Distinct<T>(xs: seq<T>) {
    forall i, j :: 0 <= i < j < |xs| ==> xs[i] != xs[j]
  }

  function Elements<T(==)>(xs: seq<T>): set<T> {
    set x | x in xs
  }

  lemma {:induction false} DistinctCardinality<T>(xs: seq<T>)
    requires Distinct(xs)
    ensures |Elements(xs)| == |xs|
  {
    if xs != [] {
      var rest := xs[..|xs| - 1];
      DistinctCardinality(rest);
      assert xs == rest + [xs[|xs| - 1]];
      assert Elements(xs) == Elements(rest) + {xs[|xs| - 1]};
    }
  }

  lemma {:induction false} ElementsBound<T>(xs: seq<T>)
    ensures |Elements(xs)| <= |xs|
  {
    if xs != [] {
      var rest := xs[..|xs| - 1];
      ElementsBound(rest);
      assert xs == rest + [xs[|xs| - 1]];
      assert Elements(xs) == Elements(rest) + {xs[|xs| - 1]};
    }
  }

  lemma IncreasingDistinct(ids: seq<Id>)
    requires Increasing(ids)
    ensures Distinct(ids)
  {
    forall i, j | 0 <= i < j < |ids| ensures ids[i] != ids[j] {
      LessTrichotomy(ids[i].name, ids[j].name);
    }
  }
}
