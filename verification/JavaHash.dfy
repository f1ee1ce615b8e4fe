/** The stable partition of entity identifiers: Java's string hash over UTF-16 code units, reduced
    to a bucket. */
module JavaHash {
  import opened Ids

  type EntityId = string

  type CodeUnit = u: nat | u < 0x1_0000

  function CharUnits(c: char): seq<CodeUnit> {
    var x := c as int;
    if x < 0x1_0000 then [x]
    else [0xD800 + (x - 0x1_0000) / 0x400, 0xDC00 + (x - 0x1_0000) % 0x400]
  }

  function Units(s: string): seq<CodeUnit> {
    if s == "" then [] else CharUnits(s[0]) + Units(s[1..])
  }

  /** Signed 32-bit value of an integer. */
  function Wrap(x: int): int {
    (x + 0x8000_0000) % 0x1_0000_0000 - 0x8000_0000
  }

  function Fold(hash: int, units: seq<CodeUnit>): int
    decreases |units|
  {
    if units == [] then hash
    else Fold(Wrap(Wrap(hash * 31) + units[0]), units[1..])
  }

  function Hash(s: string): int {
    Fold(0, Units(s))
  }

  // ----- The hash is the documented polynomial -----

  function Power(n: nat): nat {
    if n == 0 then 1 else 31 * Power(n - 1)
  }

  /** s[0]*31^(n-1) + s[1]*31^(n-2) + ... + s[n-1], over the integers. */
  function Polynomial(units: seq<CodeUnit>): nat {
    if units == [] then 0 else units[0] * Power(|units| - 1) + Polynomial(units[1..])
  }

  lemma WrapCongruent(x: int, k: int)
    ensures Wrap(x + k * 0x1_0000_0000) == Wrap(x)
  {
    ModShift(x + 0x8000_0000, k);
  }

  lemma ModShift(x: int, k: int)
    ensures (x + k * 0x1_0000_0000) % 0x1_0000_0000 == x % 0x1_0000_0000
  {
    var q := x / 0x1_0000_0000;
    assert x == q * 0x1_0000_0000 + x % 0x1_0000_0000;
    var y := x + k * 0x1_0000_0000;
    var p := y / 0x1_0000_0000;
    assert y == p * 0x1_0000_0000 + y % 0x1_0000_0000;
  }

  /** Wrapping early or late makes no difference. */
  lemma WrapStep(x: int, u: int)
    ensures Wrap(Wrap(Wrap(x) * 31) + u) == Wrap(x * 31 + u)
  {
    var j := WrapOffset(x);
    var k := WrapOffset(Wrap(x) * 31);
    assert Wrap(Wrap(x) * 31) + u == x * 31 + u + (31 * j + k) * 0x1_0000_0000;
    WrapCongruent(x * 31 + u, 31 * j + k);
  }

  lemma WrapOffset(x: int) returns (k: int)
    ensures Wrap(x) == x + k * 0x1_0000_0000
  {
    k := -((x + 0x8000_0000) / 0x1_0000_0000);
  }

  lemma {:induction false} FoldPolynomial(x: int, units: seq<CodeUnit>)
    ensures Fold(Wrap(x), units) == Wrap(x * Power(|units|) + Polynomial(units))
    decreases |units|
  {
    if units == [] {
      assert x * Power(0) == x;
    } else {
      var u, rest := units[0], units[1..];
      WrapStep(x, u);
      FoldPolynomial(x * 31 + u, rest);
      Shift(x, u, Power(|rest|));
    }
  }

  lemma Shift(x: int, u: nat, p: nat)
    ensures (x * 31 + u) * p == x * (31 * p) + u * p
  {
  }

  /** The wrapping fold computes the polynomial reduced to a signed 32-bit value. */
  lemma HashIsPolynomial(s: string)
    ensures Hash(s) == Wrap(Polynomial(Units(s)))
    ensures -0x8000_0000 <= Hash(s) < 0x8000_0000
  {
    FoldPolynomial(0, Units(s));
  }

  // ----- Code units determine the string -----

  predicate HighSurrogate(u: CodeUnit) {
    0xD800 <= u < 0xDC00
  }

  /** Reads code units back; a high surrogate takes the unit after it along. */
  function Decoded(units: seq<CodeUnit>): seq<nat> {
    if units == [] then []
    else if HighSurrogate(units[0]) && |units| > 1 then
      var low: int := units[1];
      var x := 0x1_0000 + (units[0] - 0xD800) * 0x400 + (low - 0xDC00);
      [if x < 0 then 0 else x] + Decoded(units[2..])
    else [units[0]] + Decoded(units[1..])
  }

  function Scalars(s: string): seq<nat> {
    seq(|s|, i requires 0 <= i < |s| => s[i] as int)
  }

  lemma {:induction false} UnitsRoundTrip(s: string)
    ensures Decoded(Units(s)) == Scalars(s)
  {
    if s != "" {
      UnitsRoundTrip(s[1..]);
      var first, rest := CharUnits(s[0]), Units(s[1..]);
      assert (first + rest)[|first|..] == rest;
      assert Scalars(s) == [s[0] as int] + Scalars(s[1..]);
    }
  }

  // ----- Buckets -----

  /** Remainder that takes the sign of the dividend. */
  function TruncatedRemainder(a: int, n: nat): int
    requires n > 0
  {
    if a >= 0 then a % n else -((-a) % n)
  }

  function Magnitude(x: int): nat {
    if x >= 0 then x else -x
  }

  function KeyIndexFor(entity: EntityId, keyCount: nat): (index: Option<nat>)
    ensures index.None? <==> keyCount == 0
    ensures index.Some? ==> index.value < keyCount
    ensures index.Some? ==> index.value == Magnitude(TruncatedRemainder(Wrap(Polynomial(Units(entity))), keyCount))
  {
    HashIsPolynomial(entity);
    if keyCount == 0 then None else Some(Magnitude(Hash(entity)) % keyCount)
  }
}
