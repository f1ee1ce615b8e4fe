/** Splitting strings and writing and reading decimal numbers. */
module Text {
  import opened Ids

  /** Position of the first occurrence of `c`, or the length. */
  function CharIndex(s: string, c: char): (i: nat)
    ensures i <= |s| && c !in s[..i] && (i < |s| ==> s[i] == c)
    ensures i == |s| <==> c !in s
  {
    if s == "" then 0 else if s[0] == c then 0
    else
      var i := CharIndex(s[1..], c);
      assert s[..i + 1] == [s[0]] + s[1..][..i];
      i + 1
  }

  /** Position of the last occurrence of `c`, or none. */
  function LastIndex(s: string, c: char): (i: Option<nat>)
    ensures i.None? <==> c !in s
    ensures i.Some? ==> i.value < |s| && s[i.value] == c && c !in s[i.value + 1..]
  {
    if s == "" then None
    else if s[|s| - 1] == c then Some(|s| - 1)
    else
      var i := LastIndex(s[..|s| - 1], c);
      assert s == s[..|s| - 1] + [s[|s| - 1]];
      i
  }

  /** Whether `part` occurs at position `i`. */
  predicate OccursAt(s: string, part: string, i: nat) {
    i + |part| <= |s| && s[i..i + |part|] == part
  }

  /** Position of the first occurrence of `part`, or none. */
  function FirstOccurrence(s: string, part: string): (i: Option<nat>)
    ensures i.Some? ==> OccursAt(s, part, i.value) && forall j: nat :: j < i.value ==> !OccursAt(s, part, j)
    ensures i.None? ==> forall j: nat :: !OccursAt(s, part, j)
  {
    if |s| < |part| then None
    else if s[..|part|] == part then Some(0)
    else
      var i := FirstOccurrence(s[1..], part);
      assert forall j: nat :: j > 0 ==> (OccursAt(s, part, j) <==> OccursAt(s[1..], part, j - 1)) by {
        forall j: nat | j > 0 ensures OccursAt(s, part, j) <==> OccursAt(s[1..], part, j - 1) {
          OccursShift(s, part, j);
        }
      }
      if i.None? then None else Some(i.value + 1)
  }

  lemma OccursShift(s: string, part: string, j: nat)
    requires s != "" && j > 0
    ensures OccursAt(s, part, j) <==> OccursAt(s[1..], part, j - 1)
  {
    if j + |part| <= |s| {
      assert s[1..][j - 1..j - 1 + |part|] == s[j..j + |part|];
    }
  }

  ghost predicate Contains(s: string, part: string) {
    exists i: nat :: OccursAt(s, part, i)
  }

  function SplitFirst(s: string, part: string): Option<(string, string)> {
    match FirstOccurrence(s, part)
    case None => None
    case Some(i) => Some((s[..i], s[i + |part|..]))
  }

  function SplitChar(s: string, c: char): Option<(string, string)> {
    var i := CharIndex(s, c);
    if i == |s| then None else Some((s[..i], s[i + 1..]))
  }

  function SplitLast(s: string, c: char): Option<(string, string)> {
    match LastIndex(s, c)
    case None => None
    case Some(i) => Some((s[..i], s[i + 1..]))
  }

  /** All pieces between occurrences of `c`. */
  function Pieces(s: string, c: char): (pieces: seq<string>)
    ensures pieces != [] && forall p :: p in pieces ==> c !in p
    decreases |s|
  {
    var i := CharIndex(s, c);
    if i == |s| then [s] else [s[..i]] + Pieces(s[i + 1..], c)
  }

  /** Splitting at the first separator takes a front without it off again. */
  lemma SplitCharJoin(front: string, c: char, back: string)
    requires c !in front
    ensures SplitChar(front + [c] + back, c) == Some((front, back))
  {
    var s := front + [c] + back;
    var i := CharIndex(s, c);
    assert s[|front|] == c;
    assert s[..|front|] == front && s[|front| + 1..] == back;
  }

  lemma SplitLastJoin(front: string, c: char, back: string)
    requires c !in back
    ensures SplitLast(front + [c] + back, c) == Some((front, back))
  {
    var s := front + [c] + back;
    assert s[|front|] == c;
    var i := LastIndex(s, c).value;
    assert s[..|front|] == front && s[|front| + 1..] == back;
  }

  lemma PiecesJoin(front: string, c: char, back: string)
    requires c !in front
    ensures Pieces(front + [c] + back, c) == [front] + Pieces(back, c)
  {
    SplitCharJoin(front, c, back);
    var s := front + [c] + back;
    assert c in s by { assert s[|front|] == c; }
  }

  lemma PiecesWhole(s: string, c: char)
    requires c !in s
    ensures Pieces(s, c) == [s]
  {
  }

  // ----- Decimal numbers -----

  function DigitChar(d: nat): char
    requires d < 10
  {
    ('0' as int + d) as char
  }

  predicate IsDigit(c: char) {
    '0' as int <= c as int <= '9' as int
  }

  function Decimal(n: nat): (s: string)
    ensures s != "" && forall c :: c in s ==> IsDigit(c)
  {
    if n < 10 then [DigitChar(n)] else Decimal(n / 10) + [DigitChar(n % 10)]
  }

  function Digits(s: string): nat
    requires forall c :: c in s ==> IsDigit(c)
  {
    if s == "" then 0
    else
      assert IsDigit(s[|s| - 1]);
      10 * Digits(s[..|s| - 1]) + (s[|s| - 1] as int - '0' as int)
  }

  /** An unsigned number below `bound`: digits, after at most one plus sign. */
  function ParseUnsigned(s: string, bound: nat): Option<nat> {
    var digits := if s != "" && s[0] == '+' then s[1..] else s;
    if digits == "" || exists c :: c in digits && !IsDigit(c) then None
    else if Digits(digits) < bound then Some(Digits(digits)) else None
  }

  lemma {:induction false} DigitsDecimal(n: nat)
    ensures Digits(Decimal(n)) == n
  {
    if n >= 10 {
      DigitsDecimal(n / 10);
      assert Decimal(n)[..|Decimal(n)| - 1] == Decimal(n / 10);
    }
  }

  lemma ParseDecimal(n: nat, bound: nat)
    requires n < bound
    ensures ParseUnsigned(Decimal(n), bound) == Some(n)
  {
    DigitsDecimal(n);
    assert Decimal(n)[0] in Decimal(n);
  }
}
