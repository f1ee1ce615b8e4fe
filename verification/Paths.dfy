/** Actor paths: their printed form, and reading it back. */
module Paths {
  import opened Ids
  import opened Text

  type Port = p: nat | p < 0x1_0000

  type Uid = u: nat | u < 0x1_0000_0000_0000_0000

  datatype Address = Address(protocol: string, system: string, host: Option<string>, port: Option<Port>)

  datatype Segment = Segment(name: string, uid: Option<Uid>)

  datatype ActorPath = ActorPath(value: string, address: Address, segments: seq<Segment>)

  // ----- Printing -----

  function AuthorityText(a: Address): string {
    a.system +
    if a.host.None? then "" else "@" + a.host.value + if a.port.None? then "" else ":" + Decimal(a.port.value)
  }

  function AddressText(a: Address): string {
    a.protocol + "://" + AuthorityText(a)
  }

  function SegmentText(s: Segment): string {
    s.name + if s.uid.None? then "" else "#" + Decimal(s.uid.value)
  }

  function Trail(segments: seq<Segment>): string {
    if segments == [] then "" else "/" + SegmentText(segments[0]) + Trail(segments[1..])
  }

  function PathText(a: Address, segments: seq<Segment>): string {
    AddressText(a) + Trail(segments)
  }

  lemma Appended(before: string, s: Segment, after: string, rest: string)
    requires after == before + "/" + s.name + if s.uid.Some? then "#" + Decimal(s.uid.value) else ""
    ensures after + rest == before + ("/" + SegmentText(s) + rest)
  {
    assert after == before + ("/" + SegmentText(s));
    assert before + ("/" + SegmentText(s)) + rest == before + ("/" + SegmentText(s) + rest);
  }

  method FromParts(address: Address, segments: seq<Segment>) returns (path: ActorPath)
    ensures path == ActorPath(PathText(address, segments), address, segments)
  {
    hide SegmentText, Decimal, AddressText;
    var value := AddressText(address);
    assert segments[0..] == segments;
    for i := 0 to |segments|
      invariant value + Trail(segments[i..]) == PathText(address, segments)
    {
      assert segments[i..][1..] == segments[i + 1..];
      ghost var before := value;
      value := value + "/" + segments[i].name;
      if segments[i].uid.Some? {
        ghost var named := value;
        value := value + "#" + Decimal(segments[i].uid.value);
        assert value == named + ("#" + Decimal(segments[i].uid.value));
      }
      Appended(before, segments[i], value, Trail(segments[i + 1..]));
    }
    path := ActorPath(value, address, segments);
  }

  // ----- Parsing -----

  function ParsePort(s: string): Option<Port> {
    match ParseUnsigned(s, 0x1_0000)
    case None => None
    case Some(n) => Some(n)
  }

  function ParseUid(s: string): Option<Uid> {
    match ParseUnsigned(s, 0x1_0000_0000_0000_0000)
    case None => None
    case Some(n) => Some(n)
  }

  function ParseAuthority(s: string): (string, Option<string>, Option<Port>) {
    match SplitChar(s, '@')
    case None => (s, None, None)
    case Some((system, hostPort)) =>
      match SplitLast(hostPort, ':')
      case None => (system, Some(hostPort), None)
      case Some((host, port)) => (system, Some(host), ParsePort(port))
  }

  function ParseSegment(s: string): Segment {
    match SplitLast(s, '#')
    case None => Segment(s, None)
    case Some((name, uid)) => Segment(name, ParseUid(uid))
  }

  function ParseSegments(pieces: seq<string>): seq<Segment> {
    if pieces == [] then []
    else (if pieces[0] == "" then [] else [ParseSegment(pieces[0])]) + ParseSegments(pieces[1..])
  }

  /** Authority and path of what follows the protocol. */
  function Divide(rest: string): (string, string) {
    match SplitChar(rest, '/')
    case None => (rest, "")
    case Some(parts) => parts
  }

  function ParsePath(value: string): Option<(Address, seq<Segment>)> {
    match SplitFirst(value, "://")
    case None => None
    case Some((protocol, rest)) =>
      var (authority, path) := Divide(rest);
      var (system, host, port) := ParseAuthority(authority);
      Some((Address(protocol, system, host, port), ParseSegments(Pieces(path, '/'))))
  }

  // ----- Exactly which paths can be read back -----

  ghost predicate ReadableAddress(a: Address) {
    !Contains(a.protocol, "://") && ReadableAuthority(a)
  }

  predicate ReadableAuthority(a: Address) {
    && '/' !in a.system && '@' !in a.system
    && (a.host.None? ==> a.port.None?)
    && (a.host.Some? ==> '/' !in a.host.value && (a.port.None? ==> ':' !in a.host.value))
  }

  predicate ReadableSegment(s: Segment) {
    '/' !in s.name && (s.uid.None? ==> s.name != "" && '#' !in s.name)
  }

  lemma ProtocolJoin(protocol: string, rest: string)
    requires !Contains(protocol, "://")
    ensures SplitFirst(protocol + "://" + rest, "://") == Some((protocol, rest))
  {
    var s := protocol + "://" + rest;
    var n := |protocol|;
    assert s[n] == ':' && s[n + 1] == '/' && s[n + 2] == '/';
    assert s[..n] == protocol && s[n + 3..] == rest;
    assert OccursAt(s, "://", n) by {
      assert s[n..n + 3] == "://";
    }
    forall j: nat | j < n ensures !OccursAt(s, "://", j) {
      NoEarlier(protocol, rest, j);
    }
    var i := FirstOccurrence(s, "://").value;
    assert i == n;
  }

  /** The separator cannot begin inside the protocol and end after it. */
  lemma NoEarlier(protocol: string, rest: string, j: nat)
    requires !Contains(protocol, "://") && j < |protocol|
    ensures !OccursAt(protocol + "://" + rest, "://", j)
  {
    var s, n := protocol + "://" + rest, |protocol|;
    if j + 3 <= n {
      assert s[j..j + 3] == protocol[j..j + 3];
      assert !OccursAt(protocol, "://", j);
    } else {
      assert s[j..j + 3][n - j] == s[n] == ':';
      assert "://"[n - j] == '/';
    }
  }

  lemma ProtocolSplit(s: string)
    ensures var parts := SplitFirst(s, "://"); parts.Some? ==> !Contains(parts.value.0, "://")
  {
    var found := FirstOccurrence(s, "://");
    if found.Some? {
      var front := s[..found.value];
      forall j: nat ensures !OccursAt(front, "://", j) {
        if j + 3 <= |front| {
          assert s[j..j + 3] == front[j..j + 3];
          assert !OccursAt(s, "://", j);
        }
      }
    }
  }

  lemma DecimalPlain(n: nat)
    ensures '/' !in Decimal(n) && ':' !in Decimal(n) && '#' !in Decimal(n)
  {
    assert !IsDigit('/') && !IsDigit(':') && !IsDigit('#');
  }

  lemma AuthorityPlain(a: Address)
    requires '/' !in a.system && (a.host.Some? ==> '/' !in a.host.value)
    ensures '/' !in AuthorityText(a)
  {
    if a.port.Some? {
      DecimalPlain(a.port.value);
    }
  }

  /** The authority is read back exactly when its parts do not run into each other. */
  lemma AuthorityRoundTrip(a: Address)
    ensures ParseAuthority(AuthorityText(a)) == (a.system, a.host, a.port) <==>
      && '@' !in a.system
      && (a.host.None? ==> a.port.None?)
      && (a.host.Some? && a.port.None? ==> ':' !in a.host.value)
  {
    hide CharIndex, LastIndex;
    if '@' in a.system {
      SystemStops(AuthorityText(a));
    } else if a.host.None? {
      assert AuthorityText(a) == a.system;
    } else if a.port.None? {
      assert AuthorityText(a) == a.system + ['@'] + a.host.value;
      SplitCharJoin(a.system, '@', a.host.value);
    } else {
      var hostPort := a.host.value + [':'] + Decimal(a.port.value);
      assert AuthorityText(a) == a.system + ['@'] + hostPort;
      SplitCharJoin(a.system, '@', hostPort);
      DecimalPlain(a.port.value);
      SplitLastJoin(a.host.value, ':', Decimal(a.port.value));
      ParseDecimal(a.port.value, 0x1_0000);
    }
  }

  lemma SystemStops(s: string)
    ensures '@' !in ParseAuthority(s).0
  {
  }

  lemma AuthorityKeeps(s: string)
    requires '/' !in s
    ensures '/' !in ParseAuthority(s).0
    ensures ParseAuthority(s).1.Some? ==> '/' !in ParseAuthority(s).1.value
  {
  }

  /** A segment is read back exactly when it is not empty text and a name without a number has no mark. */
  lemma SegmentRoundTrip(s: Segment)
    ensures ParseSegment(SegmentText(s)) == s <==> (s.uid.None? ==> '#' !in s.name)
    ensures SegmentText(s) == "" <==> s.uid.None? && s.name == ""
    ensures '/' in SegmentText(s) <==> '/' in s.name
  {
    hide LastIndex;
    if s.uid.None? {
      assert SegmentText(s) == s.name;
    } else {
      DecimalPlain(s.uid.value);
      assert SegmentText(s) == s.name + ['#'] + Decimal(s.uid.value);
      SplitLastJoin(s.name, '#', Decimal(s.uid.value));
      ParseDecimal(s.uid.value, 0x1_0000_0000_0000_0000);
    }
  }

  function Texts(segments: seq<Segment>): seq<string> {
    seq(|segments|, i requires 0 <= i < |segments| => SegmentText(segments[i]))
  }

  lemma TrailSplit(segments: seq<Segment>)
    requires segments != []
    ensures Trail(segments) != "" && Trail(segments)[0] == '/'
    ensures |segments| == 1 ==> Trail(segments)[1..] == SegmentText(segments[0])
    ensures |segments| > 1 ==>
      Trail(segments[1..]) != "" && Trail(segments)[1..] == SegmentText(segments[0]) + ['/'] + Trail(segments[1..])[1..]
  {
    hide SegmentText, Trail;
    var text, rest := SegmentText(segments[0]), segments[1..];
    TrailStep(segments);
    Slashed(text, Trail(rest));
    if rest == [] {
      TrailEmpty();
      assert text + [] == text;
    } else {
      TrailStep(rest);
      Slashed(SegmentText(rest[0]), Trail(rest[1..]));
      Rejoined(text, Trail(rest));
    }
  }

  lemma TrailStep(segments: seq<Segment>)
    requires segments != []
    ensures Trail(segments) == ['/'] + SegmentText(segments[0]) + Trail(segments[1..])
  {
    hide SegmentText;
  }

  lemma Slashed(text: string, more: string)
    ensures var s := ['/'] + text + more; s != [] && s[0] == '/' && s[1..] == text + more
  {
  }

  lemma Rejoined(text: string, more: string)
    requires more != [] && more[0] == '/'
    ensures text + more == text + ['/'] + more[1..]
  {
    assert more == ['/'] + more[1..];
  }

  lemma {:induction false} TrailPieces(segments: seq<Segment>)
    requires segments != [] && forall i :: 0 <= i < |segments| ==> '/' !in segments[i].name
    ensures Trail(segments) != "" && Pieces(Trail(segments)[1..], '/') == Texts(segments)
  {
    hide Pieces, SegmentText, Trail;
    var text, rest := SegmentText(segments[0]), segments[1..];
    TrailSplit(segments);
    SegmentRoundTrip(segments[0]);
    if rest == [] {
      PiecesWhole(text, '/');
      assert Texts(segments) == [text];
    } else {
      TrailPieces(rest);
      PiecesJoin(text, '/', Trail(rest)[1..]);
      assert Texts(segments) == [text] + Texts(rest);
    }
  }

  lemma {:induction false} SegmentsLength(pieces: seq<string>)
    ensures |ParseSegments(pieces)| <= |pieces|
    ensures |ParseSegments(pieces)| == |pieces| ==> "" !in pieces
  {
    if pieces != [] {
      SegmentsLength(pieces[1..]);
    }
  }

  lemma {:induction false} SegmentsParsed(pieces: seq<string>)
    requires "" !in pieces
    ensures |ParseSegments(pieces)| == |pieces|
    ensures forall i :: 0 <= i < |pieces| ==> ParseSegments(pieces)[i] == ParseSegment(pieces[i])
  {
    if pieces != [] {
      SegmentsParsed(pieces[1..]);
      assert ParseSegments(pieces) == [ParseSegment(pieces[0])] + ParseSegments(pieces[1..]);
    }
  }

  lemma {:induction false} NamesKept(pieces: seq<string>)
    requires forall p :: p in pieces ==> '/' !in p
    ensures forall s :: s in ParseSegments(pieces) ==> '/' !in s.name
  {
    if pieces != [] {
      NamesKept(pieces[1..]);
      assert pieces[0] in pieces;
      NameKept(pieces[0]);
    }
  }

  lemma NameKept(s: string)
    requires '/' !in s
    ensures '/' !in ParseSegment(s).name
  {
  }

  /** With no separator inside a name, the segments are read back exactly when each one is readable. */
  lemma TextsRoundTrip(segments: seq<Segment>)
    requires forall i :: 0 <= i < |segments| ==> '/' !in segments[i].name
    ensures ParseSegments(Texts(segments)) == segments <==>
      forall i :: 0 <= i < |segments| ==> ReadableSegment(segments[i])
  {
    hide ParseSegment, SegmentText;
    var texts := Texts(segments);
    forall i | 0 <= i < |segments|
      ensures ReadableSegment(segments[i]) <==> texts[i] != "" && ParseSegment(texts[i]) == segments[i]
    {
      SegmentRoundTrip(segments[i]);
    }
    SegmentsLength(texts);
    if "" !in texts {
      SegmentsParsed(texts);
    } else {
      var i :| 0 <= i < |texts| && texts[i] == "";
      assert !ReadableSegment(segments[i]);
    }
  }

  lemma TrailRoundTrip(authority: string, segments: seq<Segment>)
    requires '/' !in authority
    requires forall i :: 0 <= i < |segments| ==> '/' !in segments[i].name
    ensures Divide(authority + Trail(segments)).0 == authority
    ensures ParseSegments(Pieces(Divide(authority + Trail(segments)).1, '/')) == segments <==>
      forall i :: 0 <= i < |segments| ==> ReadableSegment(segments[i])
  {
    hide CharIndex, ParseSegment, Trail, Pieces, ParseSegments, Texts, Divide;
    if segments == [] {
      TrailEmpty();
      assert authority + Trail(segments) == authority;
      DividesNowhere(authority);
    } else {
      TrailSplit(segments);
      var back := Trail(segments)[1..];
      Rejoined(authority, Trail(segments));
      DividesAt(authority, back);
      TrailPieces(segments);
      TextsRoundTrip(segments);
    }
  }

  lemma DividesNowhere(s: string)
    requires '/' !in s
    ensures Divide(s) == (s, "")
  {
  }

  lemma DividesAt(front: string, back: string)
    requires '/' !in front
    ensures Divide(front + ['/'] + back) == (front, back)
  {
    hide CharIndex;
    SplitCharJoin(front, '/', back);
  }

  lemma TrailEmpty()
    ensures Trail([]) == "" && ParseSegments(Pieces("", '/')) == []
  {
  }

  /** Parsing the printed form of a path gives back its address and segments if and only if the
      protocol does not contain the separator, the system has no slash and no at sign, a port comes
      with a host, the host has no slash and without a port no colon, no name has a slash, and a name
      without a number is not empty and has no number mark. */
  lemma PathRoundTrip(a: Address, segments: seq<Segment>)
    ensures ParsePath(PathText(a, segments)) == Some((a, segments)) <==>
      ReadableAddress(a) && forall i :: 0 <= i < |segments| ==> ReadableSegment(segments[i])
  {
    hide SplitFirst, ParseAuthority, Divide, Pieces, AuthorityText, Trail, ParseSegments, Contains;
    var text := PathText(a, segments);
    var rest := AuthorityText(a) + Trail(segments);
    assert text == a.protocol + "://" + rest;
    ProtocolSplit(text);
    if !Contains(a.protocol, "://") {
      ProtocolJoin(a.protocol, rest);
      RestRoundTrip(a, segments);
    }
  }

  lemma RestRoundTrip(a: Address, segments: seq<Segment>)
    ensures var (authority, path) := Divide(AuthorityText(a) + Trail(segments));
      (ParseAuthority(authority) == (a.system, a.host, a.port) && ParseSegments(Pieces(path, '/')) == segments) <==>
      ReadableAuthority(a) && forall i :: 0 <= i < |segments| ==> ReadableSegment(segments[i])
  {
    hide ParseAuthority, Divide, AuthorityText, Trail, ParseSegments, Pieces;
    var (authority, path) := Divide(AuthorityText(a) + Trail(segments));
    DivideStops(AuthorityText(a) + Trail(segments));
    AuthorityKeeps(authority);
    NamesKept(Pieces(path, '/'));
    AuthorityRoundTrip(a);
    if '/' !in a.system && (a.host.Some? ==> '/' !in a.host.value) {
      AuthorityPlain(a);
      if forall i :: 0 <= i < |segments| ==> '/' !in segments[i].name {
        TrailRoundTrip(AuthorityText(a), segments);
      }
    }
  }

  lemma DivideStops(s: string)
    ensures '/' !in Divide(s).0
  {
  }

  // ----- Element names -----

  predicate PathChar(c: char) {
    'a' <= c <= 'z' || 'A' <= c <= 'Z' || IsDigit(c) || c in "-_.*$+:@&=,!~';"
  }

  predicate HexDigit(c: char) {
    'a' <= c <= 'f' || 'A' <= c <= 'F' || IsDigit(c)
  }

  /** Plain characters and percent signs followed by two hexadecimal digits. */
  predicate Encoded(s: string) {
    s == ""
    || (PathChar(s[0]) && Encoded(s[1..]))
    || (|s| >= 3 && s[0] == '%' && HexDigit(s[1]) && HexDigit(s[2]) && Encoded(s[3..]))
  }

  predicate ValidElement(name: string, allowReserved: bool) {
    name != "" && (name[0] == '$' ==> allowReserved) && Encoded(name)
  }

  method IsValidPathElement(name: string, allowReserved: bool) returns (valid: bool)
    ensures valid <==> ValidElement(name, allowReserved)
  {
    if name == "" {
      return false;
    }
    if name[0] == '$' && !allowReserved {
      return false;
    }
    var index := 0;
    assert name[0..] == name;
    while index < |name|
      invariant index <= |name| && (Encoded(name) <==> Encoded(name[index..]))
    {
      var c := name[index];
      assert name[index..][1..] == name[index + 1..];
      if PathChar(c) {
        assert c != '%';
        index := index + 1;
      } else if c == '%' && index + 2 < |name| && HexDigit(name[index + 1]) && HexDigit(name[index + 2]) {
        assert name[index..][3..] == name[index + 3..];
        index := index + 3;
      } else {
        return false;
      }
    }
    return true;
  }

  lemma {:induction false} EncodedPlain(s: string)
    requires Encoded(s)
    ensures '/' !in s && '#' !in s
    decreases |s|
  {
    if s != "" {
      if PathChar(s[0]) && Encoded(s[1..]) {
        EncodedPlain(s[1..]);
        assert s == [s[0]] + s[1..];
      } else {
        EncodedPlain(s[3..]);
        assert s == [s[0], s[1], s[2]] + s[3..];
      }
    }
  }

  /** Paths made of valid element names under a readable address are always read back. */
  lemma ValidPathRoundTrip(a: Address, segments: seq<Segment>, allowReserved: bool)
    requires ReadableAddress(a)
    requires forall i :: 0 <= i < |segments| ==> ValidElement(segments[i].name, allowReserved)
    ensures ParsePath(PathText(a, segments)) == Some((a, segments))
  {
    forall i | 0 <= i < |segments| ensures ReadableSegment(segments[i]) {
      EncodedPlain(segments[i].name);
    }
    PathRoundTrip(a, segments);
  }
}
