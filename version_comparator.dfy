/**
 * VersionComparator: parses "major.minor.patch" strings and orders them.
 * An unparseable side makes the two versions compare as the same.
 */
module Comparator {
  import opened Basics
  import opened Text
  import opened Decimal
  import opened AppVersions

  datatype VersionTriple = VersionTriple(major: int, minor: int, patch: int)

  /** Foundation's `ComparisonResult`. */
  datatype ComparisonResult = OrderedAscending | OrderedSame | OrderedDescending

  /** `compactMap { Int($0) }`: the pieces that parse as integers, in their order. */
  function NumericComponents(pieces: seq<string>): (values: seq<int>)
    ensures |values| <= |pieces|
  {
    if pieces == [] then []
    else match ParseInt(pieces[0])
      case Some(v) => [v] + NumericComponents(pieces[1..])
      case None => NumericComponents(pieces[1..])
  }

  /** `parseVersion`: the first three numeric dot-separated pieces, or nil if there are fewer. */
  function ParseVersion(s: string): (r: Option<VersionTriple>)
    ensures r.None? <==> |NumericComponents(SplitOnDots(s))| < 3
    ensures r.Some? ==> [r.value.major, r.value.minor, r.value.patch] == NumericComponents(SplitOnDots(s))[..3]
  {
    var components := NumericComponents(SplitOnDots(s));
    if |components| < 3 then None
    else Some(VersionTriple(components[0], components[1], components[2]))
  }

  /** Lexicographic order on triples, most significant component first. */
  predicate Precedes(a: VersionTriple, b: VersionTriple) {
    || a.major < b.major
    || (a.major == b.major && a.minor < b.minor)
    || (a.major == b.major && a.minor == b.minor && a.patch < b.patch)
  }

  /** `compare(_:with:)`. */
  function Compare(current: string, release: string): (r: ComparisonResult)
    ensures r == OrderedAscending <==>
      ParseVersion(current).Some? && ParseVersion(release).Some? &&
      Precedes(ParseVersion(current).value, ParseVersion(release).value)
    ensures r == OrderedDescending <==>
      ParseVersion(current).Some? && ParseVersion(release).Some? &&
      Precedes(ParseVersion(release).value, ParseVersion(current).value)
    ensures r == OrderedSame <==>
      ParseVersion(current).None? || ParseVersion(release).None? ||
      ParseVersion(current) == ParseVersion(release)
  {
    var c := ParseVersion(current);
    var rel := ParseVersion(release);
    if c.None? || rel.None? then OrderedSame
    else if c.value.major < rel.value.major then OrderedAscending
    else if c.value.major > rel.value.major then OrderedDescending
    else if c.value.minor < rel.value.minor then OrderedAscending
    else if c.value.minor > rel.value.minor then OrderedDescending
    else if c.value.patch < rel.value.patch then OrderedAscending
    else if c.value.patch > rel.value.patch then OrderedDescending
    else OrderedSame
  }

  /** The comparator holds the two apps; `shouldNotify` asks whether current < release. */
  datatype VersionComparator = VersionComparator(currentApp: AppVersion, releaseApp: AppVersion) {

    function ShouldNotify(): (r: bool)
      ensures r <==>
        ParseVersion(currentApp.version).Some? && ParseVersion(releaseApp.version).Some? &&
        Precedes(ParseVersion(currentApp.version).value, ParseVersion(releaseApp.version).value)
    {
      Compare(currentApp.version, releaseApp.version) == OrderedAscending
    }
  }

  // ---------------------------------------------------------------------------
  // Ordering properties
  // ---------------------------------------------------------------------------

  /** `Precedes` is a strict total order on triples. */
  lemma PrecedesIsStrictTotalOrder(a: VersionTriple, b: VersionTriple, c: VersionTriple)
    ensures !Precedes(a, a)
    ensures Precedes(a, b) ==> !Precedes(b, a)
    ensures Precedes(a, b) && Precedes(b, c) ==> Precedes(a, c)
    ensures a == b || Precedes(a, b) || Precedes(b, a)
  {
  }

  lemma CompareReflexive(s: string)
    ensures Compare(s, s) == OrderedSame
  {
  }

  lemma CompareAntisymmetric(a: string, b: string)
    ensures Compare(a, b) == OrderedAscending <==> Compare(b, a) == OrderedDescending
    ensures Compare(a, b) == OrderedSame <==> Compare(b, a) == OrderedSame
  {
  }

  lemma CompareTransitive(a: string, b: string, c: string)
    ensures Compare(a, b) == OrderedAscending && Compare(b, c) == OrderedAscending ==>
      Compare(a, c) == OrderedAscending
    ensures Compare(a, b) == OrderedDescending && Compare(b, c) == OrderedDescending ==>
      Compare(a, c) == OrderedDescending
  {
  }

  /** An unparseable side always gives "same", in both argument orders, and no notification. */
  lemma UnparseableIsSame(bad: string, other: AppVersion, app: AppVersion)
    requires ParseVersion(bad).None?
    requires app.version == bad
    ensures Compare(bad, other.version) == OrderedSame && Compare(other.version, bad) == OrderedSame
    ensures !VersionComparator(app, other).ShouldNotify()
    ensures !VersionComparator(other, app).ShouldNotify()
  {
  }

  // ---------------------------------------------------------------------------
  // Parsing properties
  // ---------------------------------------------------------------------------

  /** The canonical text of a triple, as `"\(major).\(minor).\(patch)"`. */
  function FormatVersion(t: VersionTriple): string {
    IntToString(t.major) + "." + IntToString(t.minor) + "." + IntToString(t.patch)
  }

  lemma NumericComponentsOfNumbers(a: int, b: int, c: int, tail: seq<string>)
    ensures NumericComponents([IntToString(a), IntToString(b), IntToString(c)] + tail)
         == [a, b, c] + NumericComponents(tail)
  {
    var p2 := [IntToString(c)] + tail;
    var p1 := [IntToString(b)] + p2;
    var p0 := [IntToString(a)] + p1;
    assert p0 == [IntToString(a), IntToString(b), IntToString(c)] + tail;
    assert p2[0] == IntToString(c) && p2[1..] == tail;
    assert NumericComponents(p2) == [c] + NumericComponents(tail);
    assert p1[0] == IntToString(b) && p1[1..] == p2;
    assert NumericComponents(p1) == [b, c] + NumericComponents(tail);
    assert p0[0] == IntToString(a) && p0[1..] == p1;
    assert NumericComponents(p0) == [a, b, c] + NumericComponents(tail);
  }

  /** Parsing undoes formatting. */
  lemma ParseFormatRoundTrip(t: VersionTriple)
    ensures ParseVersion(FormatVersion(t)) == Some(t)
  {
    var a, b, c := IntToString(t.major), IntToString(t.minor), IntToString(t.patch);
    assert [a, b, c][1..] == [b, c] && [b, c][1..] == [c];
    assert JoinWithDots([c]) == c;
    assert JoinWithDots([b, c]) == b + "." + c;
    assert JoinWithDots([a, b, c]) == a + "." + (b + "." + c);
    assert FormatVersion(t) == JoinWithDots([a, b, c]);
    SplitJoin([a, b, c]);
    NumericComponentsOfNumbers(t.major, t.minor, t.patch, []);
    assert [a, b, c] + [] == [a, b, c];
  }

  lemma NumericComponentsCons(piece: string, rest: seq<string>)
    ensures NumericComponents([piece] + rest) ==
      match ParseInt(piece)
      case Some(v) => [v] + NumericComponents(rest)
      case None => NumericComponents(rest)
  {
    assert ([piece] + rest)[1..] == rest;
  }

  lemma ParseNumericPieces(s: string, t: VersionTriple, tail: seq<string>)
    requires SplitOnDots(s) == [IntToString(t.major), IntToString(t.minor), IntToString(t.patch)] + tail
    ensures ParseVersion(s) == Some(t)
  {
    NumericComponentsOfNumbers(t.major, t.minor, t.patch, tail);
  }

  /** Splitting a piece off the front of `piece + "." + rest`. */
  lemma SplitLeadingPiece(piece: string, rest: string)
    requires IsSegment(piece)
    ensures SplitOnDots(piece + "." + rest) == [piece] + SplitOnDots(rest)
  {
    SplitAroundDot(piece, rest);
    SplitSegment(piece);
  }

  /** Three dot-free pieces in front of `rest` split off one by one. */
  lemma SplitThreeLeading(a: string, b: string, c: string, rest: string)
    requires IsSegment(a) && IsSegment(b) && IsSegment(c)
    ensures SplitOnDots(a + "." + b + "." + c + "." + rest) == [a, b, c] + SplitOnDots(rest)
  {
    var s1 := c + "." + rest;
    var s2 := b + "." + s1;
    assert a + "." + b + "." + c + "." + rest == a + "." + s2;
    SplitLeadingPiece(c, rest);
    SplitLeadingPiece(b, s1);
    SplitLeadingPiece(a, s2);
  }

  /** Only the first three numeric pieces count: whatever follows them is ignored. */
  lemma ExtraPiecesIgnored(t: VersionTriple, rest: string)
    ensures ParseVersion(FormatVersion(t) + "." + rest) == Some(t)
  {
    var a, b, c := IntToString(t.major), IntToString(t.minor), IntToString(t.patch);
    SplitThreeLeading(a, b, c, rest);
    ParseNumericPieces(FormatVersion(t) + "." + rest, t, SplitOnDots(rest));
  }

  /** A non-numeric piece is dropped before counting. */
  lemma NonNumericPieceSkipped(piece: string, rest: string)
    requires IsSegment(piece) && ParseInt(piece).None?
    ensures ParseVersion(piece + "." + rest) == ParseVersion(rest)
  {
    SplitAroundDot(piece, rest);
    SplitSegment(piece);
    assert ([piece] + SplitOnDots(rest))[1..] == SplitOnDots(rest);
  }

  /** Empty pieces are dropped: doubling a dot changes nothing. */
  lemma DoubledDotIgnored(a: string, b: string)
    ensures ParseVersion(a + ".." + b) == ParseVersion(a + "." + b)
  {
    EmptyPieceOmitted(a, b);
  }

  /** Fewer than three numeric pieces: nil. */
  lemma ParseExamplesTooShort()
    ensures ParseVersion("1.2").None?
    ensures ParseVersion("abc").None?
  {
    assert "1.2" == "1" + "." + "2";
    SplitLeadingPiece("1", "2");
    SplitSegment("2");
    SplitSegment("abc");
  }

  /** A fourth piece is ignored. */
  lemma ParseExampleFourPieces()
    ensures ParseVersion("1.2.3.4") == Some(VersionTriple(1, 2, 3))
  {
    var t := VersionTriple(1, 2, 3);
    assert FormatVersion(t) == "1.2.3";
    assert "1.2.3.4" == FormatVersion(t) + "." + "4";
    ExtraPiecesIgnored(t, "4");
  }

  /** A non-numeric piece between numeric ones is skipped, so the next numeric piece moves up. */
  lemma InnerWordSkipped(t: VersionTriple, word: string)
    requires IsSegment(word) && ParseInt(word).None?
    ensures ParseVersion(IntToString(t.major) + "." + word + "." + IntToString(t.minor) + "." + IntToString(t.patch))
         == Some(t)
  {
    var a, b, c := IntToString(t.major), IntToString(t.minor), IntToString(t.patch);
    var s2 := b + "." + c;
    var s1 := word + "." + s2;
    var s0 := a + "." + s1;
    assert a + "." + word + "." + b + "." + c == s0;
    SplitLeadingPiece(b, c);
    SplitSegment(c);
    SplitLeadingPiece(word, s2);
    SplitLeadingPiece(a, s1);
    assert SplitOnDots(s0) == [a] + ([word] + ([b] + [c]));
    NumericComponentsCons(c, []);
    NumericComponentsCons(b, [c]);
    NumericComponentsCons(word, [b] + [c]);
    NumericComponentsCons(a, [word] + ([b] + [c]));
  }

  lemma ParseExampleSkipsWord()
    ensures ParseVersion("1.x.2.3") == Some(VersionTriple(1, 2, 3))
  {
    var t := VersionTriple(1, 2, 3);
    assert IntToString(1) == "1" && IntToString(2) == "2" && IntToString(3) == "3";
    assert ParseInt("x").None?;
    InnerWordSkipped(t, "x");
    assert "1" + "." + "x" + "." + "2" + "." + "3" == "1.x.2.3";
  }

  /** Three dot-separated integer pieces parse to their values, whatever their spelling. */
  lemma ParseThreePieces(a: string, b: string, c: string, t: VersionTriple)
    requires IsSegment(a) && IsSegment(b) && IsSegment(c)
    requires ParseInt(a) == Some(t.major) && ParseInt(b) == Some(t.minor) && ParseInt(c) == Some(t.patch)
    ensures ParseVersion(a + "." + b + "." + c) == Some(t)
  {
    var s1 := b + "." + c;
    var s0 := a + "." + s1;
    assert a + "." + b + "." + c == s0;
    SplitLeadingPiece(b, c);
    SplitSegment(c);
    SplitLeadingPiece(a, s1);
    NumericComponentsCons(c, []);
    NumericComponentsCons(b, [c]);
    NumericComponentsCons(a, [b] + [c]);
  }

  /** A zero-padded piece counts by its value: "1.09.0" is newer than "1.8.0". */
  lemma LeadingZeroExample()
    ensures ParseVersion("1.09.0") == Some(VersionTriple(1, 9, 0))
    ensures Compare("1.09.0", "1.8.0") == OrderedDescending
  {
    assert "09" == "0" + "9";
    LeadingZeroIgnored("9");
    assert ParseInt("09") == Some(9);
    assert ParseInt("1") == Some(1) && ParseInt("0") == Some(0) && ParseInt("8") == Some(8);
    ParseThreePieces("1", "09", "0", VersionTriple(1, 9, 0));
    assert "1" + "." + "09" + "." + "0" == "1.09.0";
    ParseThreePieces("1", "8", "0", VersionTriple(1, 8, 0));
    assert "1" + "." + "8" + "." + "0" == "1.8.0";
  }

  /** A date-style version with zero-padded pieces: "2024.01.05" is (2024, 1, 5). */
  lemma DateStyleExample()
    ensures ParseVersion("2024.01.05") == Some(VersionTriple(2024, 1, 5))
  {
    assert "01" == "0" + "1" && "05" == "0" + "5";
    LeadingZeroIgnored("1");
    LeadingZeroIgnored("5");
    assert ParseInt("01") == Some(1) && ParseInt("05") == Some(5);
    var y := "2024";
    assert y[..3] == "202" && "202"[..2] == "20" && "20"[..1] == "2";
    assert DigitsValue(y) == 2024;
    ParseThreePieces("2024", "01", "05", VersionTriple(2024, 1, 5));
    assert "2024" + "." + "01" + "." + "05" == "2024.01.05";
  }
}
