/**
 * The string operations the plugin relies on: lowercasing, substring search and
 * replacement, and splitting on '.' with empty pieces dropped.
 * Strings are sequences of Unicode scalar values.
 */
module Text {

  // ---------------------------------------------------------------------------
  // Lowercasing (ASCII letters only)
  // ---------------------------------------------------------------------------

  predicate IsUpperAscii(c: char) {
    'A' <= c <= 'Z'
  }

  function LowerChar(c: char): (d: char)
    ensures !IsUpperAscii(d)
    ensures !IsUpperAscii(c) ==> d == c
  {
    if IsUpperAscii(c) then (c as int + 32) as char else c
  }

  predicate IsLowercase(s: string) {
    forall i :: 0 <= i < |s| ==> !IsUpperAscii(s[i])
  }

  /** `String.lowercased()`, restricted to the ASCII letters A-Z. */
  function Lowercased(s: string): (r: string)
    ensures |r| == |s|
    ensures forall i :: 0 <= i < |s| ==> r[i] == LowerChar(s[i])
    ensures IsLowercase(r)
    ensures IsLowercase(s) ==> r == s
  {
    seq(|s|, i requires 0 <= i < |s| => LowerChar(s[i]))
  }

  // ---------------------------------------------------------------------------
  // Substring search and replacement
  // ---------------------------------------------------------------------------

  predicate OccursAt(s: string, pat: string, i: int) {
    0 <= i && i + |pat| <= |s| && s[i..i + |pat|] == pat
  }

  /** `String.contains(_:)` for a non-empty pattern. */
  predicate Contains(s: string, pat: string) {
    exists i :: 0 <= i <= |s| && OccursAt(s, pat, i)
  }

  predicate StartsWith(s: string, prefix: string) {
    |prefix| <= |s| && s[..|prefix|] == prefix
  }

  /**
   * `replacingOccurrences(of: pat, with: rep)`: scans left to right and replaces
   * every non-overlapping occurrence; the inserted text is not scanned again.
   */
  function ReplaceAll(s: string, pat: string, rep: string): (r: string)
    requires pat != []
    ensures !Contains(s, pat) ==> r == s
    ensures rep == pat ==> r == s
    decreases |s|
  {
    if |s| < |pat| then s
    else if s[..|pat|] == pat then
      assert OccursAt(s, pat, 0);
      assert s[..|pat|] + s[|pat|..] == s;
      rep + ReplaceAll(s[|pat|..], pat, rep)
    else
      assert !Contains(s, pat) ==> !Contains(s[1..], pat) by {
        forall i | 0 <= i <= |s[1..]| && OccursAt(s[1..], pat, i) ensures OccursAt(s, pat, i + 1) {
          assert s[i + 1..i + 1 + |pat|] == s[1..][i..i + |pat|];
        }
      }
      assert [s[0]] + s[1..] == s;
      [s[0]] + ReplaceAll(s[1..], pat, rep)
  }

  /** A leading occurrence is replaced and scanning resumes right after it. */
  lemma ReplaceAllLeading(pat: string, rest: string, rep: string)
    requires pat != []
    ensures ReplaceAll(pat + rest, pat, rep) == rep + ReplaceAll(rest, pat, rep)
  {
    assert (pat + rest)[..|pat|] == pat;
    assert (pat + rest)[|pat|..] == rest;
  }

  /** Where the pattern does not start, the first character is kept and scanning moves on by one. */
  lemma ReplaceAllSkip(s: string, pat: string, rep: string)
    requires pat != [] && s != [] && !OccursAt(s, pat, 0)
    ensures ReplaceAll(s, pat, rep) == [s[0]] + ReplaceAll(s[1..], pat, rep)
  {
    if |s| < |pat| {
      assert [s[0]] + s[1..] == s;
    }
  }

  /** Dropping the first character of `x` keeps the pattern out of the rest of `x`. */
  lemma ShiftNoOccurrence(x: string, y: string, pat: string)
    requires x != []
    requires forall i :: 0 <= i < |x| ==> !OccursAt(x + pat + y, pat, i)
    ensures forall i :: 0 <= i < |x| - 1 ==> !OccursAt(x[1..] + pat + y, pat, i)
  {
    var s, s' := x + pat + y, x[1..] + pat + y;
    assert s[1..] == s';
    forall i | 0 <= i < |x| - 1 ensures !OccursAt(s', pat, i) {
      assert !OccursAt(s, pat, i + 1);
      if i + |pat| <= |s'| {
        assert s'[i..i + |pat|] == s[i + 1..i + 1 + |pat|];
      }
    }
  }

  /**
   * The first occurrence is replaced wherever it sits: when `pat` does not start
   * anywhere inside `x`, the text before it is kept and scanning resumes after it.
   */
  lemma {:induction false} ReplaceAllFirst(x: string, y: string, pat: string, rep: string)
    requires pat != []
    requires forall i :: 0 <= i < |x| ==> !OccursAt(x + pat + y, pat, i)
    ensures ReplaceAll(x + pat + y, pat, rep) == x + rep + ReplaceAll(y, pat, rep)
    decreases |x|
  {
    if x == [] {
      assert x + pat + y == pat + y;
      ReplaceAllLeading(pat, y, rep);
    } else {
      var s := x + pat + y;
      DropFirst(x, pat + y);
      assert s == x + (pat + y) && x[1..] + (pat + y) == x[1..] + pat + y;
      ReplaceAllSkip(s, pat, rep);
      ShiftNoOccurrence(x, y, pat);
      ReplaceAllFirst(x[1..], y, pat, rep);
      Regroup(x, rep, ReplaceAll(y, pat, rep));
    }
  }

  /** A sole occurrence, with no earlier start of the pattern, is replaced and nothing else changes. */
  lemma ReplaceSole(x: string, rest: string, pat: string, rep: string)
    requires pat != [] && pat[0] !in x && !Contains(rest, pat)
    ensures ReplaceAll(x + pat + rest, pat, rep) == x + rep + rest
  {
    NoOccurrenceBefore(x, pat + rest, pat);
    assert x + pat + rest == x + (pat + rest);
    ReplaceAllFirst(x, rest, pat, rep);
  }

  /** Regrouping a five-part concatenation after its second part. */
  lemma RegroupAfterSecond(a: string, b: string, c: string, d: string, e: string)
    ensures a + b + c + d + e == a + b + (c + d + e)
  {
  }

  /** Regrouping a six-part concatenation around its third part. */
  lemma RegroupAroundThird(a: string, b: string, c: string, d: string, e: string, f: string)
    ensures a + b + c + d + e + f == (a + b) + c + (d + e + f)
  {
  }

  /** Dropping the first character of a concatenation with a non-empty front. */
  lemma DropFirst(x: string, t: string)
    requires x != []
    ensures (x + t)[0] == x[0] && (x + t)[1..] == x[1..] + t
  {
  }

  /** Putting the first character back in front of the rest. */
  lemma Regroup(x: string, rep: string, tail: string)
    requires x != []
    ensures [x[0]] + (x[1..] + rep + tail) == x + rep + tail
  {
    assert [x[0]] + x[1..] == x;
  }

  /** A pattern cannot start at a position of `x` when `x` lacks its first character. */
  lemma NoOccurrenceBefore(x: string, rest: string, pat: string)
    requires pat != [] && pat[0] !in x
    ensures forall i :: 0 <= i < |x| ==> !OccursAt(x + rest, pat, i)
  {
    forall i | 0 <= i < |x| ensures !OccursAt(x + rest, pat, i) {
      assert (x + rest)[i] == x[i] != pat[0];
      if i + |pat| <= |x + rest| {
        assert (x + rest)[i..i + |pat|][0] == (x + rest)[i];
      }
    }
  }

  /** Text lacking the pattern's first character does not contain the pattern. */
  lemma NotContainedWithoutLead(x: string, pat: string)
    requires pat != [] && pat[0] !in x
    ensures !Contains(x, pat)
  {
    NoOccurrenceBefore(x, [], pat);
    assert x + [] == x;
  }

  // ---------------------------------------------------------------------------
  // `split(separator: ".")`: maximal dot-free pieces, empty pieces omitted
  // ---------------------------------------------------------------------------

  /** Length of the dot-free prefix of `s`. */
  function SegmentEnd(s: string): (n: nat)
    ensures n <= |s|
    ensures forall i :: 0 <= i < n ==> s[i] != '.'
    ensures n < |s| ==> s[n] == '.'
  {
    if s == [] || s[0] == '.' then 0 else 1 + SegmentEnd(s[1..])
  }

  predicate IsSegment(piece: string) {
    piece != [] && '.' !in piece
  }

  function SplitOnDots(s: string): (pieces: seq<string>)
    ensures forall k :: 0 <= k < |pieces| ==> IsSegment(pieces[k])
    decreases |s|
  {
    if s == [] then []
    else if s[0] == '.' then SplitOnDots(s[1..])
    else
      var n := SegmentEnd(s);
      [s[..n]] + SplitOnDots(s[n..])
  }

  /** The inverse direction: pieces glued back together with '.' between them. */
  function JoinWithDots(pieces: seq<string>): string {
    if |pieces| == 0 then ""
    else if |pieces| == 1 then pieces[0]
    else pieces[0] + "." + JoinWithDots(pieces[1..])
  }

  lemma {:induction false} SegmentEndAppend(a: string, x: string)
    requires SegmentEnd(a) < |a| || (x != [] && x[0] == '.')
    ensures SegmentEnd(a + x) == SegmentEnd(a)
    decreases |a|
  {
    if a != [] && a[0] != '.' {
      assert (a + x)[1..] == a[1..] + x;
      SegmentEndAppend(a[1..], x);
    }
  }

  /** A single dot-free piece splits to itself. */
  lemma SplitSegment(piece: string)
    requires IsSegment(piece)
    ensures SplitOnDots(piece) == [piece]
  {
    var n := SegmentEnd(piece);
    assert n == |piece|;
    assert piece[0] in piece;
    assert piece[..n] == piece && piece[n..] == [];
  }

  /** Splitting distributes over a '.' separator: `split(a + "." + b) == split(a) + split(b)`. */
  lemma {:induction false} SplitAroundDot(a: string, b: string)
    ensures SplitOnDots(a + "." + b) == SplitOnDots(a) + SplitOnDots(b)
    decreases |a|
  {
    var s := a + "." + b;
    if a == [] {
      assert s == "." + b;
      assert s[1..] == b;
    } else if a[0] == '.' {
      assert s[1..] == a[1..] + "." + b;
      SplitAroundDot(a[1..], b);
    } else {
      var n := SegmentEnd(a);
      SegmentEndAppend(a, "." + b);
      assert s == a + ("." + b);
      assert s[..n] == a[..n];
      if n < |a| {
        assert s[n..] == a[n..] + "." + b;
        SplitAroundDot(a[n..], b);
        SplitAfterSegment(s, a, n, a[n..] + "." + b);
      } else {
        SplitAfterSegment(s, a, n, "." + b);
        assert ("." + b)[1..] == b;
        assert a[n..] == [];
      }
    }
  }

  /** A string starting with a segment of length `n` splits into that segment and the rest. */
  lemma SplitAfterSegment(s: string, a: string, n: nat, rest: string)
    requires s != [] && s[0] != '.' && n == SegmentEnd(s) && n <= |a| && s[..n] == a[..n] && s[n..] == rest
    ensures SplitOnDots(s) == [a[..n]] + SplitOnDots(rest)
  {
  }

  /** Splitting undoes joining, for pieces that are non-empty and dot-free. */
  lemma {:induction false} SplitJoin(pieces: seq<string>)
    requires forall k :: 0 <= k < |pieces| ==> IsSegment(pieces[k])
    ensures SplitOnDots(JoinWithDots(pieces)) == pieces
  {
    if |pieces| == 1 {
      SplitSegment(pieces[0]);
    } else if |pieces| > 1 {
      SplitAroundDot(pieces[0], JoinWithDots(pieces[1..]));
      SplitSegment(pieces[0]);
      SplitJoin(pieces[1..]);
    }
  }

  /** Doubling a separator changes nothing: empty pieces are omitted. */
  lemma EmptyPieceOmitted(a: string, b: string)
    ensures SplitOnDots(a + ".." + b) == SplitOnDots(a + "." + b)
  {
    assert a + ".." + b == a + "." + ("." + b);
    SplitAroundDot(a, "." + b);
    SplitAroundDot(a, b);
    assert ("." + b)[1..] == b;
  }
}
