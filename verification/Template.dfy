/** Scanning a proxy-URL template for placeholders, names in curly braces, and rendering it. Strings are byte strings;
    the trimming of white space is a parameter. */
module Template {
  import opened Common
  import opened VariantNames

  const MAX_RENDERED_BYTES := 8192

  // ----- The scanner: leftmost, non-overlapping matches of a name in braces, the name without braces -----

  /** Code points 123 and 125, the curly braces. */
  const OPEN: char := 123 as char
  const CLOSE: char := 125 as char

  predicate Brace(c: char) { c == OPEN || c == CLOSE }

  /** The first brace at or behind position i. */
  function NextBrace(s: string, i: nat): (j: nat)
    requires i <= |s|
    ensures i <= j <= |s| && (j < |s| ==> Brace(s[j])) && forall k | i <= k < j :: !Brace(s[k])
    decreases |s| - i
  {
    if i == |s| || Brace(s[i]) then i else NextBrace(s, i + 1)
  }

  /** A complete placeholder starts at a and ends before e. */
  predicate MatchAt(s: string, a: nat, e: nat) {
    && a + 2 <= e <= |s| && s[a] == OPEN && s[e - 1] == CLOSE
    && forall k | a < k < e - 1 :: !Brace(s[k])
  }

  function FirstMatch(s: string, from: nat): (r: Option<(nat, nat)>)
    requires from <= |s|
    ensures r.Some? ==> from <= r.value.0 && MatchAt(s, r.value.0, r.value.1)
    decreases |s| - from
  {
    if from == |s| then None
    else if s[from] == OPEN then
      var j := NextBrace(s, from + 1);
      if j < |s| && s[j] == CLOSE then Some((from, j + 1)) else FirstMatch(s, from + 1)
    else FirstMatch(s, from + 1)
  }

  lemma {:induction false} FirstMatchIsFirst(s: string, from: nat, a: nat, e: nat)
    requires from <= a <= |s| && MatchAt(s, a, e)
    ensures FirstMatch(s, from).Some? && FirstMatch(s, from).value.0 <= a
    decreases |s| - from
  {
    if from < a {
      FirstMatchIsFirst(s, from + 1, a, e);
    } else {
      assert NextBrace(s, from + 1) == e - 1 by {
        assert Brace(s[e - 1]);
      }
    }
  }

  function Matches(s: string, from: nat): (r: seq<(nat, nat)>)
    requires from <= |s|
    ensures forall k | 0 <= k < |r| :: from <= r[k].0 && MatchAt(s, r[k].0, r[k].1)
    decreases |s| - from
  {
    match FirstMatch(s, from)
    case None => []
    case Some(m) => [m] + Matches(s, m.1)
  }

  // ----- Segments -----

  datatype Segment = Literal(text: string) | Placeholder(inner: string)

  function SegmentText(segment: Segment): string {
    match segment
    case Literal(text) => text
    case Placeholder(inner) => [OPEN] + inner + [CLOSE]
  }

  function TextOf(segments: seq<Segment>): string {
    if segments == [] then "" else SegmentText(segments[0]) + TextOf(segments[1..])
  }

  /** The text behind position last, cut at the matches. */
  function Segments(s: string, last: nat): seq<Segment>
    requires last <= |s|
    decreases |s| - last
  {
    match FirstMatch(s, last)
    case None => [Literal(s[last..])]
    case Some(m) => [Literal(s[last..m.0]), Placeholder(s[m.0 + 1..m.1 - 1])] + Segments(s, m.1)
  }

  /** Literals and placeholders alternate, placeholders hold no brace, and no literal holds a complete
      placeholder. */
  predicate Proper(segments: seq<Segment>) {
    && segments != [] && segments[0].Literal? && NoMatch(segments[0].text)
    && (|segments| > 1 ==>
          && segments[1].Placeholder? && (forall k | 0 <= k < |segments[1].inner| :: !Brace(segments[1].inner[k]))
          && Proper(segments[2..]))
  }

  predicate NoMatch(text: string) {
    forall a, e | 0 <= a < e <= |text| :: !MatchAt(text, a, e)
  }

  /** There is no complete placeholder in front of the first match. */
  lemma SliceNoMatch(s: string, from: nat, to: nat)
    requires from <= to <= |s|
    requires FirstMatch(s, from).Some? ==> to <= FirstMatch(s, from).value.0
    ensures NoMatch(s[from..to])
  {
    var text := s[from..to];
    forall a, e | 0 <= a < e <= |text| ensures !MatchAt(text, a, e) {
      if MatchAt(text, a, e) {
        assert forall k | a <= k < e :: s[from + k] == text[k];
        assert MatchAt(s, from + a, from + e) by {
          forall k | from + a < k < from + e - 1 ensures !Brace(s[k]) {
            assert text[k - from] == s[k];
          }
        }
        FirstMatchIsFirst(s, from, from + a, from + e);
      }
    }
  }

  lemma TwoSegments(a: Segment, b: Segment, rest: seq<Segment>)
    ensures TextOf([a, b] + rest) == SegmentText(a) + (SegmentText(b) + TextOf(rest))
  {
    assert ([a, b] + rest)[1..] == [b] + rest;
    assert ([b] + rest)[1..] == rest;
  }

  lemma OneSegment(a: Segment)
    ensures TextOf([a]) == SegmentText(a)
  {
    assert TextOf([a][1..]) == "";
  }

  lemma CutAtMatch(s: string, last: nat, m: (nat, nat))
    requires last <= m.0 && MatchAt(s, m.0, m.1)
    ensures s[last..] == s[last..m.0] + (([OPEN] + s[m.0 + 1..m.1 - 1] + [CLOSE]) + s[m.1..])
  {
    assert [OPEN] + s[m.0 + 1..m.1 - 1] + [CLOSE] == s[m.0..m.1];
  }

  lemma ProperTwo(a: Segment, b: Segment, rest: seq<Segment>)
    requires a.Literal? && NoMatch(a.text) && b.Placeholder? && Proper(rest)
    requires forall k | 0 <= k < |b.inner| :: !Brace(b.inner[k])
    ensures Proper([a, b] + rest)
  {
    assert ([a, b] + rest)[2..] == rest;
  }

  lemma SegmentsStep(s: string, last: nat, m: (nat, nat), rest: seq<Segment>)
    requires last <= m.0 && MatchAt(s, m.0, m.1) && TextOf(rest) == s[m.1..] && Proper(rest)
    requires NoMatch(s[last..m.0])
    ensures var segments := [Literal(s[last..m.0]), Placeholder(s[m.0 + 1..m.1 - 1])] + rest;
            TextOf(segments) == s[last..] && Proper(segments)
  {
    TwoSegments(Literal(s[last..m.0]), Placeholder(s[m.0 + 1..m.1 - 1]), rest);
    CutAtMatch(s, last, m);
    ProperTwo(Literal(s[last..m.0]), Placeholder(s[m.0 + 1..m.1 - 1]), rest);
  }

  lemma LastSegment(text: string)
    requires NoMatch(text)
    ensures TextOf([Literal(text)]) == text && Proper([Literal(text)])
  {
    OneSegment(Literal(text));
  }

  lemma SegmentsAt(s: string, last: nat, m: (nat, nat))
    requires last <= |s| && FirstMatch(s, last) == Some(m)
    ensures Segments(s, last) == [Literal(s[last..m.0]), Placeholder(s[m.0 + 1..m.1 - 1])] + Segments(s, m.1)
  {
  }

  /** The segments give back the template. */
  lemma {:induction false} SegmentsLossless(s: string, last: nat)
    requires last <= |s|
    ensures TextOf(Segments(s, last)) == s[last..] && Proper(Segments(s, last))
    decreases |s| - last
  {
    match FirstMatch(s, last)
    case None =>
      SliceNoMatch(s, last, |s|);
      assert s[last..|s|] == s[last..];
      LastSegment(s[last..]);
    case Some(m) =>
      SegmentsLossless(s, m.1);
      SliceNoMatch(s, last, m.0);
      SegmentsStep(s, last, m, Segments(s, m.1));
      SegmentsAt(s, last, m);
  }

  // ----- The scan is the only such decomposition -----

  lemma HoleIsMatch(text: string, hole: Segment, rest: string)
    requires hole.Placeholder? && forall k | 0 <= k < |hole.inner| :: !Brace(hole.inner[k])
    ensures MatchAt(text + (SegmentText(hole) + rest), |text|, |text| + |hole.inner| + 2)
  {
    var s := text + (SegmentText(hole) + rest);
    forall k | |text| < k < |text| + |hole.inner| + 1 ensures s[k] == hole.inner[k - |text| - 1] {}
  }

  /** A match cannot start inside a text without matches: it would have to end inside it as well, for
      the text is followed by a brace. */
  lemma HoleNotInside(s: string, text: string, rest: string, a: nat, e: nat)
    requires s == text + rest && MatchAt(s, a, e) && NoMatch(text) && (rest == "" || rest[0] == OPEN)
    ensures |text| <= a
  {
    assert |text| < |s| ==> s[|text|] == OPEN;
    if a < |text| && e <= |text| {
      assert forall k | a <= k < e :: s[k] == text[k];
      assert MatchAt(text, a, e);
    }
  }

  lemma SameHole(s: string, a: nat, e: nat, f: nat)
    requires MatchAt(s, a, e) && MatchAt(s, a, f)
    ensures e == f
  {
    assert s[e - 1] == CLOSE && s[f - 1] == CLOSE;
  }

  /** The first piece ends where the first complete placeholder starts. */
  lemma FirstPieces(segments: seq<Segment>)
    requires Proper(segments)
    ensures var s := TextOf(segments); var l := segments[0].text;
            && (|segments| == 1 ==> s == l)
            && (|segments| > 1 ==>
                  && s == l + (SegmentText(segments[1]) + TextOf(segments[2..]))
                  && MatchAt(s, |l|, |l| + |segments[1].inner| + 2))
  {
    if |segments| == 1 {
      OneSegment(segments[0]);
      assert segments == [segments[0]];
    } else {
      TwoSegments(segments[0], segments[1], segments[2..]);
      assert segments == [segments[0], segments[1]] + segments[2..];
      HoleIsMatch(segments[0].text, segments[1], TextOf(segments[2..]));
    }
  }

  lemma FirstLiteralShortest(a: seq<Segment>, b: seq<Segment>)
    requires Proper(a) && Proper(b) && TextOf(a) == TextOf(b) && |a| > 1
    ensures |b| > 1 && |b[0].text| <= |a[0].text|
  {
    FirstPieces(a);
    FirstPieces(b);
    var s, l := TextOf(a), a[0].text;
    if |b| > 1 {
      HoleNotInside(s, b[0].text, SegmentText(b[1]) + TextOf(b[2..]), |l|, |l| + |a[1].inner| + 2);
    }
  }

  lemma {:induction false} ScanUnique(a: seq<Segment>, b: seq<Segment>)
    requires Proper(a) && Proper(b) && TextOf(a) == TextOf(b)
    ensures a == b
    decreases |a|
  {
    if |a| > 1 {
      FirstLiteralShortest(a, b);
    }
    if |b| > 1 {
      FirstLiteralShortest(b, a);
    }
    FirstPieces(a);
    FirstPieces(b);
    if |a| > 1 {
      SameStart(a, b);
      ScanUnique(a[2..], b[2..]);
      assert a == [a[0], a[1]] + a[2..] && b == [b[0], b[1]] + b[2..];
    } else {
      assert a == [a[0]] && b == [b[0]];
    }
  }

  lemma SameStart(a: seq<Segment>, b: seq<Segment>)
    requires Proper(a) && Proper(b) && TextOf(a) == TextOf(b) && |a| > 1 && |b| > 1 && |a[0].text| == |b[0].text|
    ensures a[0] == b[0] && a[1] == b[1] && TextOf(a[2..]) == TextOf(b[2..])
  {
    FirstPieces(a);
    FirstPieces(b);
    var s, l := TextOf(a), |a[0].text|;
    SameHole(s, l, l + |a[1].inner| + 2, l + |b[1].inner| + 2);
    Cancel(a[0].text, SegmentText(a[1]), TextOf(a[2..]), b[0].text, SegmentText(b[1]), TextOf(b[2..]));
    assert forall hole: Segment | hole.Placeholder? :: hole.inner == SegmentText(hole)[1..|hole.inner| + 1];
  }

  lemma Cancel(a: string, b: string, c: string, x: string, y: string, z: string)
    requires a + (b + c) == x + (y + z) && |a| == |x| && |b| == |y|
    ensures a == x && b == y && c == z
  {
    assert a == (a + (b + c))[..|a|] && x == (x + (y + z))[..|a|];
    assert b + c == (a + (b + c))[|a|..] && y + z == (x + (y + z))[|a|..];
    assert b == (b + c)[..|b|] && y == (y + z)[..|b|];
    assert c == (b + c)[|b|..] && z == (y + z)[|b|..];
  }

  // ----- Parsing -----

  datatype Error = EmptyTemplate | EmptyPlaceholder | NoValue(name: string) | TooLong

  datatype Result<T> = Ok(value: T) | Err(error: Error)

  datatype Parsed = Parsed(raw: string, names: seq<string>)

  /** The trimmed names, in the order of the segments. */
  function HoleNames(segments: seq<Segment>, trim: string -> string): seq<string> {
    if segments == [] then []
    else (if segments[0].Placeholder? then [trim(segments[0].inner)] else []) + HoleNames(segments[1..], trim)
  }

  function NameAt(raw: string, m: (nat, nat), trim: string -> string): string
    requires MatchAt(raw, m.0, m.1)
  {
    trim(raw[m.0 + 1..m.1 - 1])
  }

  function MatchNames(raw: string, matches: seq<(nat, nat)>, trim: string -> string): seq<string>
    requires forall k | 0 <= k < |matches| :: MatchAt(raw, matches[k].0, matches[k].1)
  {
    seq(|matches|, k requires 0 <= k < |matches| => NameAt(raw, matches[k], trim))
  }

  lemma HoleNamesTwo(a: Segment, b: Segment, rest: seq<Segment>, trim: string -> string)
    requires a.Literal? && b.Placeholder?
    ensures HoleNames([a, b] + rest, trim) == [trim(b.inner)] + HoleNames(rest, trim)
    ensures HoleNames([b] + rest, trim) == [trim(b.inner)] + HoleNames(rest, trim)
  {
    assert ([b] + rest)[1..] == rest;
    assert ([a, b] + rest)[1..] == [b] + rest;
  }

  lemma MatchNamesOne(raw: string, m: (nat, nat), ms: seq<(nat, nat)>, trim: string -> string)
    requires MatchAt(raw, m.0, m.1) && forall k | 0 <= k < |ms| :: MatchAt(raw, ms[k].0, ms[k].1)
    ensures MatchNames(raw, [m] + ms, trim) == [NameAt(raw, m, trim)] + MatchNames(raw, ms, trim)
  {
  }

  lemma NamesStep(raw: string, last: nat, m: (nat, nat), trim: string -> string)
    requires last <= |raw| && FirstMatch(raw, last) == Some(m)
    requires MatchNames(raw, Matches(raw, m.1), trim) == HoleNames(Segments(raw, m.1), trim)
    ensures MatchNames(raw, Matches(raw, last), trim) == HoleNames(Segments(raw, last), trim)
  {
    HoleNamesTwo(Literal(raw[last..m.0]), Placeholder(raw[m.0 + 1..m.1 - 1]), Segments(raw, m.1), trim);
    MatchNamesOne(raw, m, Matches(raw, m.1), trim);
    SegmentsAt(raw, last, m);
  }

  /** The matches are the placeholders of the segments. */
  lemma {:induction false} NamesOfMatches(raw: string, last: nat, trim: string -> string)
    requires last <= |raw|
    ensures MatchNames(raw, Matches(raw, last), trim) == HoleNames(Segments(raw, last), trim)
    decreases |raw| - last
  {
    match FirstMatch(raw, last)
    case None =>
    case Some(m) =>
      NamesOfMatches(raw, m.1, trim);
      NamesStep(raw, last, m, trim);
  }

  /** Keeps the first of equal names; an empty name is an error. */
  method DistinctNames(found: seq<string>) returns (r: Option<seq<string>>)
    ensures r.None? <==> "" in found
    ensures r.Some? ==> Distinct(r.value) && forall n :: n in r.value <==> n in found
  {
    var names: seq<string> := [];
    var i := 0;
    while i < |found|
      invariant 0 <= i <= |found|
      invariant Distinct(names) && "" !in found[..i]
      invariant forall n :: n in names <==> n in found[..i]
    {
      var name := found[i];
      assert found[..i + 1] == found[..i] + [name];
      if name == "" {
        return None;
      }
      if name !in names {
        names := names + [name];
      }
      i := i + 1;
    }
    assert found[..i] == found;
    r := Some(names);
  }

  /** The names are sorted, unrepeated, and exactly the ones the placeholders carry. */
  method ParseTemplate(raw: string, trim: string -> string) returns (r: Result<Parsed>)
    ensures r.Ok? <==> trim(raw) != "" && "" !in HoleNames(Segments(raw, 0), trim)
    ensures r.Ok? ==> r.value.raw == raw && Ascending(r.value.names)
                      && forall n :: n in r.value.names <==> n in HoleNames(Segments(raw, 0), trim)
  {
    if trim(raw) == "" {
      return Err(EmptyTemplate);
    }
    NamesOfMatches(raw, 0, trim);
    var names := DistinctNames(MatchNames(raw, Matches(raw, 0), trim));
    if names.None? {
      return Err(EmptyPlaceholder);
    }
    SortKeysAscends(names.value);
    r := Ok(Parsed(raw, SortKeys(names.value)));
  }

  // ----- Rendering -----

  predicate Supplied(names: seq<string>, values: map<string, string>) {
    forall n | n in names :: n in values
  }

  /** Every placeholder replaced by its value, in one pass. */
  function Substituted(segments: seq<Segment>, values: map<string, string>, trim: string -> string): string
    requires Supplied(HoleNames(segments, trim), values)
  {
    if segments == [] then ""
    else
      var rest := HoleNames(segments[1..], trim);
      assert HoleNames(segments, trim) == (if segments[0].Placeholder? then [trim(segments[0].inner)] else []) + rest;
      assert forall n | n in rest :: n in HoleNames(segments, trim);
      (match segments[0]
       case Literal(text) => text
       case Placeholder(inner) =>
         assert trim(inner) == HoleNames(segments, trim)[0];
         values[trim(inner)])
      + Substituted(segments[1..], values, trim)
  }

  /** What stands in place of the segment. */
  function Piece(segment: Segment, values: map<string, string>, trim: string -> string): string
    requires segment.Placeholder? ==> trim(segment.inner) in values
  {
    if segment.Literal? then segment.text else values[trim(segment.inner)]
  }

  predicate HasPiece(segment: Segment, values: map<string, string>, trim: string -> string) {
    segment.Placeholder? ==> trim(segment.inner) in values
  }

  /** The text consists of the pieces, each between its cuts. */
  predicate PiecesAt(text: string, segments: seq<Segment>, values: map<string, string>, trim: string -> string, cuts: seq<nat>) {
    && |cuts| == |segments| + 1 && cuts[0] == 0 && cuts[|segments|] == |text|
    && forall i | 0 <= i < |segments| :: PieceAt(text, segments[i], values, trim, cuts, i)
  }

  predicate PieceAt(text: string, segment: Segment, values: map<string, string>, trim: string -> string, cuts: seq<nat>, i: nat) {
    && HasPiece(segment, values, trim) && i + 1 < |cuts| && cuts[i] <= cuts[i + 1] <= |text|
    && text[cuts[i]..cuts[i + 1]] == Piece(segment, values, trim)
  }

  /** The substitution is the segments' texts in order, every literal as it is and every placeholder replaced
      by its value, once. */
  lemma {:induction false} SubstitutedPieces(segments: seq<Segment>, values: map<string, string>, trim: string -> string)
      returns (cuts: seq<nat>)
    requires Supplied(HoleNames(segments, trim), values)
    ensures PiecesAt(Substituted(segments, values, trim), segments, values, trim, cuts)
  {
    if segments == [] {
      cuts := [0];
    } else {
      var rest := HoleNames(segments[1..], trim);
      assert HoleNames(segments, trim) == (if segments[0].Placeholder? then [trim(segments[0].inner)] else []) + rest;
      assert forall n | n in rest :: n in HoleNames(segments, trim);
      assert segments[0].Placeholder? ==> trim(segments[0].inner) == HoleNames(segments, trim)[0];
      var behind := SubstitutedPieces(segments[1..], values, trim);
      cuts := PieceInFront(Substituted(segments[1..], values, trim), segments, values, trim, behind);
      assert Substituted(segments, values, trim) == Piece(segments[0], values, trim) + Substituted(segments[1..], values, trim);
    }
  }

  lemma PieceInFront(rest: string, segments: seq<Segment>, values: map<string, string>, trim: string -> string, behind: seq<nat>)
      returns (cuts: seq<nat>)
    requires segments != [] && HasPiece(segments[0], values, trim) && PiecesAt(rest, segments[1..], values, trim, behind)
    ensures PiecesAt(Piece(segments[0], values, trim) + rest, segments, values, trim, cuts)
  {
    var front := Piece(segments[0], values, trim);
    var text := front + rest;
    cuts := [0] + seq(|behind|, i requires 0 <= i < |behind| => behind[i] + |front|);
    assert text[0..|front|] == front;
    assert PieceAt(text, segments[0], values, trim, cuts, 0);
    forall i | 0 < i < |segments| ensures PieceAt(text, segments[i], values, trim, cuts, i) {
      assert PieceAt(rest, segments[1..][i - 1], values, trim, behind, i - 1);
      assert text[cuts[i]..cuts[i + 1]] == rest[behind[i - 1]..behind[i]];
    }
  }

  /** The substitution of the text behind position last, unless a value is missing. */
  function Fill(raw: string, last: nat, values: map<string, string>, trim: string -> string): Option<string>
    requires last <= |raw|
    decreases |raw| - last
  {
    match FirstMatch(raw, last)
    case None => Some(raw[last..])
    case Some(m) =>
      if NameAt(raw, m, trim) !in values then None
      else
        match Fill(raw, m.1, values, trim)
        case None => None
        case Some(rest) => Some(raw[last..m.0] + (values[NameAt(raw, m, trim)] + rest))
  }

  /** The text is the substitution of the segments, and there is one exactly when every name has a value. */
  predicate Agrees(full: Option<string>, segments: seq<Segment>, values: map<string, string>, trim: string -> string) {
    && (full.Some? <==> Supplied(HoleNames(segments, trim), values))
    && (Supplied(HoleNames(segments, trim), values) ==> full.value == Substituted(segments, values, trim))
  }

  lemma {:induction false} FillSubstitutes(raw: string, last: nat, values: map<string, string>, trim: string -> string)
    requires last <= |raw|
    ensures Agrees(Fill(raw, last, values, trim), Segments(raw, last), values, trim)
    decreases |raw| - last
  {
    match FirstMatch(raw, last)
    case None => FillLast(raw[last..], values, trim);
    case Some(m) =>
      FillSubstitutes(raw, m.1, values, trim);
      FillIs(raw, last, m, values, trim);
      SegmentsIs(raw, last, m);
      FillNext(Fill(raw, last, values, trim), Fill(raw, m.1, values, trim), Literal(raw[last..m.0]),
               Placeholder(raw[m.0 + 1..m.1 - 1]), Segments(raw, m.1), values, trim);
  }

  lemma FillLast(text: string, values: map<string, string>, trim: string -> string)
    ensures Agrees(Some(text), [Literal(text)], values, trim)
  {
  }

  lemma FillNext(full: Option<string>, tail: Option<string>, a: Segment, b: Segment, rest: seq<Segment>,
                 values: map<string, string>, trim: string -> string)
    requires a.Literal? && b.Placeholder? && Agrees(tail, rest, values, trim)
    requires full == if trim(b.inner) in values && tail.Some? then Some(a.text + (values[trim(b.inner)] + tail.value)) else None
    ensures Agrees(full, [a, b] + rest, values, trim)
  {
    FillStep(a, b, rest, values, trim);
  }

  lemma SegmentsIs(raw: string, last: nat, m: (nat, nat))
    requires last <= |raw| && FirstMatch(raw, last) == Some(m)
    ensures Segments(raw, last) == [Literal(raw[last..m.0]), Placeholder(raw[m.0 + 1..m.1 - 1])] + Segments(raw, m.1)
  {
  }

  lemma FillIs(raw: string, last: nat, m: (nat, nat), values: map<string, string>, trim: string -> string)
    requires last <= |raw| && FirstMatch(raw, last) == Some(m)
    ensures var name, rest := NameAt(raw, m, trim), Fill(raw, m.1, values, trim);
            Fill(raw, last, values, trim)
            == if name in values && rest.Some? then Some(raw[last..m.0] + (values[name] + rest.value)) else None
  {
  }

  lemma FillStep(a: Segment, b: Segment, rest: seq<Segment>, values: map<string, string>, trim: string -> string)
    requires a.Literal? && b.Placeholder?
    ensures Supplied(HoleNames([a, b] + rest, trim), values)
            <==> trim(b.inner) in values && Supplied(HoleNames(rest, trim), values)
    ensures Supplied(HoleNames([a, b] + rest, trim), values) ==>
              Substituted([a, b] + rest, values, trim) == a.text + (values[trim(b.inner)] + Substituted(rest, values, trim))
  {
    HoleNamesTwo(a, b, rest, trim);
    var names := HoleNames([a, b] + rest, trim);
    assert names[0] == trim(b.inner);
    assert forall n :: n in names <==> n == trim(b.inner) || n in HoleNames(rest, trim);
    assert ([a, b] + rest)[1..] == [b] + rest && ([b] + rest)[1..] == rest;
  }

  /** What has been written so far, with the rest behind it, is the whole. */
  predicate Extends(full: Option<string>, written: string, rest: Option<string>) {
    full == if rest.Some? then Some(written + rest.value) else None
  }

  lemma NextMatch(raw: string, last: nat, matches: seq<(nat, nat)>, i: nat)
    requires last <= |raw| && i <= |matches| && Matches(raw, last) == matches[i..]
    ensures i == |matches| <==> FirstMatch(raw, last).None?
    ensures i < |matches| ==> FirstMatch(raw, last) == Some(matches[i]) && matches[i].1 <= |raw|
                              && last <= matches[i].0 && MatchAt(raw, matches[i].0, matches[i].1)
                              && Matches(raw, matches[i].1) == matches[i + 1..]
  {
    if i < |matches| {
      assert matches[i..][0] == matches[i] && matches[i..][1..] == matches[i + 1..];
    }
  }

  lemma ExtendsStep(full: Option<string>, written: string, raw: string, last: nat, m: (nat, nat),
                    values: map<string, string>, trim: string -> string)
    requires last <= |raw| && FirstMatch(raw, last) == Some(m) && NameAt(raw, m, trim) in values
    requires Extends(full, written, Fill(raw, last, values, trim))
    ensures Extends(full, written + raw[last..m.0] + values[NameAt(raw, m, trim)], Fill(raw, m.1, values, trim))
  {
    var rest := Fill(raw, m.1, values, trim);
    if rest.Some? {
      var x, y, z := raw[last..m.0], values[NameAt(raw, m, trim)], rest.value;
      assert written + (x + (y + z)) == written + x + y + z;
    }
  }

  method RenderMatches(raw: string, values: map<string, string>, trim: string -> string) returns (r: Result<string>)
    ensures var full := Fill(raw, 0, values, trim);
            && (r.Ok? <==> full.Some? && |full.value| <= MAX_RENDERED_BYTES)
            && (r.Ok? ==> r.value == full.value)
            && (r.Err? ==> r.error == TooLong || (r.error.NoValue? && r.error.name !in values))
            && (r.Err? && full.Some? ==> r.error == TooLong)
  {
    var matches := Matches(raw, 0);
    ghost var full := Fill(raw, 0, values, trim);
    var b: string, last: nat, i: nat := "", 0, 0;
    assert full.Some? ==> "" + full.value == full.value;
    while i < |matches|
      invariant 0 <= i <= |matches| && last <= |raw| && Matches(raw, last) == matches[i..]
      invariant Extends(full, b, Fill(raw, last, values, trim))
    {
      var m := matches[i];
      NextMatch(raw, last, matches, i);
      var name := NameAt(raw, m, trim);
      if name !in values {
        return Err(NoValue(name));
      }
      ExtendsStep(full, b, raw, last, m, values, trim);
      b := b + raw[last..m.0];
      b := b + values[name];
      if |b| > MAX_RENDERED_BYTES {
        return Err(TooLong);
      }
      last, i := m.1, i + 1;
    }
    NextMatch(raw, last, matches, i);
    b := b + raw[last..];
    if |b| > MAX_RENDERED_BYTES {
      return Err(TooLong);
    }
    r := Ok(b);
  }

  /** Rendering succeeds exactly when every name has a value and the whole result fits, and then it is
      the whole result: giving up early loses nothing. */
  method Render(t: Parsed, values: map<string, string>, trim: string -> string) returns (r: Result<string>)
    ensures r.Ok? <==> Supplied(HoleNames(Segments(t.raw, 0), trim), values)
                       && |Substituted(Segments(t.raw, 0), values, trim)| <= MAX_RENDERED_BYTES
    ensures r.Ok? ==> r.value == Substituted(Segments(t.raw, 0), values, trim)
    ensures r.Err? ==> r.error == TooLong || (r.error.NoValue? && r.error.name !in values)
    ensures r.Err? && Supplied(HoleNames(Segments(t.raw, 0), trim), values) ==> r.error == TooLong
  {
    FillSubstitutes(t.raw, 0, values, trim);
    r := RenderMatches(t.raw, values, trim);
  }
}
