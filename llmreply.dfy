/**
 * How js/script.js reads the analysis model's reply (`formatLLMResponse`):
 * the reply is split at `#` headers, the score and overall-recommendation
 * sections are found by their header, scores are pulled out with three
 * regular expressions tried in order, and the numbered recommendations are
 * turned into a list.
 *
 * Each regular expression is modelled as a matcher at a position `q` of the
 * whole text, built from the greedy runs the expression consumes, and the
 * `exec` / `match` loops as a leftmost scan from `lastIndex`. The `/i` header
 * strip compares ASCII letters only, which is what a non-Unicode `/i`
 * expression over an ASCII pattern does.
 */
module LlmReply {
  import opened JsText

  /** The characters `.` refuses to match. */
  predicate IsLineTerminator(c: char) {
    c == '\n' || c == '\r' || c == '\U{2028}' || c == '\U{2029}'
  }

  /** The end of the white-space run from `q`: how far a greedy `\s*` reaches. */
  function SpacesEnd(s: string, q: nat): (r: nat)
    requires q <= |s|
    ensures q <= r <= |s|
    ensures forall i :: q <= i < r ==> IsSpace(s[i])
    ensures r < |s| ==> !IsSpace(s[r])
    decreases |s| - q
  {
    if q < |s| && IsSpace(s[q]) then SpacesEnd(s, q + 1) else q
  }

  /** The end of the digit run from `q`: how far a greedy `\d+` reaches. */
  function DigitsEnd(s: string, q: nat): (r: nat)
    requires q <= |s|
    ensures q <= r <= |s|
    ensures AllDigits(s[q..r])
    ensures r < |s| ==> !IsDigit(s[r])
    decreases |s| - q
  {
    if q < |s| && IsDigit(s[q]) then
      var r := DigitsEnd(s, q + 1);
      assert forall i :: 0 <= i < r - q ==> s[q..r][i] == if i == 0 then s[q] else s[q + 1..r][i - 1];
      r
    else q
  }

  /** How far a greedy `[^\n:]+` reaches from `q`. */
  function SegmentEnd(s: string, q: nat): (r: nat)
    requires q <= |s|
    ensures q <= r <= |s|
    ensures forall i :: q <= i < r ==> s[i] != '\n' && s[i] != ':'
    ensures r < |s| ==> s[r] == '\n' || s[r] == ':'
    decreases |s| - q
  {
    if q < |s| && s[q] != '\n' && s[q] != ':' then SegmentEnd(s, q + 1) else q
  }

  /** How far a greedy `[^\n]*` reaches from `q`. */
  function LineEnd(s: string, q: nat): (r: nat)
    requires q <= |s|
    ensures q <= r <= |s|
    ensures forall i :: q <= i < r ==> s[i] != '\n'
    ensures r < |s| ==> s[r] == '\n'
    decreases |s| - q
  {
    if q < |s| && s[q] != '\n' then LineEnd(s, q + 1) else q
  }

  // ------------------------------------------------------------- splitting

  /**
   * `\s*#\s+` read at `q` with the `#` at `h` and ending at `e`: white space
   * up to `h`, then `#`, then at least one white-space character up to `e`,
   * with the last run taken as far as it goes.
   */
  predicate HeaderMatch(s: string, q: nat, h: nat, e: nat) {
    && q <= h && h + 2 <= e <= |s|
    && (forall i :: q <= i < h ==> IsSpace(s[i]))
    && s[h] == '#'
    && (forall i :: h < i < e ==> IsSpace(s[i]))
    && (e < |s| ==> !IsSpace(s[e]))
  }

  /** Where a match of `\s*#\s+` starting at `q` ends, if there is one. */
  function HeaderEnd(s: string, q: nat): (r: Option<nat>)
    requires q <= |s|
    ensures r.Some? ==> q + 2 <= r.value <= |s|
    ensures r.Some? ==> HeaderMatch(s, q, SpacesEnd(s, q), r.value)
  {
    var h := SpacesEnd(s, q);
    if h + 1 < |s| && s[h] == '#' && IsSpace(s[h + 1]) then Some(SpacesEnd(s, h + 1)) else None
  }

  /** A complete white-space run ends where its white space ends. */
  lemma {:induction false} SpacesEndAt(s: string, q: nat, e: nat)
    requires q <= e <= |s|
    requires forall i :: q <= i < e ==> IsSpace(s[i])
    requires e < |s| ==> !IsSpace(s[e])
    ensures SpacesEnd(s, q) == e
    decreases e - q
  {
    if q < e {
      SpacesEndAt(s, q + 1, e);
    }
  }

  /**
   * The header match is unique: `\s*` cannot give back white space to `#`,
   * and `\s+` is taken whole, so `HeaderEnd` finds a match exactly when
   * there is one, and it finds that one.
   */
  lemma HeaderEndIsTheMatch(s: string, q: nat, h: nat, e: nat)
    requires HeaderMatch(s, q, h, e)
    ensures HeaderEnd(s, q) == Some(e)
  {
    assert !IsSpace(s[h]);
    SpacesEndAt(s, q, h);
    SpacesEndAt(s, h + 1, e);
  }

  function Min(a: int, b: int): int { if a < b then a else b }

  /** The white-space run of a slice is that of the whole text, cut at the slice's end. */
  lemma {:induction false} SpacesEndSlice(s: string, a: nat, b: nat, i: nat)
    requires a + i <= b <= |s|
    ensures SpacesEnd(s[a..b], i) + a == Min(SpacesEnd(s, a + i), b)
    decreases b - a - i
  {
    if a + i < b {
      assert s[a..b][i] == s[a + i];
      if IsSpace(s[a + i]) {
        SpacesEndSlice(s, a, b, i + 1);
      }
    }
  }

  /** A header found inside a slice is a header of the whole text; one of the whole text inside the slice is found there. */
  lemma HeaderEndSlice(s: string, a: nat, b: nat, i: nat)
    requires a + i <= b <= |s|
    ensures HeaderEnd(s[a..b], i).Some? ==> HeaderEnd(s, a + i).Some?
    ensures HeaderEnd(s, a + i).Some? && HeaderEnd(s, a + i).value <= b ==> HeaderEnd(s[a..b], i) == Some(HeaderEnd(s, a + i).value - a)
  {
    if HeaderEnd(s[a..b], i).Some? {
      SliceHeaderIsHeader(s, a, b, i);
    }
    if HeaderEnd(s, a + i).Some? && HeaderEnd(s, a + i).value <= b {
      HeaderInSlice(s, a, b, i);
    }
  }

  lemma SliceHeaderIsHeader(s: string, a: nat, b: nat, i: nat)
    requires a + i <= b <= |s| && HeaderEnd(s[a..b], i).Some?
    ensures HeaderEnd(s, a + i).Some?
  {
    var t := s[a..b];
    SpacesEndSlice(s, a, b, i);
    var h := SpacesEnd(t, i) + a;
    assert h + 1 < b && t[h - a] == '#' && IsSpace(t[h - a + 1]);
    assert t[h - a] == s[h] && t[h - a + 1] == s[h + 1];
  }

  lemma HeaderInSlice(s: string, a: nat, b: nat, i: nat)
    requires a + i <= b <= |s| && HeaderEnd(s, a + i).Some? && HeaderEnd(s, a + i).value <= b
    ensures HeaderEnd(s[a..b], i) == Some(HeaderEnd(s, a + i).value - a)
  {
    var h, e := HeaderEndParts(s, a + i);
    SliceHeaderParts(s, a, b, i, h, e);
    HeaderEndOf(s[a..b], i, h - a, e - a);
  }

  /** The white-space runs and the `#` of a header of the whole text, seen inside a slice that holds them. */
  lemma SliceHeaderParts(s: string, a: nat, b: nat, i: nat, h: nat, e: nat)
    requires a + i <= b <= |s| && h == SpacesEnd(s, a + i) && h + 1 < e <= b
    requires s[h] == '#' && IsSpace(s[h + 1]) && e == SpacesEnd(s, h + 1)
    ensures SpacesEnd(s[a..b], i) == h - a && s[a..b][h - a] == '#' && IsSpace(s[a..b][h - a + 1])
    ensures SpacesEnd(s[a..b], h - a + 1) == e - a
  {
    SpacesEndSlice(s, a, b, i);
    SpacesEndSlice(s, a, b, h - a + 1);
  }

  /** The parts of a header that `HeaderEnd` found. */
  lemma HeaderEndParts(s: string, q: nat) returns (h: nat, e: nat)
    requires q <= |s| && HeaderEnd(s, q).Some?
    ensures h == SpacesEnd(s, q) && h + 1 < e && s[h] == '#' && IsSpace(s[h + 1])
    ensures e == SpacesEnd(s, h + 1) == HeaderEnd(s, q).value
  {
    h := SpacesEnd(s, q);
    e := SpacesEnd(s, h + 1);
  }

  /** `HeaderEnd` once its white-space runs and its `#` are known. */
  lemma HeaderEndOf(t: string, i: nat, h: nat, e: nat)
    requires i <= h && h + 1 < |t| && SpacesEnd(t, i) == h && t[h] == '#' && IsSpace(t[h + 1])
    requires SpacesEnd(t, h + 1) == e
    ensures HeaderEnd(t, i) == Some(e)
  {
  }

  /** The leftmost header at or after `q`, as (start, end). */
  function NextHeader(s: string, q: nat): (r: Option<(nat, nat)>)
    requires q <= |s|
    ensures r.Some? ==> q <= r.value.0 && r.value.0 + 2 <= r.value.1 <= |s|
    ensures r.Some? ==> HeaderEnd(s, r.value.0) == Some(r.value.1)
    ensures r.Some? ==> forall i :: q <= i < r.value.0 ==> HeaderEnd(s, i).None?
    ensures r.None? ==> forall i :: q <= i < |s| ==> HeaderEnd(s, i).None?
    decreases |s| - q
  {
    if q >= |s| then None
    else match HeaderEnd(s, q)
      case Some(e) => Some((q, e))
      case None => NextHeader(s, q + 1)
  }

  /** `response.split(/\s*#\s+/)`. */
  function SplitSections(s: string): (r: seq<string>)
    ensures |r| >= 1
    decreases |s|
  {
    match NextHeader(s, 0)
    case None => [s]
    case Some((q, e)) => [s[..q]] + SplitSections(s[e..])
  }

  /** The header texts `split` drops, one between each two pieces. */
  function HeaderSeparators(s: string): (r: seq<string>)
    ensures |r| + 1 == |SplitSections(s)|
    decreases |s|
  {
    match NextHeader(s, 0)
    case None => []
    case Some((q, e)) => [s[q..e]] + HeaderSeparators(s[e..])
  }

  /** The pieces with the separators put back between them. */
  function Rejoin(pieces: seq<string>, seps: seq<string>): string
    requires |seps| + 1 == |pieces|
    decreases |seps|
  {
    if seps == [] then pieces[0] else pieces[0] + seps[0] + Rejoin(pieces[1..], seps[1..])
  }

  /** A text matched by `\s*#\s+` as a whole. */
  predicate HeaderText(t: string) {
    HeaderEnd(t, 0) == Some(|t|)
  }

  /** No header starts at the very end of a text. */
  lemma NoHeaderAtEnd(s: string)
    ensures HeaderEnd(s, |s|).None?
  {
    assert SpacesEnd(s, |s|) == |s|;
  }

  /** The text before the first header holds no header of its own. */
  lemma NoHeaderInPrefix(s: string, q: nat)
    requires q <= |s|
    requires forall i :: 0 <= i < q ==> HeaderEnd(s, i).None?
    ensures forall i :: 0 <= i <= q ==> HeaderEnd(s[..q], i).None?
  {
    assert s[..q] == s[0..q];
    forall i | 0 <= i <= q ensures HeaderEnd(s[..q], i).None? {
      if i == q {
        NoHeaderAtEnd(s[..q]);
      } else {
        HeaderEndSlice(s, 0, q, i);
      }
    }
  }

  /** Splitting loses nothing: the pieces with the dropped separators put back give the reply again. */
  lemma {:induction false} SplitSectionsRejoin(s: string)
    ensures Rejoin(SplitSections(s), HeaderSeparators(s)) == s
    decreases |s|
  {
    match NextHeader(s, 0)
    case None =>
    case Some((q, e)) =>
      SplitStep(s, q, e);
      SplitSectionsRejoin(s[e..]);
      RejoinCons(s[..q], s[q..e], SplitSections(s[e..]), HeaderSeparators(s[e..]));
      ThreeParts(s, q, e);
  }

  lemma ThreeParts(s: string, q: nat, e: nat)
    requires q <= e <= |s|
    ensures s[..q] + s[q..e] + s[e..] == s
  {
    assert s[..q] + s[q..e] == s[..e];
  }

  /** One step of the split: the text before the first header, then the split of what follows it. */
  lemma SplitStep(s: string, q: nat, e: nat)
    requires NextHeader(s, 0) == Some((q, e))
    ensures SplitSections(s) == [s[..q]] + SplitSections(s[e..])
    ensures HeaderSeparators(s) == [s[q..e]] + HeaderSeparators(s[e..])
  {
  }

  lemma RejoinCons(p: string, sep: string, pieces: seq<string>, seps: seq<string>)
    requires |seps| + 1 == |pieces|
    ensures Rejoin([p] + pieces, [sep] + seps) == p + sep + Rejoin(pieces, seps)
  {
    assert ([p] + pieces)[1..] == pieces;
    assert ([sep] + seps)[1..] == seps;
  }

  /** Splitting cuts only at headers: every dropped separator is a whole `\s*#\s+` match. */
  lemma {:induction false} SeparatorsAreHeaders(s: string)
    ensures forall k :: 0 <= k < |HeaderSeparators(s)| ==> HeaderText(HeaderSeparators(s)[k])
    decreases |s|
  {
    match NextHeader(s, 0)
    case None =>
    case Some((q, e)) =>
      var rest := s[e..];
      SeparatorsAreHeaders(rest);
      SplitStep(s, q, e);
      FirstSeparatorIsHeader(s, q, e);
      var seps := HeaderSeparators(s);
      assert seps[1..] == HeaderSeparators(rest);
      forall k | 1 <= k < |seps| ensures HeaderText(seps[k]) {
        assert seps[k] == seps[1..][k - 1];
      }
  }

  /** The text of the first header match is matched whole on its own. */
  lemma FirstSeparatorIsHeader(s: string, q: nat, e: nat)
    requires NextHeader(s, 0) == Some((q, e))
    ensures HeaderText(s[q..e])
  {
    HeaderEndSlice(s, q, e, 0);
  }

  /** No piece of the split holds a header of its own. */
  lemma {:induction false} PiecesHaveNoHeader(s: string)
    ensures forall k, i :: 0 <= k < |SplitSections(s)| && 0 <= i <= |SplitSections(s)[k]| ==>
      HeaderEnd(SplitSections(s)[k], i).None?
    decreases |s|
  {
    match NextHeader(s, 0)
    case None =>
      NoHeaderAtEnd(s);
    case Some((q, e)) =>
      PiecesHaveNoHeader(s[e..]);
      NoHeaderInPrefix(s, q);
      var pieces := SplitSections(s);
      assert pieces[1..] == SplitSections(s[e..]);
      forall k, i | 1 <= k < |pieces| && 0 <= i <= |pieces[k]| ensures HeaderEnd(pieces[k], i).None? {
        assert pieces[k] == pieces[1..][k - 1];
      }
  }

  /** A text without any header is not split. */
  lemma SplitWithoutHeader(s: string)
    requires forall i :: 0 <= i < |s| ==> HeaderEnd(s, i).None?
    ensures SplitSections(s) == [s]
  {
  }

  /** `section.trim().startsWith(upper) || section.trim().startsWith(title)`. */
  predicate Headed(section: string, upper: string, title: string) {
    StartsWith(Trim(section), upper) || StartsWith(Trim(section), title)
  }

  /** `xs.find(section => Headed(section, upper, title))`, as the index of the element found. */
  function FindHeaded(xs: seq<string>, upper: string, title: string, from: nat): (r: Option<nat>)
    requires from <= |xs|
    ensures r.Some? ==> from <= r.value < |xs| && Headed(xs[r.value], upper, title)
    decreases |xs| - from
  {
    if from == |xs| then None
    else if Headed(xs[from], upper, title) then Some(from)
    else FindHeaded(xs, upper, title, from + 1)
  }

  /** `find` gives the first headed element, and nothing only when no element is headed. */
  lemma {:induction false} FindHeadedIsFirst(xs: seq<string>, upper: string, title: string, from: nat)
    requires from <= |xs|
    ensures var r := FindHeaded(xs, upper, title, from);
      && (r.Some? ==> forall i :: from <= i < r.value ==> !Headed(xs[i], upper, title))
      && (r.None? ==> forall i :: from <= i < |xs| ==> !Headed(xs[i], upper, title))
    decreases |xs| - from
  {
    if from < |xs| && !Headed(xs[from], upper, title) {
      FindHeadedIsFirst(xs, upper, title, from + 1);
    }
  }

  const QualityUpper := "QUALITY SCORES"
  const QualityTitle := "Quality Scores"
  const OverallUpper := "OVERALL RECOMMENDATIONS"
  const OverallTitle := "Overall Recommendations"

  // ---------------------------------------------------------------- scores

  /** A parsed number and the position just after the text it came from. */
  datatype Number = Number(value: nat, end: nat)

  /** `(\d+)%` at `w`. */
  function DigitsPercentAt(s: string, w: nat): (r: Option<Number>)
    requires w <= |s|
    ensures r.Some? ==> w < r.value.end <= |s|
  {
    var d := DigitsEnd(s, w);
    if w < d && d < |s| && s[d] == '%' then
      Some(Number(DigitsValue(s[w..d]), d + 1))
    else None
  }

  /** Digits from `w` up to a `%` are always read, as their value. */
  lemma DigitsPercentAtFinds(s: string, w: nat, d: nat)
    requires w < d < |s| && s[d] == '%' && AllDigits(s[w..d])
    ensures DigitsPercentAt(s, w) == Some(Number(DigitsValue(s[w..d]), d + 1))
  {
    forall i | w <= i < d ensures IsDigit(s[i]) {
      assert s[i] == s[w..d][i - w];
    }
    DigitsEndAt(s, w, d);
  }

  /** `\s*(\d+)%` at `q`: the white space skipped one character at a time, then the digits. */
  function PercentAt(s: string, q: nat): (r: Option<Number>)
    requires q <= |s|
    ensures r.Some? ==> q < r.value.end <= |s|
    decreases |s| - q
  {
    if q < |s| && IsSpace(s[q]) then PercentAt(s, q + 1) else DigitsPercentAt(s, q)
  }

  /** What `(\d+)%` reads: a non-empty digit run, then `%`, and the run's decimal value. */
  lemma DigitsPercentAtReads(s: string, w: nat)
    requires w <= |s|
    ensures var r := DigitsPercentAt(s, w); r.Some? ==> var d := r.value.end - 1;
      && w < d < |s| && s[d] == '%' && AllDigits(s[w..d]) && r.value.value == DigitsValue(s[w..d])
  {
  }

  /** `\s*` is greedy and `\d` is never white space: the digits are read right after the white-space run. */
  lemma {:induction false} PercentAtSkipsSpaces(s: string, q: nat)
    requires q <= |s|
    ensures PercentAt(s, q) == DigitsPercentAt(s, SpacesEnd(s, q))
    decreases |s| - q
  {
    if q < |s| && IsSpace(s[q]) {
      PercentAtSkipsSpaces(s, q + 1);
    }
  }

  /** The three score formats, in the order they are tried. */
  datatype Pattern =
    | DashedList  // -\s*(.*?):\s*(\d+)%
    | ColonPair   // ([^\n:]+):\s*(\d+)%
    | HyphenPair  // ([^\n:]+)\s*-\s*(\d+)%

  const Patterns: seq<Pattern> := [DashedList, ColonPair, HyphenPair]

  /** A section name and its score. */
  datatype Score = Score(name: string, value: nat)

  datatype ScoreMatch = ScoreMatch(score: Score, end: nat)

  /** How far `.*` reaches from `c`: up to the first line terminator. */
  function DotEnd(s: string, c: nat): (r: nat)
    requires c <= |s|
    ensures c <= r <= |s|
    ensures forall i :: c <= i < r ==> !IsLineTerminator(s[i])
    ensures r < |s| ==> IsLineTerminator(s[r])
    decreases |s| - c
  {
    if c < |s| && !IsLineTerminator(s[c]) then DotEnd(s, c + 1) else c
  }

  /** A colon at `i` that `\s*(\d+)%` follows. */
  predicate ColonScored(s: string, i: nat)
    requires i < |s|
  {
    s[i] == ':' && PercentAt(s, i + 1).Some?
  }

  /** The lazy `(.*?):` of the dashed format: the first colon from `c`, before any line end, that a percentage follows. */
  function ScoredColon(s: string, c: nat): (r: Option<(nat, Number)>)
    requires c <= |s|
    ensures r.Some? ==> c <= r.value.0 < r.value.1.end <= |s|
    decreases |s| - c
  {
    if c == |s| || IsLineTerminator(s[c]) then None
    else if s[c] != ':' then ScoredColon(s, c + 1)
    else
      var n := PercentAt(s, c + 1);
      if n.Some? then Some((c, n.value)) else ScoredColon(s, c + 1)
  }

  /**
   * The first colon before the line ends that a percentage follows, and
   * none when the line has no such colon: what the lazy `.*?` settles on.
   */
  lemma {:induction false} ScoredColonIsFirst(s: string, c: nat)
    requires c <= |s|
    ensures var r := ScoredColon(s, c);
      && (r.Some? ==> && r.value.0 < DotEnd(s, c) && s[r.value.0] == ':'
                      && PercentAt(s, r.value.0 + 1) == Some(r.value.1)
                      && forall i :: c <= i < r.value.0 ==> !ColonScored(s, i))
      && (r.None? ==> forall i :: c <= i < DotEnd(s, c) ==> !ColonScored(s, i))
  {
    if ScoredColon(s, c).Some? {
      ScoredColonFound(s, c);
    } else {
      ScoredColonNone(s, c);
    }
  }

  lemma {:induction false} ScoredColonFound(s: string, c: nat)
    requires c <= |s| && ScoredColon(s, c).Some?
    ensures var r := ScoredColon(s, c).value;
      && r.0 < DotEnd(s, c) && s[r.0] == ':' && PercentAt(s, r.0 + 1) == Some(r.1)
      && forall i :: c <= i < r.0 ==> !ColonScored(s, i)
    decreases |s| - c
  {
    DotEndStep(s, c);
    if !ColonScored(s, c) {
      ScoredColonSkips(s, c);
      ScoredColonFound(s, c + 1);
      NoColonExtends(s, c, ScoredColon(s, c).value.0);
    }
  }

  lemma {:induction false} ScoredColonNone(s: string, c: nat)
    requires c <= |s| && ScoredColon(s, c).None?
    ensures forall i :: c <= i < DotEnd(s, c) ==> !ColonScored(s, i)
    decreases |s| - c
  {
    if c < |s| && !IsLineTerminator(s[c]) {
      DotEndStep(s, c);
      ScoredColonSkips(s, c);
      ScoredColonNone(s, c + 1);
      NoColonExtends(s, c, DotEnd(s, c));
    }
  }

  /** `.` reaches past a character that is not a line terminator. */
  lemma DotEndStep(s: string, c: nat)
    requires c < |s| && !IsLineTerminator(s[c])
    ensures DotEnd(s, c) == DotEnd(s, c + 1)
  {
  }

  /** A character that is not a scored colon is passed over. */
  lemma ScoredColonSkips(s: string, c: nat)
    requires c < |s| && !IsLineTerminator(s[c]) && !ColonScored(s, c)
    ensures ScoredColon(s, c) == ScoredColon(s, c + 1)
  {
  }

  lemma NoColonExtends(s: string, c: nat, q: nat)
    requires c < q <= |s| && !ColonScored(s, c)
    requires forall i :: c + 1 <= i < q ==> !ColonScored(s, i)
    ensures forall i :: c <= i < q ==> !ColonScored(s, i)
  {
  }

  /** `\s*-\s*(\d+)%` at `g`. */
  function HyphenPercentAt(s: string, g: nat): (r: Option<Number>)
    requires g <= |s|
    ensures r.Some? ==> g < r.value.end <= |s|
    decreases |s| - g
  {
    if g == |s| then None
    else if IsSpace(s[g]) then HyphenPercentAt(s, g + 1)
    else if s[g] == '-' then PercentAt(s, g + 1)
    else None
  }

  /** `\s*-` is read as the white-space run and then a hyphen right after it. */
  lemma {:induction false} HyphenPercentAtReads(s: string, g: nat)
    requires g <= |s|
    ensures var h := SpacesEnd(s, g);
      HyphenPercentAt(s, g) == if h < |s| && s[h] == '-' then PercentAt(s, h + 1) else None
    decreases |s| - g
  {
    if g < |s| && IsSpace(s[g]) {
      HyphenPercentAtReads(s, g + 1);
    }
  }

  /** The greedy group of the hyphen format, backing off from `g` to one character past `q`. */
  function ScoredHyphen(s: string, q: nat, g: nat): (r: Option<(nat, Number)>)
    requires q < g <= |s|
    ensures r.Some? ==> q < r.value.0 <= g && HyphenPercentAt(s, r.value.0) == Some(r.value.1)
    ensures r.Some? ==> forall i :: r.value.0 < i <= g ==> HyphenPercentAt(s, i).None?
    decreases g
  {
    var n := HyphenPercentAt(s, g);
    if n.Some? then Some((g, n.value))
    else if g == q + 1 then None
    else ScoredHyphen(s, q, g - 1)
  }

  /** A match of the pattern starting exactly at `q`, with its group trimmed and parsed. */
  function ScoreMatchAt(p: Pattern, s: string, q: nat): (r: Option<ScoreMatch>)
    requires q < |s|
    ensures r.Some? ==> q < r.value.end <= |s|
  {
    match p
    case DashedList =>
      if s[q] != '-' then None
      else
        var t := SpacesEnd(s, q + 1);
        (match ScoredColon(s, t)
         case None => None
         case Some((c, n)) => Some(ScoreMatch(Score(Trim(s[t..c]), n.value), n.end)))
    case ColonPair =>
      var b := SegmentEnd(s, q);
      if b == q || b == |s| || s[b] != ':' then None
      else
        (match PercentAt(s, b + 1)
         case None => None
         case Some(n) => Some(ScoreMatch(Score(Trim(s[q..b]), n.value), n.end)))
    case HyphenPair =>
      var b := SegmentEnd(s, q);
      if b == q then None
      else
        match ScoredHyphen(s, q, b)
        case None => None
        case Some((g, n)) => Some(ScoreMatch(Score(Trim(s[q..g]), n.value), n.end))
  }

  /** `regex.exec(text)` with `lastIndex == from`: the leftmost match at or after `from`. */
  function NextScore(p: Pattern, s: string, from: nat): (r: Option<ScoreMatch>)
    requires from <= |s|
    ensures r.Some? ==> from < r.value.end <= |s|
    decreases |s| - from
  {
    if from == |s| then None
    else match ScoreMatchAt(p, s, from)
      case Some(m) => Some(m)
      case None => NextScore(p, s, from + 1)
  }

  /** `exec` finds the leftmost match: one at its start, none between `from` and it, and none at all when it finds nothing. */
  lemma {:induction false} NextScoreIsLeftmost(p: Pattern, s: string, from: nat)
    requires from <= |s|
    ensures var r := NextScore(p, s, from);
      && (r.Some? ==> exists q :: && from <= q < |s| && ScoreMatchAt(p, s, q) == r
                                  && forall i :: from <= i < q ==> ScoreMatchAt(p, s, i).None?)
      && (r.None? ==> forall q :: from <= q < |s| ==> ScoreMatchAt(p, s, q).None?)
  {
    if NextScore(p, s, from).Some? {
      var q := NextScoreStart(p, s, from);
    } else {
      NextScoreNone(p, s, from);
    }
  }

  /** Where the match `exec` finds starts: no position before it matches. */
  lemma {:induction false} NextScoreStart(p: Pattern, s: string, from: nat) returns (q: nat)
    requires from <= |s| && NextScore(p, s, from).Some?
    ensures from <= q < |s| && ScoreMatchAt(p, s, q) == NextScore(p, s, from)
    ensures forall i :: from <= i < q ==> ScoreMatchAt(p, s, i).None?
    decreases |s| - from
  {
    if ScoreMatchAt(p, s, from).Some? {
      q := from;
    } else {
      NextScoreSkips(p, s, from);
      q := NextScoreStart(p, s, from + 1);
      NoMatchExtends(p, s, from, q);
    }
  }

  /** A position without a match is passed over. */
  lemma NextScoreSkips(p: Pattern, s: string, from: nat)
    requires from < |s| && ScoreMatchAt(p, s, from).None?
    ensures NextScore(p, s, from) == NextScore(p, s, from + 1)
  {
  }

  lemma NoMatchExtends(p: Pattern, s: string, from: nat, q: nat)
    requires from < q <= |s| && ScoreMatchAt(p, s, from).None?
    requires forall i :: from + 1 <= i < q ==> ScoreMatchAt(p, s, i).None?
    ensures forall i :: from <= i < q ==> ScoreMatchAt(p, s, i).None?
  {
  }

  /** `exec` finds nothing only when no position matches. */
  lemma {:induction false} NextScoreNone(p: Pattern, s: string, from: nat)
    requires from <= |s| && NextScore(p, s, from).None?
    ensures forall q :: from <= q < |s| ==> ScoreMatchAt(p, s, q).None?
    decreases |s| - from
  {
    if from < |s| {
      NextScoreNone(p, s, from + 1);
    }
  }

  /** Every score the `exec` loop of one pattern finds from `from` on, in order. */
  function AllScores(p: Pattern, s: string, from: nat): (r: seq<Score>)
    requires from <= |s|
    ensures |r| <= |s| - from
    ensures r == [] <==> NextScore(p, s, from).None?
    decreases |s| - from
  {
    match NextScore(p, s, from)
    case None => []
    case Some(m) => [m.score] + AllScores(p, s, m.end)
  }

  /** What the `exec` loop of each pattern finds in `s`, pattern by pattern. */
  function PatternScores(s: string, ps: seq<Pattern>): (r: seq<seq<Score>>)
    ensures |r| == |ps|
    ensures forall k :: 0 <= k < |ps| ==> r[k] == AllScores(ps[k], s, 0)
  {
    if ps == [] then [] else [AllScores(ps[0], s, 0)] + PatternScores(s, ps[1..])
  }

  /** The first non-empty list of scores, the loop over patterns stopping at the first that matched. */
  function FirstNonEmpty(rs: seq<seq<Score>>): (r: seq<Score>)
    ensures r == [] || r in rs
  {
    if rs == [] then [] else if rs[0] != [] then rs[0] else FirstNonEmpty(rs[1..])
  }

  /** No scores come out exactly when every pattern found none. */
  lemma {:induction false} NoScoresIffNoneFound(rs: seq<seq<Score>>)
    ensures FirstNonEmpty(rs) == [] <==> forall k :: 0 <= k < |rs| ==> rs[k] == []
  {
    if rs != [] {
      NoScoresIffNoneFound(rs[1..]);
      assert forall k :: 1 <= k < |rs| ==> rs[k] == rs[1..][k - 1];
    }
  }

  /** The first pattern that found anything gives the scores. */
  lemma {:induction false} FirstFoundWins(rs: seq<seq<Score>>, k: nat)
    requires k < |rs| && rs[k] != []
    requires forall j :: 0 <= j < k ==> rs[j] == []
    ensures FirstNonEmpty(rs) == rs[k]
  {
    if k > 0 {
      assert rs[0] == [];
      assert forall j :: 0 <= j < k - 1 ==> rs[1..][j] == rs[j + 1];
      FirstFoundWins(rs[1..], k - 1);
    }
  }

  /** The scores of a quality-score section: `Patterns` tried in order. */
  function ExtractScores(section: string): (r: seq<Score>)
    ensures r == [] <==> forall k :: 0 <= k < |Patterns| ==> AllScores(Patterns[k], section, 0) == []
    ensures r == [] || exists k :: 0 <= k < |Patterns| && r == AllScores(Patterns[k], section, 0)
  {
    NoScoresIffNoneFound(PatternScores(section, Patterns));
    FirstNonEmpty(PatternScores(section, Patterns))
  }

  /**
   * First pattern wins: what the dashed list finds if it finds anything,
   * else what the colon pairs find if they find anything, else what the
   * hyphen pairs find.
   */
  lemma ExtractScoresFirstPatternWins(section: string)
    ensures Patterns == [DashedList, ColonPair, HyphenPair]
    ensures var rs := PatternScores(section, Patterns);
      && (rs[0] != [] ==> ExtractScores(section) == rs[0])
      && (rs[0] == [] && rs[1] != [] ==> ExtractScores(section) == rs[1])
      && (rs[0] == [] && rs[1] == [] ==> ExtractScores(section) == rs[2])
  {
    var rs := PatternScores(section, Patterns);
    if rs[0] != [] {
      FirstFoundWins(rs, 0);
    } else if rs[1] != [] {
      FirstFoundWins(rs, 1);
    } else if rs[2] != [] {
      FirstFoundWins(rs, 2);
    } else {
      NoScoresIffNoneFound(rs);
    }
  }

  /** The names a list of scores mentions. */
  function NamesOf(ms: seq<Score>): (r: set<string>)
    ensures forall k :: 0 <= k < |ms| ==> ms[k].name in r
    ensures forall n :: n in r ==> exists k :: 0 <= k < |ms| && ms[k].name == n
  {
    if ms == [] then {} else {ms[0].name} + NamesOf(ms[1..])
  }

  /** `scores[section] = score` for each match in turn. */
  function ApplyScores(m: map<string, nat>, ms: seq<Score>): (r: map<string, nat>)
    ensures r.Keys == m.Keys + NamesOf(ms)
    ensures forall k :: k in m && k !in NamesOf(ms) ==> r[k] == m[k]
    decreases |ms|
  {
    if ms == [] then m else ApplyScores(m[ms[0].name := ms[0].value], ms[1..])
  }

  /** The last score a name gets is the one that stays. */
  lemma {:induction false} ApplyScoresLastWins(m: map<string, nat>, pre: seq<Score>, s: Score, post: seq<Score>)
    requires s.name !in NamesOf(post)
    ensures s.name in ApplyScores(m, pre + [s] + post)
    ensures ApplyScores(m, pre + [s] + post)[s.name] == s.value
    decreases |pre|
  {
    if pre == [] {
      assert pre + [s] + post == [s] + post;
      assert ([s] + post)[1..] == post;
    } else {
      assert (pre + [s] + post)[1..] == pre[1..] + [s] + post;
      ApplyScoresLastWins(m[pre[0].name := pre[0].value], pre[1..], s, post);
    }
  }

  // ------------------------------------------------------- recommendations

  /** Where `[^\n]+` can start after the `\s*` that reached `t`: `\s*` gives back characters down to `lo`. */
  function ItemStart(s: string, lo: nat, t: nat): (r: Option<nat>)
    requires lo <= t <= |s|
    ensures r.Some? ==> lo <= r.value <= t && r.value < |s| && s[r.value] != '\n'
    ensures r.Some? ==> forall i :: r.value < i <= t ==> i == |s| || s[i] == '\n'
    ensures r.None? ==> forall i :: lo <= i <= t ==> i == |s| || s[i] == '\n'
    decreases t
  {
    if t < |s| && s[t] != '\n' then Some(t)
    else if t == lo then None
    else ItemStart(s, lo, t - 1)
  }

  /** A numbered item and the position just after it. */
  datatype Item = Item(text: string, end: nat)

  /** `\d+\.\s*([^\n]+)` at `q`, with `^\d+\.\s*` then removed from the match. */
  function ItemAt(s: string, q: nat): (r: Option<Item>)
    requires q < |s|
    ensures r.Some? ==> q < r.value.end <= |s|
    ensures r.Some? ==> IsDigit(s[q]) && (r.value.end == |s| || s[r.value.end] == '\n')
  {
    if !IsDigit(s[q]) then None
    else
      var d := DigitsEnd(s, q);
      if d == |s| || s[d] != '.' then None
      else
        match ItemStart(s, d + 1, SpacesEnd(s, d + 1))
        case None => None
        case Some(t) =>
          var e := LineEnd(s, t);
          Some(Item(TrimStart(s[d + 1..e]), e))
  }

  /** `section.match(/\d+\.\s*([^\n]+)/g)`, each match cleaned of its number. */
  function AllItems(s: string, from: nat): (r: seq<string>)
    requires from <= |s|
    ensures |r| <= |s| - from
    decreases |s| - from
  {
    if from == |s| then []
    else match ItemAt(s, from)
      case Some(it) => [it.text] + AllItems(s, it.end)
      case None => AllItems(s, from + 1)
  }

  function ListItems(items: seq<string>): (r: string)
    ensures items == [] ==> r == ""
  {
    if items == [] then "" else "<li>" + items[0] + "</li>" + ListItems(items[1..])
  }

  /** Each item becomes one `<li>`, in order: the markup of a list is that of its parts, one after the other. */
  lemma {:induction false} ListItemsAppend(a: seq<string>, b: seq<string>)
    ensures ListItems(a + b) == ListItems(a) + ListItems(b)
    ensures ListItems([]) == "" && forall x :: ListItems([x]) == "<li>" + x + "</li>"
    decreases |a|
  {
    forall x ensures ListItems([x]) == "<li>" + x + "</li>" {
      assert [x][1..] == [];
    }
    if a != [] {
      var li := "<li>" + a[0] + "</li>";
      assert (a + b)[0] == a[0] && (a + b)[1..] == a[1..] + b;
      ListItemsAppend(a[1..], b);
      calc {
        ListItems(a + b);
        li + ListItems(a[1..] + b);
        li + (ListItems(a[1..]) + ListItems(b));
        (li + ListItems(a[1..])) + ListItems(b);
        ListItems(a) + ListItems(b);
      }
    } else {
      assert a + b == b;
    }
  }

  // The numbered lists the analysis prompt asks for.

  /** A recommendation a numbered line carries back unchanged: one line, not empty, not starting with white space. */
  predicate ItemText(t: string) {
    t != [] && !IsSpace(t[0]) && '\n' !in t
  }

  /** The line `k. text`. */
  function ItemLine(k: nat, t: string): (r: string)
    ensures |r| == |NatToString(k)| + 2 + |t|
  {
    NatToString(k) + ". " + t
  }

  /** Items `xs` numbered from `k`, one per line. */
  function NumberedList(xs: seq<string>, k: nat): string
    decreases |xs|
  {
    if xs == [] then "" else ItemLine(k, xs[0]) + "\n" + NumberedList(xs[1..], k + 1)
  }

  /** A complete line run ends where its line ends. */
  lemma {:induction false} LineEndAt(s: string, q: nat, e: nat)
    requires q <= e <= |s|
    requires forall i :: q <= i < e ==> s[i] != '\n'
    requires e < |s| ==> s[e] == '\n'
    ensures LineEnd(s, q) == e
    decreases e - q
  {
    if q < e {
      LineEndAt(s, q + 1, e);
    }
  }

  /** A numbered line `k. text`, ending the text or followed by a line break, is read back as `text`. */
  lemma ItemParses(s: string, q: nat, k: nat, t: string)
    requires ItemText(t)
    requires q + |ItemLine(k, t)| <= |s| && s[q..q + |ItemLine(k, t)|] == ItemLine(k, t)
    requires q + |ItemLine(k, t)| < |s| ==> s[q + |ItemLine(k, t)|] == '\n'
    ensures ItemAt(s, q) == Some(Item(t, q + |ItemLine(k, t)|))
  {
    var d := q + |NatToString(k)|;
    var e := q + |ItemLine(k, t)|;
    ItemLineLayout(s, q, k, t);
    ItemDigits(s, q, d);
    SpacesEndAt(s, d + 1, d + 2);
    LineEndAt(s, d + 2, e);
    TrimmedItem(s, d + 1, e, t);
    ItemAtOf(s, q, d, e, t);
  }

  /** The white space after an item's `.` is trimmed off its text. */
  lemma TrimmedItem(s: string, a: nat, e: nat, t: string)
    requires ItemText(t) && a <= e <= |s| && s[a..e] == " " + t
    ensures TrimStart(s[a..e]) == t
  {
    assert (" " + t)[1..] == t;
  }

  /** Where the parts of a numbered line sit in the text that holds it. */
  lemma ItemLineLayout(s: string, q: nat, k: nat, t: string)
    requires ItemText(t)
    requires q + |ItemLine(k, t)| <= |s| && s[q..q + |ItemLine(k, t)|] == ItemLine(k, t)
    ensures var d := q + |NatToString(k)|; var e := q + |ItemLine(k, t)|;
      && (forall i :: q <= i < d ==> IsDigit(s[i]))
      && s[d] == '.' && s[d + 1] == ' ' && !IsSpace(s[d + 2]) && s[d + 2] != '\n'
      && (forall i :: d + 2 <= i < e ==> s[i] != '\n')
      && s[d + 1..e] == " " + t
  {
    var line := ItemLine(k, t);
    var n := |NatToString(k)|;
    var d := q + n;
    var e := q + |line|;
    ItemLineChars(k, t);
    SliceChars(s, q, line);
    forall i | q <= i < d ensures IsDigit(s[i]) {
      assert s[i] == line[i - q];
    }
    assert s[d] == line[n] && s[d + 1] == line[n + 1] && s[d + 2] == line[n + 2];
    forall i | d + 2 <= i < e ensures s[i] != '\n' {
      assert s[i] == line[i - q];
    }
    assert s[d + 1..e] == s[q..e][n + 1..];
  }

  /** The parts of the line `k. text`: the digits of `k`, `. `, then the text. */
  lemma ItemLineChars(k: nat, t: string)
    requires ItemText(t)
    ensures var line := ItemLine(k, t); var n := |NatToString(k)|;
      && (forall i :: 0 <= i < n ==> IsDigit(line[i]))
      && line[n] == '.' && line[n + 1] == ' ' && !IsSpace(line[n + 2]) && line[n + 2] != '\n'
      && (forall i :: n + 2 <= i < |line| ==> line[i] != '\n')
      && line[n + 1..] == " " + t
  {
    var digits := NatToString(k);
    var line := ItemLine(k, t);
    var n := |digits|;
    assert line == digits + ". " + t;
    forall i | 0 <= i < n ensures IsDigit(line[i]) {
      assert line[i] == digits[i];
    }
    assert line[n + 2] == t[0];
    forall i | n + 2 <= i < |line| ensures line[i] != '\n' {
      assert line[i] == t[i - n - 2];
    }
  }

  /** The characters of a text that holds `line` at `q`. */
  lemma SliceChars(s: string, q: nat, line: string)
    requires q + |line| <= |s| && s[q..q + |line|] == line
    ensures forall i :: 0 <= i < |line| ==> s[q + i] == line[i]
  {
    forall i | 0 <= i < |line| ensures s[q + i] == line[i] {
      assert s[q + i] == s[q..q + |line|][i];
    }
  }

  /** `ItemAt` once the digit run, the white space and the line are known. */
  lemma ItemAtOf(s: string, q: nat, d: nat, e: nat, t: string)
    requires q < d && d + 2 < |s| && IsDigit(s[q]) && DigitsEnd(s, q) == d && s[d] == '.'
    requires SpacesEnd(s, d + 1) == d + 2 && s[d + 2] != '\n' && d + 2 <= e <= |s| && LineEnd(s, d + 2) == e
    requires TrimStart(s[d + 1..e]) == t
    ensures ItemAt(s, q) == Some(Item(t, e))
  {
    assert ItemStart(s, d + 1, d + 2) == Some(d + 2);
  }

  /** The digit run of a numbered line stops at its `.`. */
  lemma ItemDigits(s: string, q: nat, d: nat)
    requires q < d < |s| && s[d] == '.'
    requires forall i :: q <= i < d ==> IsDigit(s[i])
    ensures DigitsEnd(s, q) == d && IsDigit(s[q])
  {
    DigitsEndAt(s, q, d);
  }

  /** Characters that are not digits start no item, so the scan passes over them. */
  lemma {:induction false} AllItemsSkip(s: string, from: nat, to: nat)
    requires from <= to <= |s|
    requires forall i :: from <= i < to ==> !IsDigit(s[i])
    ensures AllItems(s, from) == AllItems(s, to)
    decreases |s| - from
  {
    if from < to {
      AllItemsSkip(s, from + 1, to);
    }
  }

  /** A numbered list is read back as its items, in order, their numbers dropped. */
  lemma {:induction false} AllItemsOfList(s: string, from: nat, xs: seq<string>, k: nat)
    requires forall i :: 0 <= i < |xs| ==> ItemText(xs[i])
    requires from <= |s| && s[from..] == NumberedList(xs, k)
    ensures AllItems(s, from) == xs
    decreases |xs|
  {
    if xs == [] {
      assert |s[from..]| == 0;
    } else {
      assert xs == [xs[0]] + xs[1..];
      var e := NumberedListLayout(s, from, xs, k);
      var next := AllItemsAfterLine(s, from, k, xs[0], e);
      ItemTextsTail(xs);
      AllItemsOfList(s, next, xs[1..], k + 1);
    }
  }

  /** A numbered line followed by a line break gives its text, and the scan goes on after the break. */
  lemma {:induction false} AllItemsAfterLine(s: string, from: nat, k: nat, t: string, e: nat) returns (next: nat)
    requires ItemText(t) && e == from + |ItemLine(k, t)|
    requires e < |s| && s[from..e] == ItemLine(k, t) && s[e] == '\n'
    ensures next == e + 1
    ensures AllItems(s, from) == [t] + AllItems(s, next)
  {
    next := e + 1;
    ItemParses(s, from, k, t);
    AllItemsStep(s, from, Item(t, e));
    AllItemsSkip(s, e, e + 1);
  }

  /** An item found at `from` is the first item, and the scan goes on after it. */
  lemma AllItemsStep(s: string, from: nat, it: Item)
    requires from < |s| && ItemAt(s, from) == Some(it)
    ensures AllItems(s, from) == [it.text] + AllItems(s, it.end)
  {
  }

  /** The first line of a non-empty numbered list, its line break, and the rest of the list. */
  lemma NumberedListLayout(s: string, from: nat, xs: seq<string>, k: nat) returns (e: nat)
    requires xs != [] && from <= |s| && s[from..] == NumberedList(xs, k)
    ensures e == from + |ItemLine(k, xs[0])|
    ensures e < |s| && s[from..e] == ItemLine(k, xs[0]) && s[e] == '\n' && s[e + 1..] == NumberedList(xs[1..], k + 1)
  {
    var line := ItemLine(k, xs[0]);
    e := from + |line|;
    var rest := NumberedList(xs[1..], k + 1);
    assert s[from..] == line + "\n" + rest;
    assert s[from..e] == s[from..][..|line|];
    assert s[e] == s[from..][|line|];
    assert s[e + 1..] == s[from..][|line| + 1..];
  }

  /** Every item of a list is item text, so every item of its tail is too. */
  lemma ItemTextsTail(xs: seq<string>)
    requires xs != [] && forall i :: 0 <= i < |xs| ==> ItemText(xs[i])
    ensures forall i :: 0 <= i < |xs[1..]| ==> ItemText(xs[1..][i])
  {
    forall i | 0 <= i < |xs[1..]| ensures ItemText(xs[1..][i]) {
      assert xs[1..][i] == xs[i + 1];
    }
  }

  const OverallOpen := "<div class=\"overall-recommendations\">"

  /** The section starts with the header's letters, in any ASCII case. */
  predicate OverallHeaderFirst(s: string) {
    |s| >= |OverallUpper| && UpperAscii(s[..|OverallUpper|]) == OverallUpper
  }

  /** `section.replace(/^OVERALL RECOMMENDATIONS\s*\/i, '')`. */
  function StripOverallHeader(s: string): (r: string)
    ensures |r| <= |s| && r == s[|s| - |r|..]
    ensures !OverallHeaderFirst(s) ==> r == s
    ensures OverallHeaderFirst(s) ==> |OverallUpper| <= |s| - |r|
    ensures OverallHeaderFirst(s) ==> forall i :: |OverallUpper| <= i < |s| - |r| ==> IsSpace(s[i])
    ensures OverallHeaderFirst(s) ==> r == [] || !IsSpace(r[0])
  {
    if OverallHeaderFirst(s) then s[SpacesEnd(s, |OverallUpper|)..]
    else s
  }

  /** The markup of the overall-recommendations section. */
  function OverallHtml(section: string): (r: string)
    ensures StartsWith(r, OverallOpen)
    ensures AllItems(section, 0) != [] ==> r == OverallOpen + ("<ol>" + ListItems(AllItems(section, 0)) + ("</ol>" + "</div>"))
    ensures AllItems(section, 0) == [] ==>
      r == OverallOpen + ("<p>" + NewlinesToBr(Trim(StripOverallHeader(section))) + ("</p>" + "</div>"))
  {
    var items := AllItems(section, 0);
    var rest := if items != [] then "<ol>" + ListItems(items) + ("</ol>" + "</div>")
                else "<p>" + NewlinesToBr(Trim(StripOverallHeader(section))) + ("</p>" + "</div>");
    assert (OverallOpen + rest)[..|OverallOpen|] == OverallOpen;
    OverallOpen + rest
  }

  /**
   * A section holding a numbered list, after a header without digits, is
   * shown as that list: the items, in order, without their numbers.
   */
  lemma OverallHtmlOfList(head: string, xs: seq<string>, k: nat)
    requires forall i :: 0 <= i < |head| ==> !IsDigit(head[i])
    requires xs != [] && forall i :: 0 <= i < |xs| ==> ItemText(xs[i])
    ensures OverallHtml(head + NumberedList(xs, k)) == OverallOpen + ("<ol>" + ListItems(xs) + ("</ol>" + "</div>"))
  {
    var s := head + NumberedList(xs, k);
    assert s[|head|..] == NumberedList(xs, k);
    AllItemsSkip(s, 0, |head|);
    AllItemsOfList(s, |head|, xs, k);
  }

  /** A section without any digit is shown as its text without the header, trimmed, line breaks turned into `<br>`. */
  lemma OverallHtmlOfProse(section: string)
    requires forall i :: 0 <= i < |section| ==> !IsDigit(section[i])
    ensures OverallHtml(section) ==
      OverallOpen + ("<p>" + NewlinesToBr(Trim(StripOverallHeader(section))) + ("</p>" + "</div>"))
  {
    AllItemsSkip(section, 0, |section|);
  }

  const RecommendationsHeading := "<h3>Recommendations</h3>"

  const Fallback := RecommendationsHeading + "<p>No specific recommendations could be generated. Please add more content to your canvas sections and try again.</p>"

  /** The section of the reply that a header selects, if any. */
  function SectionHeaded(response: string, upper: string, title: string): (r: Option<string>)
    ensures r.Some? ==> Headed(r.value, upper, title)
  {
    var pieces := SplitSections(response);
    match FindHeaded(pieces, upper, title, 0)
    case None => None
    case Some(i) => Some(pieces[i])
  }

  /**
   * `find` over the pieces of the split: nothing exactly when no piece is
   * headed, and otherwise the first headed piece.
   */
  lemma SectionHeadedIsFirst(response: string, upper: string, title: string)
    ensures SectionHeaded(response, upper, title).None? ==>
      forall k :: 0 <= k < |SplitSections(response)| ==> !Headed(SplitSections(response)[k], upper, title)
    ensures (forall k :: 0 <= k < |SplitSections(response)| ==> !Headed(SplitSections(response)[k], upper, title)) ==>
      SectionHeaded(response, upper, title).None?
    ensures SectionHeaded(response, upper, title).Some? ==>
      exists k :: && 0 <= k < |SplitSections(response)|
                  && SectionHeaded(response, upper, title).value == SplitSections(response)[k]
                  && forall j :: 0 <= j < k ==> !Headed(SplitSections(response)[j], upper, title)
  {
    FindHeadedIsFirst(SplitSections(response), upper, title, 0);
  }

  /** The markup `formatLLMResponse` returns. */
  function ResponseHtml(response: string): (r: string)
    ensures r == Fallback || StartsWith(r, OverallOpen)
  {
    match SectionHeaded(response, OverallUpper, OverallTitle)
    case None => Fallback
    case Some(section) => OverallHtml(section)
  }

  /** The scores `formatLLMResponse` parses, in the order it stores them. */
  function ScoresOf(response: string): (r: seq<Score>)
    ensures r != [] ==> SectionHeaded(response, QualityUpper, QualityTitle).Some?
  {
    match SectionHeaded(response, QualityUpper, QualityTitle)
    case None => []
    case Some(section) => ExtractScores(section)
  }

  /** A complete digit run ends where its digits end. */
  lemma {:induction false} DigitsEndAt(s: string, q: nat, e: nat)
    requires q <= e <= |s|
    requires forall i :: q <= i < e ==> IsDigit(s[i])
    requires e < |s| ==> !IsDigit(s[e])
    ensures DigitsEnd(s, q) == e
    decreases e - q
  {
    if q < e {
      DigitsEndAt(s, q + 1, e);
    }
  }

  /** The lazy group of the dashed format stops at the first colon that a percentage follows. */
  lemma {:induction false} ScoredColonAt(s: string, c: nat, colon: nat, n: Number)
    requires c <= colon < |s| && s[colon] == ':' && PercentAt(s, colon + 1) == Some(n)
    requires forall i :: c <= i < colon ==> !IsLineTerminator(s[i]) && !ColonScored(s, i)
    ensures ScoredColon(s, c) == Some((colon, n))
    decreases colon - c
  {
    if c < colon {
      ScoredColonAt(s, c + 1, colon, n);
    }
  }

  /** One space, the decimal text of `n` and a `%` are read as `n`. */
  lemma PercentAtNumber(s: string, q: nat, n: nat)
    requires q + 1 + |NatToString(n)| < |s|
    requires s[q] == ' ' && s[q + 1 + |NatToString(n)|] == '%'
    requires s[q + 1..q + 1 + |NatToString(n)|] == NatToString(n)
    ensures PercentAt(s, q) == Some(Number(n, q + 2 + |NatToString(n)|))
  {
    var digits := NatToString(n);
    var w := q + 1;
    var d := w + |digits|;
    assert forall i :: w <= i < d ==> IsDigit(s[i]) by {
      forall i | w <= i < d ensures IsDigit(s[i]) {
        assert s[w..d][i - w] == s[i] && IsDigit(digits[i - w]);
      }
    }
    assert !IsSpace(s[w]) by {
      assert s[w] == s[w..d][0];
    }
    DigitsEndAt(s, w, d);
    DigitsValueOfNatToString(n);
    assert PercentAt(s, w) == DigitsPercentAt(s, w);
  }

  /** The dashed format at the start of `s` once its group and its number are known. */
  lemma DashedMatchOf(s: string, t: nat, c: nat, n: Number)
    requires 0 < |s| && s[0] == '-' && 1 <= t <= |s| && SpacesEnd(s, 1) == t && ScoredColon(s, t) == Some((c, n))
    ensures ScoreMatchAt(DashedList, s, 0) == Some(ScoreMatch(Score(Trim(s[t..c]), n.value), n.end))
  {
  }

  /** One space before a character that is not white space is all a `\s*` at 1 takes. */
  lemma OneSpace(s: string)
    requires 2 < |s| && s[1] == ' ' && !IsSpace(s[2])
    ensures SpacesEnd(s, 1) == 2
  {
    assert SpacesEnd(s, 2) == 2;
  }

  /** The lazy group of `- Name: N%` ends at the colon after the name. */
  lemma DashedColon(s: string, name: string, n: nat)
    requires forall i :: 0 <= i < |name| ==> name[i] != ':' && !IsLineTerminator(name[i])
    requires 2 + |name| + 2 + |NatToString(n)| < |s|
    requires s[2..2 + |name|] == name && s[2 + |name|] == ':'
    requires s[3 + |name|] == ' ' && s[4 + |name|..4 + |name| + |NatToString(n)|] == NatToString(n)
    requires s[4 + |name| + |NatToString(n)|] == '%'
    ensures ScoredColon(s, 2) == Some((2 + |name|, Number(n, 5 + |name| + |NatToString(n)|)))
  {
    var colon := 2 + |name|;
    PercentAtNumber(s, colon + 1, n);
    forall i | 2 <= i < colon ensures s[i] != ':' && !IsLineTerminator(s[i]) {
      assert s[i] == s[2..colon][i - 2];
    }
    ScoredColonAt(s, 2, colon, Number(n, 5 + |name| + |NatToString(n)|));
  }

  /** The dashed format read at the start of a text laid out as `- Name: N%`. */
  lemma DashedScoreAt(s: string, name: string, n: nat)
    requires Trimmed(name)
    requires forall i :: 0 <= i < |name| ==> name[i] != ':' && !IsLineTerminator(name[i])
    requires 2 + |name| + 2 + |NatToString(n)| < |s|
    requires s[0] == '-' && s[1] == ' ' && s[2..2 + |name|] == name && s[2 + |name|] == ':'
    requires s[3 + |name|] == ' ' && s[4 + |name|..4 + |name| + |NatToString(n)|] == NatToString(n)
    requires s[4 + |name| + |NatToString(n)|] == '%'
    ensures ScoreMatchAt(DashedList, s, 0) == Some(ScoreMatch(Score(name, n), 5 + |name| + |NatToString(n)|))
  {
    assert !IsSpace(s[2]) by {
      if name != [] {
        assert s[2] == s[2..2 + |name|][0];
      }
    }
    OneSpace(s);
    DashedColon(s, name, n);
    DashedMatchOf(s, 2, 2 + |name|, Number(n, 5 + |name| + |NatToString(n)|));
    TrimmedIffUnchanged(name);
  }

  /** A score line in the format the analysis prompt asks for. */
  function ScoreLine(name: string, n: nat): (r: string)
    ensures |r| == 5 + |name| + |NatToString(n)|
  {
    "- " + name + ": " + NatToString(n) + "%"
  }

  /** Where the parts of a score line sit. */
  lemma ScoreLineLayout(name: string, n: nat, rest: string)
    ensures var s := ScoreLine(name, n) + rest; var digits := NatToString(n);
      && 2 + |name| + 2 + |digits| < |s|
      && s[0] == '-' && s[1] == ' ' && s[2..2 + |name|] == name && s[2 + |name|] == ':'
      && s[3 + |name|] == ' ' && s[4 + |name|..4 + |name| + |digits|] == digits
      && s[4 + |name| + |digits|] == '%'
  {
    var digits := NatToString(n);
    var head := "- " + name + ": ";
    var tail := digits + "%" + rest;
    var s := head + tail;
    assert s == ScoreLine(name, n) + rest;
    assert s[..|head|] == head;
    assert head[2..2 + |name|] == name;
    assert s[|head|..] == tail;
    assert tail[..|digits|] == digits;
  }

  /** A score line `- Name: N%` is read back as that name and that number, whatever follows it. */
  lemma ScoreLineParses(s: string, name: string, n: nat, rest: string)
    requires s == ScoreLine(name, n) + rest
    requires Trimmed(name)
    requires forall i :: 0 <= i < |name| ==> name[i] != ':' && !IsLineTerminator(name[i])
    ensures ScoreMatchAt(DashedList, s, 0) == Some(ScoreMatch(Score(name, n), 5 + |name| + |NatToString(n)|))
  {
    ScoreLineLayout(name, n, rest);
    DashedScoreAt(s, name, n);
  }

  /** No overall-recommendations markup is the fallback text. */
  lemma OverallIsNotFallback(r: string)
    requires StartsWith(r, OverallOpen)
    ensures r != Fallback
  {
    assert r[1] == r[..|OverallOpen|][1] == 'd';
    assert Fallback[1] == RecommendationsHeading[1] == 'h';
  }

  /** The fixed fallback is shown exactly when the reply has no overall-recommendations section. */
  lemma FallbackIffNoOverall(response: string)
    ensures ResponseHtml(response) == Fallback <==> SectionHeaded(response, OverallUpper, OverallTitle).None?
  {
    var sec := SectionHeaded(response, OverallUpper, OverallTitle);
    if sec.Some? {
      OverallIsNotFallback(OverallHtml(sec.value));
    }
  }
}
