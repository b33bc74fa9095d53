/**
 * The pieces of JavaScript's string library the four scripts rely on:
 * white space as `trim()` and the regex class `\s` see it, prefix and
 * substring tests, splitting into lines, the newline-to-`<br>` rewrite and
 * decimal digits. A JavaScript string is modelled as a `seq<char>`, one
 * element per Unicode code point; JavaScript counts UTF-16 code units, so
 * lengths differ for text outside the Basic Multilingual Plane.
 */
module JsText {

  datatype Option<+T> = None | Some(value: T)

  /** A message of the page's notification bar (`showNotification(message, isError)`). */
  datatype Notice = Notice(text: string, isError: bool)

  /** ECMAScript WhiteSpace and LineTerminator code points. */
  predicate IsSpace(c: char) {
    || c == '\t' || c == '\n' || c == '\U{B}' || c == '\U{C}' || c == '\r' || c == ' '
    || c == '\U{A0}' || c == '\U{1680}' || ('\U{2000}' <= c <= '\U{200A}')
    || c == '\U{2028}' || c == '\U{2029}' || c == '\U{202F}' || c == '\U{205F}'
    || c == '\U{3000}' || c == '\U{FEFF}'
  }

  /** Every character of `s` is white space (so `s.trim()` is empty). */
  predicate Blank(s: string) {
    forall i :: 0 <= i < |s| ==> IsSpace(s[i])
  }

  /** `s.trimStart()`: drops the leading white space and nothing else. */
  function TrimStart(s: string): (r: string)
    ensures |r| <= |s|
  {
    if |s| > 0 && IsSpace(s[0]) then TrimStart(s[1..]) else s
  }

  /** What `trimStart` drops is white space, and what it keeps is the rest, not starting with white space. */
  lemma {:induction false} TrimStartFacts(s: string)
    ensures TrimStart(s) == s[|s| - |TrimStart(s)|..]
    ensures TrimStart(s) == [] || !IsSpace(TrimStart(s)[0])
    ensures Blank(s[..|s| - |TrimStart(s)|])
  {
    if |s| > 0 && IsSpace(s[0]) {
      TrimStartFacts(s[1..]);
      var k := |s| - |TrimStart(s)|;
      assert s[1..][k - 1..] == s[k..];
      forall i | 0 <= i < k ensures IsSpace(s[..k][i]) {
        if i > 0 {
          assert s[..k][i] == s[1..][..k - 1][i - 1];
        }
      }
    }
  }

  /** `s.trimEnd()`: drops the trailing white space and nothing else. */
  function TrimEnd(s: string): (r: string)
    ensures |r| <= |s|
  {
    if |s| > 0 && IsSpace(s[|s| - 1]) then TrimEnd(s[..|s| - 1]) else s
  }

  /** What `trimEnd` drops is white space, and what it keeps is the rest, not ending with white space. */
  lemma {:induction false} TrimEndFacts(s: string)
    ensures TrimEnd(s) == s[..|TrimEnd(s)|]
    ensures TrimEnd(s) == [] || !IsSpace(TrimEnd(s)[|TrimEnd(s)| - 1])
    ensures Blank(s[|TrimEnd(s)|..])
  {
    if |s| > 0 && IsSpace(s[|s| - 1]) {
      var init := s[..|s| - 1];
      TrimEndFacts(init);
      var k := |TrimEnd(s)|;
      assert init[..k] == s[..k];
      forall i | k <= i < |s| ensures IsSpace(s[i]) {
        if i < |s| - 1 {
          assert s[i] == init[k..][i - k];
        }
      }
    }
  }

  /** `s.trim()`. */
  function Trim(s: string): (r: string)
    ensures |r| <= |s|
  {
    TrimEnd(TrimStart(s))
  }

  /** Trimming leaves nothing exactly when the text is all white space. */
  lemma TrimEmptyIffBlank(s: string)
    ensures Trim(s) == [] <==> Blank(s)
  {
    var t := TrimStart(s);
    TrimStartFacts(s);
    TrimEndFacts(t);
    BlankSplit(s, |s| - |t|);
    BlankSplit(t, |TrimEnd(t)|);
  }

  /** Neither end of `s` is white space. */
  predicate Trimmed(s: string) {
    s == [] || (!IsSpace(s[0]) && !IsSpace(s[|s| - 1]))
  }

  /** Trimming changes nothing exactly when neither end is white space. */
  lemma TrimmedIffUnchanged(s: string)
    ensures Trimmed(s) <==> Trim(s) == s
  {
    if Trimmed(s) {
      assert TrimStart(s) == s;
      assert TrimEnd(s) == s;
    }
    if Trim(s) == s && s != [] {
      TrimStartFacts(s);
      var t := TrimStart(s);
      assert |t| == |s| && t == s;
      TrimEndFacts(s);
    }
  }

  /** A text whose first `k` characters are blank is blank exactly when the rest is. */
  lemma BlankSplit(s: string, k: nat)
    requires k <= |s|
    ensures Blank(s) <==> Blank(s[..k]) && Blank(s[k..])
  {
    if Blank(s[..k]) && Blank(s[k..]) {
      forall i | 0 <= i < |s| ensures IsSpace(s[i]) {
        if i < k { assert s[..k][i] == s[i]; } else { assert s[k..][i - k] == s[i]; }
      }
    }
  }

  /** `s.startsWith(p)`. */
  predicate StartsWith(s: string, p: string) {
    |p| <= |s| && s[..|p|] == p
  }

  /** `s.includes(t)`. */
  predicate Contains(s: string, t: string)
    decreases |s|
  {
    StartsWith(s, t) || (|s| > 0 && Contains(s[1..], t))
  }

  /** The index `s.indexOf(c)` returns, or None for -1. */
  function IndexOf(s: string, c: char): (r: Option<nat>)
    ensures r.None? <==> c !in s
    ensures r.Some? ==> r.value < |s| && s[r.value] == c && c !in s[..r.value]
  {
    if |s| == 0 then None
    else if s[0] == c then Some(0)
    else match IndexOf(s[1..], c)
      case None => None
      case Some(k) => assert s[..k + 1] == [s[0]] + s[1..][..k]; Some(k + 1)
  }

  /** `s.split('\n')`: the pieces between the newlines. */
  function Lines(s: string): (r: seq<string>)
    ensures |r| >= 1
    ensures forall k :: 0 <= k < |r| ==> '\n' !in r[k]
    decreases |s|
  {
    match IndexOf(s, '\n')
    case None => [s]
    case Some(k) => [s[..k]] + Lines(s[k + 1..])
  }

  /** `pieces.join(sep)`. */
  function Join(pieces: seq<string>, sep: string): string {
    if |pieces| == 0 then ""
    else if |pieces| == 1 then pieces[0]
    else pieces[0] + sep + Join(pieces[1..], sep)
  }

  /** Splitting into lines loses nothing: joining them with newlines gives back the text. */
  lemma {:induction false} JoinLines(s: string)
    ensures Join(Lines(s), "\n") == s
    decreases |s|
  {
    match IndexOf(s, '\n')
    case None =>
    case Some(k) =>
      var rest := Lines(s[k + 1..]);
      JoinLines(s[k + 1..]);
      assert Lines(s) == [s[..k]] + rest;
      assert ([s[..k]] + rest)[1..] == rest;
      assert Join(Lines(s), "\n") == s[..k] + "\n" + Join(rest, "\n");
      assert s == s[..k] + "\n" + s[k + 1..];
  }

  /** `s.replace(/\n/g, '<br>')`. */
  function NewlinesToBr(s: string): (r: string)
    ensures '\n' !in r
  {
    if |s| == 0 then ""
    else
      assert s == [s[0]] + s[1..];
      (if s[0] == '\n' then "<br>" else [s[0]]) + NewlinesToBr(s[1..])
  }

  /** The rewrite only touches newlines: text without one comes back unchanged. */
  lemma {:induction false} NewlinesToBrNoNewline(s: string)
    requires '\n' !in s
    ensures NewlinesToBr(s) == s
  {
    if |s| > 0 {
      assert s[0] in s;
      assert forall c :: c in s[1..] ==> c in s;
      NewlinesToBrNoNewline(s[1..]);
    }
  }

  /** The rewrite works piece by piece. */
  lemma {:induction false} NewlinesToBrAppend(a: string, b: string)
    ensures NewlinesToBr(a + b) == NewlinesToBr(a) + NewlinesToBr(b)
  {
    if |a| == 0 {
      assert a + b == b;
    } else {
      var head := if a[0] == '\n' then "<br>" else [a[0]];
      var ra, rb := NewlinesToBr(a[1..]), NewlinesToBr(b);
      assert (a + b)[0] == a[0] && (a + b)[1..] == a[1..] + b;
      assert NewlinesToBr(a + b) == head + NewlinesToBr(a[1..] + b);
      NewlinesToBrAppend(a[1..], b);
      assert NewlinesToBr(a) == head + ra;
      assert head + (ra + rb) == (head + ra) + rb;
    }
  }

  /** Every newline becomes `<br>` and nothing else changes: the lines joined with `<br>`. */
  lemma {:induction false} NewlinesToBrJoinsLines(s: string)
    ensures NewlinesToBr(s) == Join(Lines(s), "<br>")
    decreases |s|
  {
    match IndexOf(s, '\n')
    case None =>
      NewlinesToBrNoNewline(s);
    case Some(k) =>
      var rest := Lines(s[k + 1..]);
      NewlinesToBrJoinsLines(s[k + 1..]);
      NewlinesToBrAt(s, k);
      assert Lines(s) == [s[..k]] + rest;
      assert ([s[..k]] + rest)[1..] == rest;
  }

  /** A newline the first piece does not contain becomes `<br>` between the two rewritten sides. */
  lemma NewlinesToBrAt(s: string, k: nat)
    requires k < |s| && s[k] == '\n' && '\n' !in s[..k]
    ensures NewlinesToBr(s) == s[..k] + "<br>" + NewlinesToBr(s[k + 1..])
  {
    assert s == s[..k] + "\n" + s[k + 1..];
    NewlinesToBrAppend(s[..k] + "\n", s[k + 1..]);
    NewlinesToBrAppend(s[..k], "\n");
    NewlinesToBrNoNewline(s[..k]);
    assert NewlinesToBr("\n") == "<br>" by {
      assert "\n"[1..] == "";
    }
  }

  /** The regex class `\d`. */
  predicate IsDigit(c: char) { '0' <= c <= '9' }

  predicate AllDigits(s: string) { forall i :: 0 <= i < |s| ==> IsDigit(s[i]) }

  function DigitChar(d: nat): (c: char)
    requires d < 10
    ensures IsDigit(c) && c as int - '0' as int == d
  {
    (d + '0' as int) as char
  }

  /** `parseInt` of a run of decimal digits. */
  function DigitsValue(s: string): nat
    requires AllDigits(s)
  {
    if |s| == 0 then 0
    else 10 * DigitsValue(s[..|s| - 1]) + (s[|s| - 1] as int - '0' as int)
  }

  /** The decimal text JavaScript writes for a non-negative integer. */
  function NatToString(n: nat): (r: string)
    ensures |r| >= 1 && AllDigits(r)
  {
    if n < 10 then [DigitChar(n)] else NatToString(n / 10) + [DigitChar(n % 10)]
  }

  /** `${n}` for an integer. */
  function IntToString(n: int): string {
    if n < 0 then "-" + NatToString(-n) else NatToString(n)
  }

  /** Printing a number and parsing the digits back gives the number. */
  lemma {:induction false} DigitsValueOfNatToString(n: nat)
    ensures DigitsValue(NatToString(n)) == n
  {
    var r := NatToString(n);
    if n >= 10 {
      DigitsValueOfNatToString(n / 10);
      assert r[..|r| - 1] == NatToString(n / 10);
    }
  }

  /** ASCII upper-casing, the case folding the `/i` header match needs. */
  function UpperAscii(s: string): (r: string)
    ensures |r| == |s|
  {
    if |s| == 0 then ""
    else [if 'a' <= s[0] <= 'z' then (s[0] as int - 32) as char else s[0]] + UpperAscii(s[1..])
  }
}
