/** String operations the source relies on: Python's `str.strip()`, JavaScript's
    `String.prototype.trim()`, the editor's word count
    `content.split(/\s+/).filter(Boolean).length`, and `String(n)` on a
    non-negative integer. */
module Text {

  /** Which language's notion of white space is meant. */
  datatype Flavor = Js | Py

  /** JavaScript: WhiteSpace and LineTerminator (used by `trim()` and by `\s`).
      Python: the characters for which `str.isspace()` holds (used by `strip()`). */
  predicate IsSpace(f: Flavor, c: char) {
    match f
    case Js =>
      c == '\t' || c == '\n' || c == '\U{B}' || c == '\U{C}' || c == '\r' || c == ' '
      || c == '\U{A0}' || c == '\U{1680}' || ('\U{2000}' <= c <= '\U{200A}')
      || c == '\U{2028}' || c == '\U{2029}' || c == '\U{202F}' || c == '\U{205F}'
      || c == '\U{3000}' || c == '\U{FEFF}'
    case Py =>
      ('\t' <= c <= '\r') || ('\U{1C}' <= c <= '\U{1F}') || c == ' ' || c == '\U{85}'
      || c == '\U{A0}' || c == '\U{1680}' || ('\U{2000}' <= c <= '\U{200A}')
      || c == '\U{2028}' || c == '\U{2029}' || c == '\U{202F}' || c == '\U{205F}'
      || c == '\U{3000}'
  }

  /** Every character of `s` is white space (in particular, `s` may be empty). */
  predicate Blank(f: Flavor, s: string) {
    forall i :: 0 <= i < |s| ==> IsSpace(f, s[i])
  }

  /** Number of white-space characters at the start of `s`. */
  function LeadingSpaces(f: Flavor, s: string): (k: nat)
    ensures k <= |s|
    ensures forall i :: 0 <= i < k ==> IsSpace(f, s[i])
    ensures k < |s| ==> !IsSpace(f, s[k])
  {
    if s == [] || !IsSpace(f, s[0]) then 0 else 1 + LeadingSpaces(f, s[1..])
  }

  /** Number of white-space characters at the end of `s`. */
  function TrailingSpaces(f: Flavor, s: string): (k: nat)
    ensures k <= |s|
    ensures forall i :: |s| - k <= i < |s| ==> IsSpace(f, s[i])
    ensures k < |s| ==> !IsSpace(f, s[|s| - 1 - k])
  {
    if s == [] || !IsSpace(f, s[|s| - 1]) then 0 else 1 + TrailingSpaces(f, s[..|s| - 1])
  }

  /** `s.trim()` (flavour Js) or `s.strip()` (flavour Py): `s` without its
      leading and trailing white space. */
  function Trim(f: Flavor, s: string): (r: string)
    ensures r == [] <==> Blank(f, s)
    ensures r != [] ==> !IsSpace(f, r[0]) && !IsSpace(f, r[|r| - 1])
    ensures |r| <= |s|
  {
    var a := LeadingSpaces(f, s);
    if a == |s| then [] else s[a..|s| - TrailingSpaces(f, s)]
  }

  /** Everything after the leading white space of `s`. */
  function SkipSpaces(s: string): (r: string)
    ensures |r| <= |s|
  {
    s[LeadingSpaces(Js, s)..]
  }

  /** `s.split(/\s+/)` continued from a piece `cur` already started: the pieces
      between maximal runs of white space, including an empty first or last
      piece when `s` starts or ends with white space. */
  function SplitFrom(s: string, cur: string): seq<string>
    decreases |s|
  {
    if s == [] then [cur]
    else if IsSpace(Js, s[0]) then [cur] + SplitFrom(SkipSpaces(s[1..]), [])
    else SplitFrom(s[1..], cur + [s[0]])
  }

  /** `s.split(/\s+/)` */
  function Split(s: string): seq<string> {
    SplitFrom(s, [])
  }

  /** `pieces.filter(Boolean)`: the non-empty pieces, in order. */
  function NonEmpty(pieces: seq<string>): seq<string> {
    if pieces == [] then []
    else (if pieces[0] != [] then [pieces[0]] else []) + NonEmpty(pieces[1..])
  }

  /** The word count shown under the script editor: the number of word
      starts. */
  function WordCount(s: string): (r: nat)
    ensures r == WordStarts(s, true)
  {
    SplitFromCount(s, []);
    |NonEmpty(Split(s))|
  }

  /** Reference definition: the number of positions of `s` that start a word,
      i.e. hold a non-space character preceded by white space or by the start
      (`prevSpace` says whether the character before `s` was white space). */
  function WordStarts(s: string, prevSpace: bool): nat {
    if s == [] then 0
    else (if prevSpace && !IsSpace(Js, s[0]) then 1 else 0) + WordStarts(s[1..], IsSpace(Js, s[0]))
  }

  lemma {:induction false} NonEmptyCons(p: string, rest: seq<string>)
    ensures |NonEmpty([p] + rest)| == (if p != [] then 1 else 0) + |NonEmpty(rest)|
  {
  }

  /** Leading white space starts no word. */
  lemma {:induction false} WordStartsSkip(s: string, k: nat)
    requires k <= LeadingSpaces(Js, s)
    ensures WordStarts(s, true) == WordStarts(s[k..], true)
  {
    if k > 0 {
      assert s[1..][k - 1..] == s[k..];
      WordStartsSkip(s[1..], k - 1);
    }
  }

  lemma {:induction false} SplitFromCount(s: string, cur: string)
    ensures |NonEmpty(SplitFrom(s, cur))| == (if cur != [] then 1 else 0) + WordStarts(s, cur == [])
    decreases |s|
  {
    if s == [] {
      assert NonEmpty([cur]) == (if cur != [] then [cur] else []) + NonEmpty([]);
    } else if IsSpace(Js, s[0]) {
      var t := SkipSpaces(s[1..]);
      NonEmptyCons(cur, SplitFrom(t, []));
      SplitFromCount(t, []);
      WordStartsSkip(s[1..], LeadingSpaces(Js, s[1..]));
    } else {
      SplitFromCount(s[1..], cur + [s[0]]);
    }
  }

  /** No word starts exactly when the text is blank. */
  lemma {:induction false} WordStartsZero(s: string)
    ensures WordStarts(s, true) == 0 <==> Blank(Js, s)
  {
    if s != [] && IsSpace(Js, s[0]) {
      WordStartsZero(s[1..]);
      assert Blank(Js, s) <==> Blank(Js, s[1..]);
    }
  }

  /** Blank content has no words, and only blank content has none. */
  lemma WordCountZero(s: string)
    ensures WordCount(s) == 0 <==> Blank(Js, s)
  {
    WordStartsZero(s);
  }

  predicate IsDigit(c: char) {
    '0' <= c <= '9'
  }

  function DigitChar(d: nat): (c: char)
    requires d < 10
    ensures IsDigit(c)
  {
    ('0' as int + d) as char
  }

  /** `String(n)` for a non-negative integer `n`: its decimal digits, with no
      leading zero. */
  function NatToString(n: nat): (s: string)
    ensures |s| >= 1 && forall i :: 0 <= i < |s| ==> IsDigit(s[i])
    ensures |s| > 1 ==> s[0] != '0'
  {
    if n < 10 then [DigitChar(n)] else NatToString(n / 10) + [DigitChar(n % 10)]
  }

  /** The value of a string of decimal digits. */
  function DigitsValue(s: string): nat
    requires forall i :: 0 <= i < |s| ==> IsDigit(s[i])
  {
    if s == [] then 0
    else
      var last := s[|s| - 1];
      assert IsDigit(last);
      10 * DigitsValue(s[..|s| - 1]) + (last as int - '0' as int)
  }

  /** Reading back the decimal form of `n` gives `n`. */
  lemma {:induction false} NatToStringRoundTrip(n: nat)
    ensures DigitsValue(NatToString(n)) == n
  {
    if n >= 10 {
      var s := NatToString(n);
      assert s[..|s| - 1] == NatToString(n / 10);
      NatToStringRoundTrip(n / 10);
    }
  }

  /** Distinct numbers have distinct decimal forms. */
  lemma NatToStringInjective(m: nat, n: nat)
    ensures NatToString(m) == NatToString(n) <==> m == n
  {
    NatToStringRoundTrip(m);
    NatToStringRoundTrip(n);
  }
}
