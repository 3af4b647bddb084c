/** Shared value types and the small slice of Python's `str` behaviour the
    analyzer relies on: whitespace, stripping, prefixes and suffixes,
    substring tests, `join`, ASCII case mapping and `splitlines`. */
module Common {

  datatype Option<T> = None | Some(value: T) {
    /** `dict.get(key, default)` */
    function GetOr(default: T): T {
      match this
      case Some(v) => v
      case None => default
    }
  }

  datatype Result<T, E> = Ok(value: T) | Err(error: E)

  /** `str.isspace()` for one character (also what `\s` matches in a `str` pattern). */
  predicate IsSpace(c: char) {
    ('\t' <= c <= '\r') || ('\U{1C}' <= c <= ' ') || c == '\U{85}' || c == '\U{A0}'
    || c == '\U{1680}' || ('\U{2000}' <= c <= '\U{200A}') || c == '\U{2028}' || c == '\U{2029}'
    || c == '\U{202F}' || c == '\U{205F}' || c == '\U{3000}'
  }

  /** A line boundary for `str.splitlines()`. */
  predicate IsLineBreak(c: char) {
    ('\n' <= c <= '\r') || ('\U{1C}' <= c <= '\U{1E}') || c == '\U{85}'
    || c == '\U{2028}' || c == '\U{2029}'
  }

  predicate IsDigit(c: char) {
    '0' <= c <= '9'
  }

  predicate StartsWith(s: string, prefix: string) {
    |prefix| <= |s| && s[..|prefix|] == prefix
  }

  predicate EndsWith(s: string, suffix: string) {
    |suffix| <= |s| && s[|s| - |suffix|..] == suffix
  }

  /** `needle` occurs in `hay` starting at index `i`. */
  predicate OccursAt(hay: string, needle: string, i: nat) {
    i + |needle| <= |hay| && hay[i..i + |needle|] == needle
  }

  /** Python's `needle in hay` for two strings. */
  predicate Contains(hay: string, needle: string) {
    exists i: nat :: i <= |hay| && OccursAt(hay, needle, i)
  }

  /** A string holding `c` is never a substring of a string without `c`. */
  lemma NotContainsChar(hay: string, needle: string, c: char)
    requires c in needle && c !in hay
    ensures !Contains(hay, needle)
  {
    var k :| 0 <= k < |needle| && needle[k] == c;
    forall i: nat | i + |needle| <= |hay|
      ensures !OccursAt(hay, needle, i)
    {
      assert hay[i..i + |needle|][k] == hay[i + k];
    }
  }

  /** End of the whitespace run that starts at `i`. */
  function SpaceRunFrom(s: string, i: nat): (k: nat)
    requires i <= |s|
    ensures i <= k <= |s|
    decreases |s| - i
  {
    if i < |s| && IsSpace(s[i]) then SpaceRunFrom(s, i + 1) else i
  }

  /** Start of the whitespace run that ends just before `k`. */
  function SpaceRunBack(s: string, k: nat): (m: nat)
    requires k <= |s|
    ensures m <= k
  {
    if k > 0 && IsSpace(s[k - 1]) then SpaceRunBack(s, k - 1) else k
  }

  /** `str.lstrip()`: drops leading whitespace. */
  function TrimStart(s: string): string {
    s[SpaceRunFrom(s, 0)..]
  }

  /** `str.rstrip()`: drops trailing whitespace. */
  function TrimEnd(s: string): string {
    s[..SpaceRunBack(s, |s|)]
  }

  /** `str.strip()` */
  function Strip(s: string): string {
    TrimEnd(TrimStart(s))
  }

  lemma {:induction false} SpaceRunFromSpec(s: string, i: nat)
    requires i <= |s|
    ensures forall j :: i <= j < SpaceRunFrom(s, i) ==> IsSpace(s[j])
    ensures SpaceRunFrom(s, i) < |s| ==> !IsSpace(s[SpaceRunFrom(s, i)])
    decreases |s| - i
  {
    if i < |s| && IsSpace(s[i]) {
      SpaceRunFromSpec(s, i + 1);
    }
  }

  lemma {:induction false} SpaceRunBackSpec(s: string, k: nat)
    requires k <= |s|
    ensures forall j :: SpaceRunBack(s, k) <= j < k ==> IsSpace(s[j])
    ensures SpaceRunBack(s, k) > 0 ==> !IsSpace(s[SpaceRunBack(s, k) - 1])
  {
    if k > 0 && IsSpace(s[k - 1]) {
      SpaceRunBackSpec(s, k - 1);
    }
  }

  /** `lstrip` removes a prefix of whitespace only, and what is left does not
      start with whitespace. */
  lemma TrimStartSpec(s: string)
    ensures var r := TrimStart(s);
      && r == s[|s| - |r|..]
      && (forall j :: 0 <= j < |s| - |r| ==> IsSpace(s[j]))
      && (r != [] ==> !IsSpace(r[0]))
  {
    SpaceRunFromSpec(s, 0);
  }

  /** `rstrip` removes a suffix of whitespace only, and what is left does not
      end with whitespace. */
  lemma TrimEndSpec(s: string)
    ensures var r := TrimEnd(s);
      && r == s[..|r|]
      && (forall j :: |r| <= j < |s| ==> IsSpace(s[j]))
      && (r != [] ==> !IsSpace(r[|r| - 1]))
  {
    SpaceRunBackSpec(s, |s|);
  }

  /** `sep.join(parts)` */
  function Join(sep: string, parts: seq<string>): string {
    if |parts| == 0 then ""
    else if |parts| == 1 then parts[0]
    else parts[0] + sep + Join(sep, parts[1..])
  }

  /** The joined text always begins with the first part, so it is empty only
      when there are no parts or the only part is empty. */
  lemma JoinStartsWithFirst(sep: string, parts: seq<string>)
    requires |parts| > 0
    ensures StartsWith(Join(sep, parts), parts[0])
  {
    if |parts| > 1 {
      assert Join(sep, parts) == parts[0] + (sep + Join(sep, parts[1..]));
    }
  }

  function LowerChar(c: char): char {
    if 'A' <= c <= 'Z' then (c as int + 32) as char else c
  }

  function UpperChar(c: char): char {
    if 'a' <= c <= 'z' then (c as int - 32) as char else c
  }

  /** `str.lower()` restricted to ASCII letters. */
  function Lower(s: string): (r: string)
    ensures |r| == |s|
    ensures forall i :: 0 <= i < |s| ==> r[i] == LowerChar(s[i])
  {
    seq(|s|, i requires 0 <= i < |s| => LowerChar(s[i]))
  }

  /** `str.upper()` restricted to ASCII letters. */
  function Upper(s: string): (r: string)
    ensures |r| == |s|
    ensures forall i :: 0 <= i < |s| ==> r[i] == UpperChar(s[i])
  {
    seq(|s|, i requires 0 <= i < |s| => UpperChar(s[i]))
  }

  /** Lower-casing forgets any earlier case change. */
  lemma LowerOfUpper(s: string)
    ensures Lower(Upper(s)) == Lower(s)
  {
    assert forall i :: 0 <= i < |s| ==> Lower(Upper(s))[i] == Lower(s)[i];
  }

  /** Index of the first line break at or after `i`, or `|s|`. */
  function LineEndFrom(s: string, i: nat): (k: nat)
    requires i <= |s|
    ensures i <= k <= |s|
    decreases |s| - i
  {
    if i == |s| || IsLineBreak(s[i]) then i else LineEndFrom(s, i + 1)
  }

  lemma {:induction false} LineEndFromSpec(s: string, i: nat)
    requires i <= |s|
    ensures forall j :: i <= j < LineEndFrom(s, i) ==> !IsLineBreak(s[j])
    ensures LineEndFrom(s, i) < |s| ==> IsLineBreak(s[LineEndFrom(s, i)])
    decreases |s| - i
  {
    if i < |s| && !IsLineBreak(s[i]) {
      LineEndFromSpec(s, i + 1);
    }
  }

  /** The lines of `s[i..]`: "\r\n" is one boundary, a final boundary opens
      no extra line. */
  function SplitLinesFrom(s: string, i: nat): (lines: seq<string>)
    requires i <= |s|
    ensures lines == [] <==> i == |s|
    decreases |s| - i
  {
    if i == |s| then []
    else
      var k := LineEndFrom(s, i);
      if k == |s| then [s[i..]]
      else
        [s[i..k]] + SplitLinesFrom(s, NextLine(s, k))
  }

  /** `str.splitlines()`; the empty string has no lines. */
  function SplitLines(s: string): (lines: seq<string>)
    ensures s == [] <==> lines == []
  {
    SplitLinesFrom(s, 0)
  }

  /** Where the line after the one ending at break `k` starts. */
  function NextLine(s: string, k: nat): (next: nat)
    requires k < |s|
    ensures k < next <= |s|
  {
    if s[k] == '\r' && k + 1 < |s| && s[k + 1] == '\n' then k + 2 else k + 1
  }

  lemma SplitLinesFromUnfold(s: string, i: nat)
    requires i < |s|
    ensures LineEndFrom(s, i) == |s| ==> SplitLinesFrom(s, i) == [s[i..]]
    ensures LineEndFrom(s, i) < |s| ==>
      SplitLinesFrom(s, i) == [s[i..LineEndFrom(s, i)]] + SplitLinesFrom(s, NextLine(s, LineEndFrom(s, i)))
  {
  }

  /** No line holds a line break. */
  lemma {:induction false} SplitLinesFromNoBreaks(s: string, i: nat)
    requires i <= |s|
    ensures forall n, j :: 0 <= n < |SplitLinesFrom(s, i)| && 0 <= j < |SplitLinesFrom(s, i)[n]| ==>
      !IsLineBreak(SplitLinesFrom(s, i)[n][j])
    decreases |s| - i
  {
    if i < |s| {
      var k := LineEndFrom(s, i);
      LineEndFromSpec(s, i);
      SplitLinesFromUnfold(s, i);
      var lines := SplitLinesFrom(s, i);
      var first := s[i..k];
      assert lines[0] == first;
      assert forall j :: 0 <= j < |first| ==> first[j] == s[i + j];
      if k < |s| {
        var rest := SplitLinesFrom(s, NextLine(s, k));
        SplitLinesFromNoBreaks(s, NextLine(s, k));
        assert forall n :: 1 <= n < |lines| ==> lines[n] == rest[n - 1];
      }
    }
  }

  lemma SplitLinesNoBreaks(s: string)
    ensures forall n, j :: 0 <= n < |SplitLines(s)| && 0 <= j < |SplitLines(s)[n]| ==> !IsLineBreak(SplitLines(s)[n][j])
  {
    SplitLinesFromNoBreaks(s, 0);
  }

  /** Text whose only line breaks are "\n". */
  predicate NewlinesOnly(s: string) {
    forall i :: 0 <= i < |s| && IsLineBreak(s[i]) ==> s[i] == '\n'
  }

  lemma JoinCons(sep: string, first: string, rest: seq<string>)
    requires rest != []
    ensures Join(sep, [first] + rest) == first + sep + Join(sep, rest)
  {
    assert ([first] + rest)[1..] == rest;
  }

  /** The line before a "\\n", the "\\n", then the joined rest. */
  lemma JoinAtNewline(s: string, i: nat, k: nat, rest: seq<string>)
    requires i <= k < |s| && s[k] == '\n' && rest != []
    requires Join("\n", rest) == s[k + 1..]
    ensures Join("\n", [s[i..k]] + rest) == s[i..]
  {
    JoinCons("\n", s[i..k], rest);
    assert s[i..] == s[i..k] + [s[k]] + s[k + 1..];
  }

  /** For text whose only line breaks are "\n" and which does not end in one,
      joining the lines of `s[i..]` with "\n" gives `s[i..]` back. */
  lemma {:induction false} SplitLinesFromJoin(s: string, i: nat)
    requires NewlinesOnly(s) && i <= |s|
    requires s == [] || s[|s| - 1] != '\n'
    ensures Join("\n", SplitLinesFrom(s, i)) == s[i..]
    decreases |s| - i
  {
    if i < |s| {
      var k := LineEndFrom(s, i);
      SplitLinesFromUnfold(s, i);
      if k < |s| {
        assert s[k] == '\n' && k + 1 < |s| by {
          LineEndFromSpec(s, i);
        }
        assert NextLine(s, k) == k + 1;
        SplitLinesFromJoin(s, k + 1);
        JoinAtNewline(s, i, k, SplitLinesFrom(s, k + 1));
      }
    }
  }

  lemma SplitLinesJoin(s: string)
    requires NewlinesOnly(s)
    requires s == [] || s[|s| - 1] != '\n'
    ensures Join("\n", SplitLines(s)) == s
  {
    SplitLinesFromJoin(s, 0);
  }

  function DigitChar(d: nat): char
    requires d < 10
  {
    ('0' as int + d) as char
  }

  /** `str(n)` for a natural number. */
  function NatToString(n: nat): (r: string)
    ensures |r| > 0
    ensures forall i :: 0 <= i < |r| ==> IsDigit(r[i])
    decreases n
  {
    if n < 10 then [DigitChar(n)] else NatToString(n / 10) + [DigitChar(n % 10)]
  }

  /** The number a string of decimal digits stands for. */
  function DigitsValue(r: string): nat
    requires forall i :: 0 <= i < |r| ==> IsDigit(r[i])
  {
    if r == [] then 0
    else
      assert IsDigit(r[|r| - 1]);
      DigitsValue(r[..|r| - 1]) * 10 + (r[|r| - 1] as int - '0' as int)
  }

  /** `str(n)` reads back as `n`, and has no leading zero unless it is
      "0". */
  lemma {:induction false} NatToStringValue(n: nat)
    ensures DigitsValue(NatToString(n)) == n
    ensures n > 0 ==> NatToString(n)[0] != '0'
    ensures n == 0 ==> NatToString(n) == "0"
    decreases n
  {
    var r := NatToString(n);
    if n >= 10 {
      var init := NatToString(n / 10);
      NatToStringValue(n / 10);
      assert r == init + [DigitChar(n % 10)];
      assert r[..|r| - 1] == init;
      assert r[0] == init[0];
    }
  }

  /** `str(i)` for an integer. */
  function IntToString(i: int): string {
    if i < 0 then "-" + NatToString(-i) else NatToString(i)
  }

  /** No two positions hold the same element. */
  predicate NoDup<T(==)>(s: seq<T>) {
    forall i, j :: 0 <= i < j < |s| ==> s[i] != s[j]
  }
}
