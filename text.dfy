/** The pieces of Python's string library that the runner's logic leans on:
    `str.splitlines`, the character classes `\d` and `\s` of the `re` module,
    `int()` of a digit run, `str()` of an integer, `str.lower` and
    `os.path.basename` (POSIX). */
module Text {

  datatype Option<+T> = None | Some(value: T)

  // ---------------------------------------------------------------------------
  // Character classes

  /** `\d` restricted to the ASCII digits. */
  predicate IsDigit(c: char) {
    '0' <= c <= '9'
  }

  function DigitValue(c: char): (v: nat)
    requires IsDigit(c)
    ensures v < 10
  {
    (c as int) - ('0' as int)
  }

  function DigitChar(v: nat): (c: char)
    requires v < 10
    ensures IsDigit(c) && DigitValue(c) == v
  {
    ('0' as int + v) as char
  }

  /** `\s` in a str pattern: exactly the characters for which `str.isspace()` holds. */
  predicate IsSpace(c: char) {
    || c == ' '
    || '\t' <= c <= '\r'
    || '\U{1c}' <= c <= '\U{1f}'
    || c == '\U{85}' || c == '\U{a0}' || c == '\U{1680}'
    || '\U{2000}' <= c <= '\U{200a}'
    || c == '\U{2028}' || c == '\U{2029}' || c == '\U{202f}' || c == '\U{205f}' || c == '\U{3000}'
  }

  /** The characters at which `str.splitlines` ends a line. */
  predicate IsLineBreak(c: char) {
    || c == '\n' || c == '\r'
    || c == '\U{0b}' || c == '\U{0c}'
    || '\U{1c}' <= c <= '\U{1e}'
    || c == '\U{85}' || c == '\U{2028}' || c == '\U{2029}'
  }

  predicate AllDigits(s: string) {
    forall i :: 0 <= i < |s| ==> IsDigit(s[i])
  }

  predicate NoLineBreak(s: string) {
    forall i :: 0 <= i < |s| ==> !IsLineBreak(s[i])
  }

  // ---------------------------------------------------------------------------
  // Substring search: Python's `pat in s`

  predicate OccursAt(s: string, pat: string, i: int) {
    0 <= i && i + |pat| <= |s| && s[i..i + |pat|] == pat
  }

  lemma {:induction false} ConcatAssoc(a: string, b: string, c: string)
    ensures a + b + c == a + (b + c)
  {
  }

  /** `s` begins with `p`. */
  predicate StartsWith(s: string, p: string) {
    |p| <= |s| && s[..|p|] == p
  }

  predicate Contains(s: string, pat: string) {
    exists i | 0 <= i <= |s| :: OccursAt(s, pat, i)
  }

  lemma {:induction false} ContainsInPrefix(s: string, n: nat, pat: string)
    requires n <= |s| && Contains(s[..n], pat)
    ensures Contains(s, pat)
  {
    var i :| 0 <= i <= n && OccursAt(s[..n], pat, i);
    assert s[i..i + |pat|] == s[..n][i..i + |pat|];
    assert OccursAt(s, pat, i);
  }

  lemma {:induction false} ContainsInSuffix(s: string, n: nat, pat: string)
    requires n <= |s| && Contains(s[n..], pat)
    ensures Contains(s, pat)
  {
    var i :| 0 <= i <= |s| - n && OccursAt(s[n..], pat, i);
    assert s[n + i..n + i + |pat|] == s[n..][i..i + |pat|];
    assert OccursAt(s, pat, n + i);
  }

  // ---------------------------------------------------------------------------
  // str.splitlines(): "\r\n" is one boundary; a final boundary adds no empty line

  /** Index of the first line boundary at or after `i`, or `|s|` if there is none. */
  function FirstBreak(s: string, i: nat): (r: nat)
    requires i <= |s|
    ensures i <= r <= |s|
    ensures r < |s| ==> IsLineBreak(s[r])
    decreases |s| - i
  {
    if i == |s| || IsLineBreak(s[i]) then i else FirstBreak(s, i + 1)
  }

  /** No boundary comes before the one FirstBreak finds. */
  lemma {:induction false} FirstBreakIsFirst(s: string, i: nat)
    requires i <= |s|
    ensures forall t :: i <= t < FirstBreak(s, i) ==> !IsLineBreak(s[t])
    decreases |s| - i
  {
    if i < |s| && !IsLineBreak(s[i]) {
      FirstBreakIsFirst(s, i + 1);
    }
  }

  /** Length of the boundary that starts at `i`: two for "\r\n", one otherwise. */
  function BreakLength(s: string, i: nat): (n: nat)
    requires i < |s|
    ensures 1 <= n && i + n <= |s|
  {
    if s[i] == '\r' && i + 1 < |s| && s[i + 1] == '\n' then 2 else 1
  }

  function SplitLines(s: string): seq<string>
    decreases |s|
  {
    if s == [] then []
    else
      var i := FirstBreak(s, 0);
      if i == |s| then [s]
      else [s[..i]] + SplitLines(s[i + BreakLength(s, i)..])
  }

  /** No line that SplitLines gives holds a boundary character. */
  lemma {:induction false} LinesHaveNoBreaks(s: string)
    ensures forall line :: line in SplitLines(s) ==> NoLineBreak(line)
    decreases |s|
  {
    if s != [] {
      var i := FirstBreak(s, 0);
      FirstBreakIsFirst(s, 0);
      if i < |s| {
        LinesHaveNoBreaks(s[i + BreakLength(s, i)..]);
      }
    }
  }

  /** `s` with every line-boundary character dropped. */
  function DropBreaks(s: string): (r: string)
    ensures |r| <= |s|
  {
    if s == [] then []
    else if IsLineBreak(s[0]) then DropBreaks(s[1..])
    else [s[0]] + DropBreaks(s[1..])
  }

  function Concat(lines: seq<string>): string {
    if lines == [] then [] else lines[0] + Concat(lines[1..])
  }

  lemma {:induction false} DropBreaksAppend(a: string, b: string)
    ensures DropBreaks(a + b) == DropBreaks(a) + DropBreaks(b)
    decreases |a|
  {
    if a == [] {
      assert a + b == b;
    } else {
      assert (a + b)[1..] == a[1..] + b;
      DropBreaksAppend(a[1..], b);
    }
  }

  lemma {:induction false} DropBreaksOfPlainText(s: string)
    requires NoLineBreak(s)
    ensures DropBreaks(s) == s
    decreases |s|
  {
    if s != [] {
      DropBreaksOfPlainText(s[1..]);
    }
  }

  lemma {:induction false} DropBreaksOfBreaks(s: string)
    requires forall t :: 0 <= t < |s| ==> IsLineBreak(s[t])
    ensures DropBreaks(s) == []
    decreases |s|
  {
    if s != [] {
      DropBreaksOfBreaks(s[1..]);
    }
  }

  /** The lines of `s`, put back together, are `s` without its line boundaries:
      splitting loses the boundaries and nothing else. */
  lemma {:induction false} SplitLinesLosesOnlyBreaks(s: string)
    ensures Concat(SplitLines(s)) == DropBreaks(s)
    decreases |s|
  {
    if s != [] {
      var i := FirstBreak(s, 0);
      FirstBreakIsFirst(s, 0);
      if i == |s| {
        DropBreaksOfPlainText(s);
      } else {
        var n := BreakLength(s, i);
        var rest := s[i + n..];
        assert s == s[..i] + (s[i..i + n] + rest);
        SplitLinesLosesOnlyBreaks(rest);
        DropBreaksAppend(s[..i], s[i..i + n] + rest);
        DropBreaksAppend(s[i..i + n], rest);
        DropBreaksOfPlainText(s[..i]);
        DropBreaksOfBreaks(s[i..i + n]);
        assert SplitLines(s)[1..] == SplitLines(rest);
      }
    }
  }

  /** A line of `s` can only contain a pattern that `s` itself contains. */
  lemma {:induction false} LinesAreInside(s: string, pat: string, k: nat)
    requires k < |SplitLines(s)| && Contains(SplitLines(s)[k], pat)
    ensures Contains(s, pat)
    decreases |s|
  {
    var i := FirstBreak(s, 0);
    if i == |s| {
    } else if k == 0 {
      ContainsInPrefix(s, i, pat);
    } else {
      var n := i + BreakLength(s, i);
      assert SplitLines(s)[k] == SplitLines(s[n..])[k - 1];
      LinesAreInside(s[n..], pat, k - 1);
      ContainsInSuffix(s, n, pat);
    }
  }

  // ---------------------------------------------------------------------------
  // int() of a digit run and str() of an integer

  /** The value Python's `int()` gives a run of ASCII digits. */
  function DecimalValue(s: string): nat
    requires AllDigits(s)
  {
    if s == [] then 0 else 10 * DecimalValue(s[..|s| - 1]) + DigitValue(s[|s| - 1])
  }

  /** `str(n)` for a natural number. */
  function NatToString(n: nat): (r: string)
    ensures r != []
  {
    if n < 10 then [DigitChar(n)] else NatToString(n / 10) + [DigitChar(n % 10)]
  }

  /** `int()` reads `str(n)` back as `n`, and `str` writes no leading zero. */
  lemma {:induction false} NatToStringDigits(n: nat)
    ensures AllDigits(NatToString(n))
    ensures DecimalValue(NatToString(n)) == n
    ensures |NatToString(n)| > 1 ==> NatToString(n)[0] != '0'
  {
    if n >= 10 {
      var r := NatToString(n);
      NatToStringDigits(n / 10);
      assert r[..|r| - 1] == NatToString(n / 10);
    }
  }

  /** `str(i)`: a minus sign for negatives, then the digits of the magnitude. */
  function IntToString(i: int): (r: string)
    ensures r != []
    ensures (r[0] == '-') <==> i < 0
  {
    if i < 0 then "-" + NatToString(-i)
    else
      NatToStringDigits(i);
      NatToString(i)
  }

  /** `int()` reads `str(i)` back as `i`. */
  lemma {:induction false} IntToStringDigits(i: int)
    ensures var r := IntToString(i);
            && (i < 0 ==> AllDigits(r[1..]) && DecimalValue(r[1..]) == -i)
            && (0 <= i ==> AllDigits(r) && DecimalValue(r) == i)
  {
    if i < 0 {
      NegativeDigits(i);
    } else {
      NatToStringDigits(i);
    }
  }

  lemma {:induction false} NegativeDigits(i: int)
    requires i < 0
    ensures AllDigits(IntToString(i)[1..]) && DecimalValue(IntToString(i)[1..]) == -i
  {
    NatToStringDigits(-i);
    DropSign(IntToString(i), NatToString(-i), -i);
  }

  lemma {:induction false} DropSign(r: string, digits: string, n: nat)
    requires r == "-" + digits && AllDigits(digits) && DecimalValue(digits) == n
    ensures AllDigits(r[1..]) && DecimalValue(r[1..]) == n
  {
    assert r[1..] == digits;
  }

  // ---------------------------------------------------------------------------
  // str.lower() and os.path.basename()

  function LowerChar(c: char): char {
    if 'A' <= c <= 'Z' then (c as int + 32) as char else c
  }

  /** `s.lower()` with ASCII case mapping. */
  function Lower(s: string): (r: string)
    ensures |r| == |s|
    ensures forall i :: 0 <= i < |s| ==> r[i] == LowerChar(s[i])
  {
    seq(|s|, i requires 0 <= i < |s| => LowerChar(s[i]))
  }

  /** Start of the last path component: one past the last '/', or 0. */
  function LastComponentStart(p: string, i: nat): (r: nat)
    requires i <= |p|
    ensures r <= i
    ensures forall t :: r <= t < i ==> p[t] != '/'
    ensures 0 < r ==> p[r - 1] == '/'
  {
    if i == 0 || p[i - 1] == '/' then i else LastComponentStart(p, i - 1)
  }

  /** POSIX `os.path.basename`: what follows the last '/'. */
  function Basename(p: string): (r: string)
    ensures |r| <= |p| && r == p[|p| - |r|..]
    ensures forall t :: 0 <= t < |r| ==> r[t] != '/'
    ensures |r| < |p| ==> p[|p| - |r| - 1] == '/'
  {
    p[LastComponentStart(p, |p|)..]
  }
}
