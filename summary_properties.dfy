/** What the summary parser makes of the lines pytest prints: a count
    followed by one word, the joined streams, and the example from the
    parser's own documentation. */
module SummaryProperties {
  import opened Text
  import opened SummaryParser

  predicate NoDigit(s: string) {
    forall t :: 0 <= t < |s| ==> !IsDigit(s[t])
  }

  /** No digit in `line` on [p, q). */
  predicate NoDigitIn(line: string, p: nat, q: nat) {
    q <= |line| && forall t :: p <= t < q ==> !IsDigit(line[t])
  }

  /** Inside a run of digits every suffix of the run ends where the run does. */
  lemma {:induction false} DigitRunFrom(line: string, p: nat, t: nat)
    requires p <= |line| && p <= t <= p + DigitRun(line, p)
    ensures t + DigitRun(line, t) == p + DigitRun(line, p)
    decreases t - p
  {
    if p < t {
      assert IsDigit(line[p]);
      DigitRunFrom(line, p + 1, t);
    }
  }

  /** Positions at which no match starts are passed over one by one. */
  lemma {:induction false} FindIterSkip(line: string, key: string, p: nat, q: nat)
    requires p <= q <= |line|
    requires forall t :: p <= t < q ==> MatchAt(line, key, t).None?
    ensures FindIter(line, key, p) == FindIter(line, key, q)
    decreases q - p
  {
    if p < q {
      FindIterSkip(line, key, p + 1, q);
    }
  }

  /** No match starts at a character that is not a digit. */
  lemma {:induction false} FindIterNoDigits(line: string, key: string, p: nat, q: nat)
    requires p <= q <= |line|
    requires forall t :: p <= t < q ==> !IsDigit(line[t])
    ensures FindIter(line, key, p) == FindIter(line, key, q)
  {
    forall t | p <= t < q
      ensures MatchAt(line, key, t).None?
    {
    }
    FindIterSkip(line, key, p, q);
  }

  /** A run of digits that gives no match at its start gives none inside it
      either: every suffix of the run is followed by the same text. */
  lemma {:induction false} MatchAtInRun(line: string, key: string, p: nat, t: nat)
    requires p <= |line| && p <= t < p + DigitRun(line, p)
    requires MatchAt(line, key, p).None?
    ensures MatchAt(line, key, t).None?
  {
    DigitRunFrom(line, p, t);
  }

  /** A run of digits with no match at its start is skipped as a whole. */
  lemma {:induction false} FindIterPastRun(line: string, key: string, p: nat)
    requires p <= |line|
    requires MatchAt(line, key, p).None?
    ensures FindIter(line, key, p) == FindIter(line, key, p + DigitRun(line, p))
  {
    forall t | p <= t < p + DigitRun(line, p)
      ensures MatchAt(line, key, t).None?
    {
      MatchAtInRun(line, key, p, t);
    }
    FindIterSkip(line, key, p, p + DigitRun(line, p));
  }

  /** DigitRun measures exactly a run of digits that is followed by a
      non-digit or by the end of the line. */
  lemma {:induction false} DigitRunExact(line: string, p: nat, n: nat)
    requires p + n <= |line|
    requires forall t :: p <= t < p + n ==> IsDigit(line[t])
    requires p + n == |line| || !IsDigit(line[p + n])
    ensures DigitRun(line, p) == n
    decreases n
  {
    if n > 0 {
      DigitRunExact(line, p + 1, n - 1);
    }
  }

  /** The digits of a clause are a whole run of digits. */
  lemma {:induction false} ClauseDigits(line: string, p: nat, digits: string)
    requires digits != [] && AllDigits(digits)
    requires p + |digits| < |line| && line[p..p + |digits|] == digits
    requires line[p + |digits|] == ' '
    ensures DigitRun(line, p) == |digits|
    ensures SpaceRun(line, p + |digits|) >= 1
  {
    forall t | p <= t < p + |digits|
      ensures IsDigit(line[t])
    {
      assert line[t] == digits[t - p];
    }
    DigitRunExact(line, p, |digits|);
  }

  /** A number, one space and `key`: the pattern matches and captures the number. */
  lemma {:induction false} ClauseMatch(line: string, key: string, p: nat, digits: string)
    requires key != [] && !IsSpace(key[0])
    requires digits != [] && AllDigits(digits)
    requires p + |digits| < |line| && line[p..p + |digits|] == digits
    requires line[p + |digits|] == ' ' && OccursAt(line, key, p + |digits| + 1)
    ensures MatchAt(line, key, p) == Some(Match(DecimalValue(digits), p + |digits| + 1 + |key|))
  {
    ClauseRuns(line, key, p, digits);
    MatchAtRuns(line, key, p, digits, 1, p + |digits| + 1 + |key|);
  }

  /** In such a clause the number is the whole run of digits and the space
      the whole run of whitespace. */
  lemma {:induction false} ClauseRuns(line: string, key: string, p: nat, digits: string)
    requires key != [] && !IsSpace(key[0])
    requires digits != [] && AllDigits(digits)
    requires p + |digits| < |line| && line[p..p + |digits|] == digits
    requires line[p + |digits|] == ' ' && OccursAt(line, key, p + |digits| + 1)
    ensures DigitRun(line, p) == |digits| && SpaceRun(line, p + |digits|) == 1
  {
    ClauseDigits(line, p, digits);
    var i := p + |digits|;
    assert line[i + 1] == line[i + 1..i + 1 + |key|][0];
    assert SpaceRun(line, i + 1) == 0;
  }

  /** MatchAt read off the lengths of the runs of digits and whitespace. */
  lemma {:induction false} MatchAtRuns(line: string, key: string, p: nat, digits: string, w: nat, e: nat)
    requires digits != [] && AllDigits(digits)
    requires p + |digits| <= |line| && line[p..p + |digits|] == digits
    requires |digits| == DigitRun(line, p)
    requires w == SpaceRun(line, p + |digits|) && 0 < w && OccursAt(line, key, p + |digits| + w)
    requires e == p + |digits| + w + |key|
    ensures MatchAt(line, key, p) == Some(Match(DecimalValue(digits), e))
  {
    MatchAtLengths(line, key, p, |digits|, w);
  }

  lemma {:induction false} MatchAtLengths(line: string, key: string, p: nat, d: nat, w: nat)
    requires p <= |line| && d == DigitRun(line, p) && 0 < d
    requires w == SpaceRun(line, p + d) && 0 < w && OccursAt(line, key, p + d + w)
    requires AllDigits(line[p..p + d])
    ensures MatchAt(line, key, p) == Some(Match(DecimalValue(line[p..p + d]), p + d + w + |key|))
  {
  }

  /** A number, one space and a word that starts with no whitespace and is
      not followed by `key`: the pattern does not match there. */
  lemma {:induction false} ClauseMiss(line: string, key: string, p: nat, digits: string)
    requires digits != [] && AllDigits(digits)
    requires p + |digits| + 1 < |line| && line[p..p + |digits|] == digits
    requires line[p + |digits|] == ' ' && !IsSpace(line[p + |digits| + 1])
    requires !OccursAt(line, key, p + |digits| + 1)
    ensures MatchAt(line, key, p).None?
  {
    ClauseDigits(line, p, digits);
    var i := p + |digits|;
    assert SpaceRun(line, i + 1) == 0;
  }

  /** The line pytest prints for one outcome: a number, a space, a word, and
      whatever follows as long as it holds no digit. */
  function ClauseLine(n: nat, word: string, tail: string): string {
    NatToString(n) + " " + word + tail
  }

  lemma {:induction false} ClauseLineParts(n: nat, word: string, tail: string)
    requires word != [] && NoDigit(word + tail)
    ensures var line := ClauseLine(n, word, tail);
            var d := |NatToString(n)|;
            && d + 1 < |line| && line[..d] == NatToString(n) && line[d] == ' '
            && line[d + 1] == word[0]
            && (forall t :: d <= t < |line| ==> !IsDigit(line[t]))
  {
    var line := ClauseLine(n, word, tail);
    var d := |NatToString(n)|;
    forall t | d < t < |line|
      ensures !IsDigit(line[t])
    {
      assert line[t] == (word + tail)[t - d - 1];
    }
  }

  /** On such a line, the total for `key` is the number when `key` follows
      the space and nothing otherwise. */
  lemma {:induction false} ClauseKeyTotal(n: nat, word: string, tail: string, key: string)
    requires key != [] && !IsSpace(key[0])
    requires word != [] && !IsSpace(word[0]) && NoDigit(word + tail)
    ensures var line := ClauseLine(n, word, tail);
            KeyTotal(line, key) == if OccursAt(line, key, |NatToString(n)| + 1) then n else 0
  {
    var line := ClauseLine(n, word, tail);
    ClauseLineParts(n, word, tail);
    NatToStringDigits(n);
    if OccursAt(line, key, |NatToString(n)| + 1) {
      ClauseKeyHit(line, key, NatToString(n));
    } else {
      ClauseKeyMiss(line, key, NatToString(n));
    }
  }

  lemma {:induction false} ClauseKeyHit(line: string, key: string, digits: string)
    requires key != [] && !IsSpace(key[0])
    requires digits != [] && AllDigits(digits)
    requires |digits| + 1 < |line| && line[..|digits|] == digits && line[|digits|] == ' '
    requires forall t :: |digits| <= t < |line| ==> !IsDigit(line[t])
    requires OccursAt(line, key, |digits| + 1)
    ensures KeyTotal(line, key) == DecimalValue(digits)
  {
    var d := |digits|;
    var end := d + 1 + |key|;
    assert line[0..d] == digits;
    ClauseMatch(line, key, 0, digits);
    FindIterNoDigits(line, key, end, |line|);
    OnlyMatch(line, key, 0, DecimalValue(digits), end);
  }

  /** A match followed by nothing more to find sums to its own number. */
  lemma {:induction false} OnlyMatch(line: string, key: string, p: nat, v: nat, end: nat)
    requires p < |line| && MatchAt(line, key, p) == Some(Match(v, end))
    requires FindIter(line, key, end) == []
    ensures Sum(FindIter(line, key, p)) == v
  {
    assert FindIter(line, key, p) == [v];
  }

  lemma {:induction false} ClauseKeyMiss(line: string, key: string, digits: string)
    requires digits != [] && AllDigits(digits)
    requires |digits| + 1 < |line| && line[..|digits|] == digits && line[|digits|] == ' '
    requires !IsSpace(line[|digits| + 1])
    requires forall t :: |digits| <= t < |line| ==> !IsDigit(line[t])
    requires !OccursAt(line, key, |digits| + 1)
    ensures KeyTotal(line, key) == 0
  {
    var d := |digits|;
    assert line[0..d] == digits;
    ClauseMiss(line, key, 0, digits);
    ClauseDigits(line, 0, digits);
    FindIterPastRun(line, key, 0);
    FindIterNoDigits(line, key, d, |line|);
  }

  /** A text without line boundaries is one line, and that line is all it counts. */
  lemma {:induction false} FirstBreakOfPlainText(s: string, i: nat)
    requires i <= |s| && NoLineBreak(s)
    ensures FirstBreak(s, i) == |s|
    decreases |s| - i
  {
    if i < |s| {
      FirstBreakOfPlainText(s, i + 1);
    }
  }

  lemma {:induction false} SummaryOfOneLine(line: string)
    requires line != [] && NoLineBreak(line)
    ensures Summary(line) == LineCounts(line)
  {
    FirstBreakOfPlainText(line, 0);
    assert SplitLines(line) == [line];
    SumByCons(LineCounts, line, []);
    PlusZero(LineCounts(line));
  }

  /** A candidate line alone: the text counts what its keys add up to. */
  lemma {:induction false} OneCandidateLine(line: string, c: Counts)
    requires NoLineBreak(line) && IsCandidate(line)
    requires c == Counts(
               KeyTotal(line, "passed"),
               KeyTotal(line, "failed"),
               KeyTotal(line, "error") + KeyTotal(line, "errors"),
               KeyTotal(line, "skipped"))
    ensures Summary(line) == c
  {
    EmptyNotCandidate();
    SummaryOfOneLine(line);
    CandidateLineCountsAre(line, c);
  }

  /** The number counts for `key` when the words after the space begin with `key`. */
  function ClauseValue(n: nat, rest: string, key: string): nat {
    if StartsWith(rest, key) then n else 0
  }

  lemma {:induction false} ClauseValueHit(n: nat, word: string, tail: string, key: string)
    requires StartsWith(word, key)
    ensures ClauseValue(n, word + tail, key) == n
  {
    assert (word + tail)[..|key|] == word[..|key|];
  }

  lemma {:induction false} ClauseValueMiss(n: nat, rest: string, key: string)
    requires key != [] && rest != [] && rest[0] != key[0]
    ensures ClauseValue(n, rest, key) == 0
  {
  }

  lemma {:induction false} ClauseKeyValue(n: nat, word: string, tail: string, key: string)
    requires key != [] && !IsSpace(key[0])
    requires word != [] && !IsSpace(word[0]) && NoDigit(word + tail)
    ensures KeyTotal(ClauseLine(n, word, tail), key) == ClauseValue(n, word + tail, key)
  {
    var line := ClauseLine(n, word, tail);
    var d := |NatToString(n)|;
    ClauseKeyTotal(n, word, tail, key);
    assert line[d + 1..] == word + tail;
    if OccursAt(line, key, d + 1) {
      assert (word + tail)[..|key|] == line[d + 1..d + 1 + |key|];
    }
  }

  lemma {:induction false} ClauseLineNoBreak(n: nat, word: string, tail: string)
    requires NoLineBreak(word + tail)
    ensures NoLineBreak(ClauseLine(n, word, tail))
  {
    var line := ClauseLine(n, word, tail);
    var d := |NatToString(n)|;
    NatToStringDigits(n);
    forall t | 0 <= t < |line|
      ensures !IsLineBreak(line[t])
    {
      if t < d {
        assert line[t] == NatToString(n)[t];
      } else if t > d {
        assert line[t] == (word + tail)[t - d - 1];
      }
    }
  }

  /** What a clause line counts, given the words after its number. */
  function ClauseCounts(n: nat, rest: string): Counts {
    Counts(
      ClauseValue(n, rest, "passed"),
      ClauseValue(n, rest, "failed"),
      ClauseValue(n, rest, "error") + ClauseValue(n, rest, "errors"),
      ClauseValue(n, rest, "skipped"))
  }

  lemma {:induction false} ClauseTotals(line: string, n: nat, word: string, tail: string)
    requires line == ClauseLine(n, word, tail)
    requires word != [] && !IsSpace(word[0]) && NoDigit(word + tail)
    ensures ClauseCounts(n, word + tail) == Counts(
              KeyTotal(line, "passed"),
              KeyTotal(line, "failed"),
              KeyTotal(line, "error") + KeyTotal(line, "errors"),
              KeyTotal(line, "skipped"))
  {
    ClauseKeyValue(n, word, tail, "passed");
    ClauseKeyValue(n, word, tail, "failed");
    ClauseKeyValue(n, word, tail, "error");
    ClauseKeyValue(n, word, tail, "errors");
    ClauseKeyValue(n, word, tail, "skipped");
  }

  /** A clause line on which a phrase is found counts each category by the
      keys the words after the number begin with. */
  lemma {:induction false} ClauseSummary(n: nat, word: string, tail: string)
    requires word != [] && !IsSpace(word[0]) && NoDigit(word + tail)
    requires NoLineBreak(word + tail)
    requires IsCandidate(ClauseLine(n, word, tail))
    ensures Summary(ClauseLine(n, word, tail)) == ClauseCounts(n, word + tail)
  {
    ClauseLineIsOneLine(n, word, tail);
    ClauseLineCounts(n, word, tail);
  }

  lemma {:induction false} ClauseLineIsOneLine(n: nat, word: string, tail: string)
    requires NoLineBreak(word + tail)
    ensures Summary(ClauseLine(n, word, tail)) == LineCounts(ClauseLine(n, word, tail))
  {
    ClauseLineNoBreak(n, word, tail);
    SummaryOfOneLine(ClauseLine(n, word, tail));
  }

  lemma {:induction false} ClauseLineCounts(n: nat, word: string, tail: string)
    requires word != [] && !IsSpace(word[0]) && NoDigit(word + tail)
    requires IsCandidate(ClauseLine(n, word, tail))
    ensures LineCounts(ClauseLine(n, word, tail)) == ClauseCounts(n, word + tail)
  {
    var line := ClauseLine(n, word, tail);
    ClauseTotals(line, n, word, tail);
    CandidateLineCountsAre(line, ClauseCounts(n, word + tail));
  }

  /** The words that follow the number on a clause line, and what they add up to. */
  lemma {:induction false} WordsAndTail(word: string, tail: string)
    requires NoDigit(word) && NoLineBreak(word)
    requires NoDigit(tail) && NoLineBreak(tail)
    ensures NoDigit(word + tail) && NoLineBreak(word + tail)
  {
    forall t | 0 <= t < |word + tail|
      ensures !IsDigit((word + tail)[t]) && !IsLineBreak((word + tail)[t])
    {
      if t >= |word| {
        assert (word + tail)[t] == tail[t - |word|];
      }
    }
  }

  /** A clause line whose word starts with one of the four phrases (after
      the space) is searched. */
  lemma {:induction false} ClauseIsCandidate(n: nat, word: string, tail: string, phrase: string)
    requires phrase in {" passed", " failed", " skipped", " error"}
    requires StartsWith(" " + word, phrase)
    ensures IsCandidate(ClauseLine(n, word, tail))
  {
    var line := ClauseLine(n, word, tail);
    var d := |NatToString(n)|;
    assert line[d..d + |phrase|] == (" " + word)[..|phrase|];
    assert OccursAt(line, phrase, d);
  }

  /** ClauseSummary, for counts given in closed form. */
  lemma {:induction false} ClauseSummaryIs(n: nat, word: string, tail: string, c: Counts)
    requires word != [] && !IsSpace(word[0]) && NoDigit(word + tail)
    requires NoLineBreak(word + tail)
    requires IsCandidate(ClauseLine(n, word, tail))
    requires c == ClauseCounts(n, word + tail)
    ensures Summary(ClauseLine(n, word, tail)) == c
  {
    ClauseSummary(n, word, tail);
  }

  /** A line "N word..." whose word starts with a phrase counts what
      ClauseCounts says. */
  lemma {:induction false} WordLine(n: nat, spaced: string, word: string, tail: string, phrase: string, c: Counts)
    requires spaced == " " + word
    requires word != [] && !IsSpace(word[0]) && NoDigit(word) && NoLineBreak(word)
    requires NoDigit(tail) && NoLineBreak(tail)
    requires phrase in {" passed", " failed", " skipped", " error"}
    requires StartsWith(spaced, phrase)
    requires c == ClauseCounts(n, word + tail)
    ensures Summary(NatToString(n) + spaced + tail) == c
  {
    assert NatToString(n) + spaced + tail == ClauseLine(n, word, tail);
    WordsAndTail(word, tail);
    ClauseIsCandidate(n, word, tail, phrase);
    ClauseSummaryIs(n, word, tail, c);
  }

  /** "N errors" counts 2N errors: both the `error` and the `errors` keys
      match it, since nothing has to follow a key. */
  lemma {:induction false} ErrorsClauseCountsTwice(n: nat, tail: string)
    requires NoDigit(tail) && NoLineBreak(tail)
    ensures Summary(NatToString(n) + " errors" + tail) == Counts(0, 0, 2 * n, 0)
  {
    assert ClauseCounts(n, "errors" + tail) == Counts(0, 0, 2 * n, 0) by {
      var rest := "errors" + tail;
      ClauseValueHit(n, "errors", tail, "error");
      ClauseValueHit(n, "errors", tail, "errors");
      ClauseValueMiss(n, rest, "passed");
      ClauseValueMiss(n, rest, "failed");
      ClauseValueMiss(n, rest, "skipped");
    }
    WordLine(n, " errors", "errors", tail, " error", Counts(0, 0, 2 * n, 0));
  }

  /** "N error" counts N errors, as long as no "s" follows. */
  lemma {:induction false} ErrorClauseCountsOnce(n: nat, tail: string)
    requires NoDigit(tail) && NoLineBreak(tail)
    requires tail == [] || tail[0] != 's'
    ensures Summary(NatToString(n) + " error" + tail) == Counts(0, 0, n, 0)
  {
    assert ClauseCounts(n, "error" + tail) == Counts(0, 0, n, 0) by {
      var rest := "error" + tail;
      ClauseValueHit(n, "error", tail, "error");
      assert |rest| >= 6 ==> rest[5] != 's';
      ClauseValueMiss(n, rest, "passed");
      ClauseValueMiss(n, rest, "failed");
      ClauseValueMiss(n, rest, "skipped");
    }
    WordLine(n, " error", "error", tail, " error", Counts(0, 0, n, 0));
  }

  /** "N passed" counts N passed tests. */
  lemma {:induction false} PassedClauseCounts(n: nat, tail: string)
    requires NoDigit(tail) && NoLineBreak(tail)
    ensures Summary(NatToString(n) + " passed" + tail) == Counts(n, 0, 0, 0)
  {
    assert ClauseCounts(n, "passed" + tail) == Counts(n, 0, 0, 0) by {
      var rest := "passed" + tail;
      ClauseValueHit(n, "passed", tail, "passed");
      ClauseValueMiss(n, rest, "failed");
      ClauseValueMiss(n, rest, "error");
      ClauseValueMiss(n, rest, "errors");
      ClauseValueMiss(n, rest, "skipped");
    }
    WordLine(n, " passed", "passed", tail, " passed", Counts(n, 0, 0, 0));
  }

  /** "N failed" counts N failed tests. */
  lemma {:induction false} FailedClauseCounts(n: nat, tail: string)
    requires NoDigit(tail) && NoLineBreak(tail)
    ensures Summary(NatToString(n) + " failed" + tail) == Counts(0, n, 0, 0)
  {
    assert ClauseCounts(n, "failed" + tail) == Counts(0, n, 0, 0) by {
      var rest := "failed" + tail;
      ClauseValueHit(n, "failed", tail, "failed");
      ClauseValueMiss(n, rest, "passed");
      ClauseValueMiss(n, rest, "error");
      ClauseValueMiss(n, rest, "errors");
      ClauseValueMiss(n, rest, "skipped");
    }
    WordLine(n, " failed", "failed", tail, " failed", Counts(0, n, 0, 0));
  }

  /** "N skipped" counts N skipped tests. */
  lemma {:induction false} SkippedClauseCounts(n: nat, tail: string)
    requires NoDigit(tail) && NoLineBreak(tail)
    ensures Summary(NatToString(n) + " skipped" + tail) == Counts(0, 0, 0, n)
  {
    assert ClauseCounts(n, "skipped" + tail) == Counts(0, 0, 0, n) by {
      var rest := "skipped" + tail;
      ClauseValueHit(n, "skipped", tail, "skipped");
      ClauseValueMiss(n, rest, "passed");
      ClauseValueMiss(n, rest, "failed");
      ClauseValueMiss(n, rest, "error");
      ClauseValueMiss(n, rest, "errors");
    }
    WordLine(n, " skipped", "skipped", tail, " skipped", Counts(0, 0, 0, n));
  }
}
