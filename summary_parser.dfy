/** The summary parser of the runner: it reads pytest's free-text output and
    counts passed, failed, errored and skipped tests.

    A line takes part only if it contains " passed", " failed", " skipped" or
    " error". On such a line the regular expression `(\d+)\s+KEY` is searched
    (leftmost, non-overlapping, as `re.finditer` does) for each of the keys
    passed, failed, error, errors, skipped, and every number found is added to
    the key's category. Nothing ends a key, so "2 errors" is found by both
    `error` and `errors`. */
module SummaryParser {
  import opened Text

  datatype Category = Passed | Failed | Errors | Skipped

  datatype Counts = Counts(passed: int, failed: int, errors: int, skipped: int) {
    predicate NonNegative() {
      passed >= 0 && failed >= 0 && errors >= 0 && skipped >= 0
    }

    /** The total is always derived, never read from pytest's own output. */
    function Total(): int {
      passed + failed + errors + skipped
    }

    function Plus(other: Counts): Counts {
      Counts(passed + other.passed, failed + other.failed,
             errors + other.errors, skipped + other.skipped)
    }
  }

  lemma {:induction false} PlusZero(c: Counts)
    ensures c.Plus(Zero()) == c && Zero().Plus(c) == c
  {
  }

  lemma {:induction false} PlusAssoc(a: Counts, b: Counts, c: Counts)
    ensures a.Plus(b).Plus(c) == a.Plus(b.Plus(c))
  {
  }

  /** The counts of a text with no summary in it. */
  function Zero(): Counts {
    Counts(0, 0, 0, 0)
  }

  /** The counts that add `v` to category `c` only. */
  function Credit(c: Category, v: nat): (r: Counts)
    ensures r.NonNegative() && r.Total() == v
    ensures c == Passed || r.passed == 0
    ensures c == Failed || r.failed == 0
    ensures c == Errors || r.errors == 0
    ensures c == Skipped || r.skipped == 0
  {
    match c
    case Passed => Counts(v, 0, 0, 0)
    case Failed => Counts(0, v, 0, 0)
    case Errors => Counts(0, 0, v, 0)
    case Skipped => Counts(0, 0, 0, v)
  }

  /** The keys searched for, in the order the parser tries them, each with the
      category its numbers go to. */
  function PatternMap(): seq<(string, Category)> {
    [
      ("passed", Passed),
      ("failed", Failed),
      ("error", Errors),
      ("errors", Errors),
      ("skipped", Skipped)
    ]
  }

  /** Only lines with one of these phrases are searched at all. */
  predicate IsCandidate(line: string) {
    || Contains(line, " passed")
    || Contains(line, " failed")
    || Contains(line, " skipped")
    || Contains(line, " error")
  }

  // ---------------------------------------------------------------------------
  // The regular expression (\d+)\s+KEY

  /** Length of the run of digits that starts at `p`. */
  function DigitRun(s: string, p: nat): (n: nat)
    requires p <= |s|
    ensures p + n <= |s|
    decreases |s| - p
  {
    if p < |s| && IsDigit(s[p]) then 1 + DigitRun(s, p + 1) else 0
  }

  /** DigitRun stops at the first character that is not a digit. */
  lemma {:induction false} DigitRunSpan(s: string, p: nat)
    requires p <= |s|
    ensures forall t :: p <= t < p + DigitRun(s, p) ==> IsDigit(s[t])
    ensures p + DigitRun(s, p) < |s| ==> !IsDigit(s[p + DigitRun(s, p)])
    decreases |s| - p
  {
    if p < |s| && IsDigit(s[p]) {
      DigitRunSpan(s, p + 1);
    }
  }

  /** Length of the run of whitespace that starts at `p`. */
  function SpaceRun(s: string, p: nat): (n: nat)
    requires p <= |s|
    ensures p + n <= |s|
    decreases |s| - p
  {
    if p < |s| && IsSpace(s[p]) then 1 + SpaceRun(s, p + 1) else 0
  }

  /** SpaceRun stops at the first character that is not whitespace. */
  lemma {:induction false} SpaceRunSpan(s: string, p: nat)
    requires p <= |s|
    ensures forall t :: p <= t < p + SpaceRun(s, p) ==> IsSpace(s[t])
    ensures p + SpaceRun(s, p) < |s| ==> !IsSpace(s[p + SpaceRun(s, p)])
    decreases |s| - p
  {
    if p < |s| && IsSpace(s[p]) {
      SpaceRunSpan(s, p + 1);
    }
  }

  /** One match of the pattern: the number captured and where the match ends. */
  datatype Match = Match(value: nat, end: nat)

  /** The match of `(\d+)\s+KEY` that starts at `p`, if any. Both runs are taken
      greedily; since a key never starts with whitespace, giving back digits or
      whitespace could never let a shorter attempt succeed. */
  function MatchAt(line: string, key: string, p: nat): (m: Option<Match>)
    requires p <= |line|
    ensures m.Some? ==> p < m.value.end <= |line|
  {
    var d := DigitRun(line, p);
    if d == 0 then None
    else
      var w := SpaceRun(line, p + d);
      if w == 0 then None
      else
        var k := p + d + w;
        if k + |key| <= |line| && line[k..k + |key|] == key
        then DigitRunSpan(line, p); Some(Match(DecimalValue(line[p..p + d]), k + |key|))
        else None
  }

  /** The regular expression, read directly: digits on [p, i), whitespace on
      [i, j), and the key right after. */
  ghost predicate PatternSpan(line: string, key: string, p: int, i: int, j: int) {
    && 0 <= p
    && p < i < j && j + |key| <= |line|
    && (forall t :: p <= t < i ==> IsDigit(line[t]))
    && (forall t :: i <= t < j ==> IsSpace(line[t]))
    && line[j..j + |key|] == key
  }

  /** A split of the text at `p` into digits, whitespace and key is the one
      MatchAt finds: a greedy run cannot overshoot, since whitespace is no
      digit and the key does not start with whitespace. */
  lemma {:induction false} PatternIsMatchAt(line: string, key: string, p: nat, i: nat, j: nat)
    requires key != [] && !IsSpace(key[0])
    requires PatternSpan(line, key, p, i, j)
    ensures AllDigits(line[p..i])
    ensures MatchAt(line, key, p) == Some(Match(DecimalValue(line[p..i]), j + |key|))
  {
    assert line[j] == key[0] && !IsSpace(line[j]);
    assert IsSpace(line[i]) && !IsDigit(line[i]);
    var d := DigitRun(line, p);
    DigitRunSpan(line, p);
    assert d == i - p;
    var w := SpaceRun(line, i);
    SpaceRunSpan(line, i);
    assert w == j - i;
    assert line[p..p + d] == line[p..i];
  }

  /** MatchAt agrees with the regular expression, backtracking included: it
      finds a match exactly when some split into digits, whitespace and key
      exists, and then it captures the digits of that split. */
  lemma {:induction false} MatchAtIsPattern(line: string, key: string, p: nat)
    requires p <= |line|
    requires key != [] && !IsSpace(key[0])
    ensures MatchAt(line, key, p).Some? <==> exists i, j :: PatternSpan(line, key, p, i, j)
    ensures forall i, j :: PatternSpan(line, key, p, i, j) ==>
              AllDigits(line[p..i]) &&
              MatchAt(line, key, p) == Some(Match(DecimalValue(line[p..i]), j + |key|))
  {
    var d := DigitRun(line, p);
    if MatchAt(line, key, p).Some? {
      var w := SpaceRun(line, p + d);
      DigitRunSpan(line, p);
      SpaceRunSpan(line, p + d);
      assert PatternSpan(line, key, p, p + d, p + d + w);
    }
    forall i, j | PatternSpan(line, key, p, i, j)
      ensures AllDigits(line[p..i])
      ensures MatchAt(line, key, p) == Some(Match(DecimalValue(line[p..i]), j + |key|))
    {
      PatternIsMatchAt(line, key, p, i, j);
    }
  }

  // ---------------------------------------------------------------------------
  // re.finditer: leftmost matches, each search resuming where the last ended

  /** The numbers captured by the successive matches from position `p` on. */
  function FindIter(line: string, key: string, p: nat): seq<nat>
    requires p <= |line|
    decreases |line| - p
  {
    if p == |line| then []
    else match MatchAt(line, key, p)
      case Some(m) => [m.value] + FindIter(line, key, m.end)
      case None => FindIter(line, key, p + 1)
  }

  function Sum(xs: seq<nat>): nat {
    if xs == [] then 0 else xs[0] + Sum(xs[1..])
  }

  /** What one key contributes on one line: the sum of all its matches. */
  function KeyTotal(line: string, key: string): nat {
    Sum(FindIter(line, key, 0))
  }

  /** The search for one key over one line, as the inner `for match in
      re.finditer(...)` loop runs it: the numbers it adds up are those of
      FindIter. */
  method ScanKey(line: string, key: string) returns (total: nat)
    ensures total == Sum(FindIter(line, key, 0))
  {
    total := 0;
    var p := 0;
    while p < |line|
      invariant p <= |line|
      invariant total + Sum(FindIter(line, key, p)) == Sum(FindIter(line, key, 0))
      decreases |line| - p
    {
      var m := MatchAt(line, key, p);
      if m.Some? {
        total := total + m.value.value;
        p := m.value.end;
      } else {
        p := p + 1;
      }
    }
  }

  // ---------------------------------------------------------------------------
  // Per-line and whole-text counts

  /** The total each key of PatternMap finds on `line`, in PatternMap's order. */
  function KeyTotals(line: string): (totals: seq<nat>)
    ensures |totals| == |PatternMap()|
  {
    seq(|PatternMap()|, k requires 0 <= k < |PatternMap()| => KeyTotal(line, PatternMap()[k].0))
  }

  /** What the first `k` keys of PatternMap add, given each key's total. */
  function Tally(totals: seq<nat>, k: nat): (r: Counts)
    requires k <= |totals| <= |PatternMap()|
    ensures r.NonNegative()
  {
    if k == 0 then Zero()
    else Tally(totals, k - 1).Plus(Credit(PatternMap()[k - 1].1, totals[k - 1]))
  }

  /** What one line adds to the summary. */
  function LineCounts(line: string): (r: Counts)
    ensures r.NonNegative()
  {
    if IsCandidate(line) then Tally(KeyTotals(line), |PatternMap()|) else Zero()
  }

  /** Sum of what `f` gives each of `lines`, accumulated front to back. */
  function SumBy(f: string -> Counts, lines: seq<string>): Counts {
    if lines == [] then Zero()
    else SumBy(f, lines[..|lines| - 1]).Plus(f(lines[|lines| - 1]))
  }

  /** The counts the parser reports for a whole text: the sum of what each of
      its lines adds. */
  function Summary(text: string): (r: Counts)
    ensures r.NonNegative()
  {
    SumByNonNegative(LineCounts, SplitLines(text));
    SumBy(LineCounts, SplitLines(text))
  }

  lemma {:induction false} SumByNonNegative(f: string -> Counts, lines: seq<string>)
    requires forall line :: line in lines ==> f(line).NonNegative()
    ensures SumBy(f, lines).NonNegative()
    decreases |lines|
  {
    if lines != [] {
      SumByNonNegative(f, lines[..|lines| - 1]);
    }
  }

  // ---------------------------------------------------------------------------
  // Properties

  /** Tallying all five keys puts the totals of `error` and `errors`
      together in the error count and each other key in its own. */
  lemma {:induction false} TallyAll(totals: seq<nat>)
    requires |totals| == |PatternMap()|
    ensures Tally(totals, |PatternMap()|)
            == Counts(totals[0], totals[1], totals[2] + totals[3], totals[4])
  {
    assert Tally(totals, 1) == Counts(totals[0], 0, 0, 0);
    assert Tally(totals, 2) == Counts(totals[0], totals[1], 0, 0);
    assert Tally(totals, 3) == Counts(totals[0], totals[1], totals[2], 0);
    assert Tally(totals, 4) == Counts(totals[0], totals[1], totals[2] + totals[3], 0);
  }

  /** A candidate line adds the tally of its key totals. */
  lemma {:induction false} CandidateTally(line: string)
    requires IsCandidate(line)
    ensures LineCounts(line) == Counts(KeyTotals(line)[0], KeyTotals(line)[1],
                                       KeyTotals(line)[2] + KeyTotals(line)[3], KeyTotals(line)[4])
  {
    TallyAll(KeyTotals(line));
  }

  /** The entries of KeyTotals, key by key. */
  lemma {:induction false} KeyTotalsByKey(line: string)
    ensures KeyTotals(line)[0] == KeyTotal(line, "passed")
    ensures KeyTotals(line)[1] == KeyTotal(line, "failed")
    ensures KeyTotals(line)[2] == KeyTotal(line, "error")
    ensures KeyTotals(line)[3] == KeyTotal(line, "errors")
    ensures KeyTotals(line)[4] == KeyTotal(line, "skipped")
  {
  }

  /** On a candidate line each category gets the sum of its keys' matches;
      both `error` and `errors` feed the error count. */
  lemma {:induction false} CandidateLineCounts(line: string)
    requires IsCandidate(line)
    ensures LineCounts(line) == Counts(
              KeyTotal(line, "passed"),
              KeyTotal(line, "failed"),
              KeyTotal(line, "error") + KeyTotal(line, "errors"),
              KeyTotal(line, "skipped"))
  {
    CandidateTally(line);
    TotalsByKey(line, LineCounts(line));
  }

  /** CandidateLineCounts, for counts given in closed form. */
  lemma {:induction false} CandidateLineCountsAre(line: string, c: Counts)
    requires IsCandidate(line)
    requires c == Counts(
               KeyTotal(line, "passed"),
               KeyTotal(line, "failed"),
               KeyTotal(line, "error") + KeyTotal(line, "errors"),
               KeyTotal(line, "skipped"))
    ensures LineCounts(line) == c
  {
    CandidateLineCounts(line);
  }

  lemma {:induction false} TotalsByKey(line: string, c: Counts)
    requires c == Counts(KeyTotals(line)[0], KeyTotals(line)[1],
                         KeyTotals(line)[2] + KeyTotals(line)[3], KeyTotals(line)[4])
    ensures c == Counts(
              KeyTotal(line, "passed"),
              KeyTotal(line, "failed"),
              KeyTotal(line, "error") + KeyTotal(line, "errors"),
              KeyTotal(line, "skipped"))
  {
    KeyTotalsByKey(line);
  }

  lemma {:induction false} SumByAppend(f: string -> Counts, a: seq<string>, b: seq<string>)
    ensures SumBy(f, a + b) == SumBy(f, a).Plus(SumBy(f, b))
    decreases |b|
  {
    if b == [] {
      assert a + b == a;
      PlusZero(SumBy(f, a));
    } else {
      var b' := b[..|b| - 1];
      assert (a + b)[..|a + b| - 1] == a + b';
      assert (a + b)[|a + b| - 1] == b[|b| - 1];
      SumByAppend(f, a, b');
      PlusAssoc(SumBy(f, a), SumBy(f, b'), f(b[|b| - 1]));
    }
  }

  lemma {:induction false} SumByCons(f: string -> Counts, line: string, rest: seq<string>)
    ensures SumBy(f, [line] + rest) == f(line).Plus(SumBy(f, rest))
  {
    SumByAppend(f, [line], rest);
    assert [line][..0] == [];
    PlusZero(f(line));
  }

  /** Joining with "\n" leaves the first boundary of `out` where it was, and
      puts one right after `out` when it has none. */
  lemma {:induction false} FirstBreakOfJoin(out: string, err: string, i: nat)
    requires i <= |out|
    ensures FirstBreak(out + "\n" + err, i) == FirstBreak(out, i)
    decreases |out| - i
  {
    var s := out + "\n" + err;
    assert s[i] == if i < |out| then out[i] else '\n';
    if i < |out| && !IsLineBreak(out[i]) {
      FirstBreakOfJoin(out, err, i + 1);
    }
  }

  /** `out` without a boundary becomes the first line of the joined text. */
  lemma {:induction false} SplitJoinPlain(out: string, err: string)
    requires FirstBreak(out, 0) == |out|
    ensures SplitLines(out + "\n" + err) == [out] + SplitLines(err)
  {
    var s := out + "\n" + err;
    FirstBreakOfJoin(out, err, 0);
    assert s[..|out|] == out;
    assert s[|out| + BreakLength(s, |out|)..] == err;
  }

  /** A "\r" that ends `out` and the joining "\n" form a single boundary. */
  lemma {:induction false} SplitJoinReturn(out: string, err: string)
    requires 0 < |out| && FirstBreak(out, 0) == |out| - 1 && out[|out| - 1] == '\r'
    ensures SplitLines(out + "\n" + err) == [out[..|out| - 1]] + SplitLines(err)
    ensures SplitLines(out) == [out[..|out| - 1]]
  {
    var s := out + "\n" + err;
    var i := |out| - 1;
    FirstBreakOfJoin(out, err, 0);
    assert s[..i] == out[..i];
    assert s[i] == '\r' && s[i + 1] == '\n';
    assert s[i + 2..] == err;
    assert out[i + 1..] == [];
  }

  /** Any other first boundary of `out` is a boundary of the joined text too,
      of the same length. */
  lemma {:induction false} SplitJoinLater(out: string, err: string, i: nat, rest: string)
    requires i == FirstBreak(out, 0) && i < |out|
    requires !(i == |out| - 1 && out[|out| - 1] == '\r')
    requires rest == out[i + BreakLength(out, i)..]
    ensures SplitLines(out + "\n" + err) == [out[..i]] + SplitLines(rest + "\n" + err)
    ensures SplitLines(out) == [out[..i]] + SplitLines(rest)
  {
    var n := BreakLength(out, i);
    FirstBreakOfJoin(out, err, 0);
    JoinKeepsBreak(out, err, i);
    SplitAtFirstBreak(out + "\n" + err, i, n, out[..i], out[i + n..] + "\n" + err);
    SplitAtFirstBreak(out, i, n, out[..i], out[i + n..]);
  }

  /** A boundary of `out` that is not a final "\r" reads the same in the
      joined text: same line before it, same length, same text after it up
      to the join. */
  lemma {:induction false} JoinKeepsBreak(out: string, err: string, i: nat)
    requires i < |out| && IsLineBreak(out[i])
    requires !(i == |out| - 1 && out[|out| - 1] == '\r')
    ensures (out + "\n" + err)[..i] == out[..i]
    ensures BreakLength(out + "\n" + err, i) == BreakLength(out, i)
    ensures (out + "\n" + err)[i + BreakLength(out, i)..] == out[i + BreakLength(out, i)..] + "\n" + err
  {
    var s := out + "\n" + err;
    assert s[i] == out[i];
    assert i + 1 < |out| ==> s[i + 1] == out[i + 1];
  }

  /** A text with a boundary: its first line, then the lines after it. */
  lemma {:induction false} SplitAtFirstBreak(s: string, i: nat, n: nat, line: string, rest: string)
    requires i == FirstBreak(s, 0) && i < |s| && n == BreakLength(s, i)
    requires line == s[..i] && rest == s[i + n..]
    ensures SplitLines(s) == [line] + SplitLines(rest)
  {
  }

  /** For any per-line count that gives nothing to an empty line, the lines
      of `out + "\n" + err` add up to those of `out` plus those of `err`. */
  lemma {:induction false} SplitAtJoin(f: string -> Counts, out: string, err: string)
    requires f([]) == Zero()
    ensures SumBy(f, SplitLines(out + "\n" + err)) == SumBy(f, SplitLines(out)).Plus(SumBy(f, SplitLines(err)))
    decreases |out|
  {
    var i := FirstBreak(out, 0);
    if i == |out| {
      SplitAtJoinPlain(f, out, err);
    } else if i == |out| - 1 && out[i] == '\r' {
      SplitAtJoinReturn(f, out, err);
    } else {
      var rest := out[i + BreakLength(out, i)..];
      SplitJoinLater(out, err, i, rest);
      SplitAtJoin(f, rest, err);
      SplitAtJoinStep(f, out, err, out[..i], rest);
    }
  }

  /** One line more in front of both sides. */
  lemma {:induction false} SplitAtJoinStep(f: string -> Counts, out: string, err: string, line: string, rest: string)
    requires SplitLines(out + "\n" + err) == [line] + SplitLines(rest + "\n" + err)
    requires SplitLines(out) == [line] + SplitLines(rest)
    requires SumBy(f, SplitLines(rest + "\n" + err)) == SumBy(f, SplitLines(rest)).Plus(SumBy(f, SplitLines(err)))
    ensures SumBy(f, SplitLines(out + "\n" + err)) == SumBy(f, SplitLines(out)).Plus(SumBy(f, SplitLines(err)))
  {
    SumByCons(f, line, SplitLines(rest + "\n" + err));
    SumByCons(f, line, SplitLines(rest));
    PlusAssoc(f(line), SumBy(f, SplitLines(rest)), SumBy(f, SplitLines(err)));
  }

  lemma {:induction false} SplitAtJoinPlain(f: string -> Counts, out: string, err: string)
    requires f([]) == Zero() && FirstBreak(out, 0) == |out|
    ensures SumBy(f, SplitLines(out + "\n" + err)) == SumBy(f, SplitLines(out)).Plus(SumBy(f, SplitLines(err)))
  {
    SplitJoinPlain(out, err);
    SumByCons(f, out, SplitLines(err));
    if out == [] {
      PlusZero(SumBy(f, SplitLines(err)));
    } else {
      assert SplitLines(out) == [out] + [];
      SumByCons(f, out, []);
      PlusZero(f(out));
    }
  }

  lemma {:induction false} SplitAtJoinReturn(f: string -> Counts, out: string, err: string)
    requires 0 < |out| && FirstBreak(out, 0) == |out| - 1 && out[|out| - 1] == '\r'
    ensures SumBy(f, SplitLines(out + "\n" + err)) == SumBy(f, SplitLines(out)).Plus(SumBy(f, SplitLines(err)))
  {
    var line := out[..|out| - 1];
    SplitJoinReturn(out, err);
    SumByCons(f, line, SplitLines(err));
    assert SplitLines(out) == [line] + [];
    SumByCons(f, line, []);
    PlusZero(f(line));
  }

  lemma {:induction false} EmptyLineCountsNothing()
    ensures LineCounts([]) == Zero()
  {
    EmptyNotCandidate();
  }

  /** The empty line is no candidate. */
  lemma {:induction false} EmptyNotCandidate()
    ensures !IsCandidate([])
  {
    NothingInEmpty(" passed");
    NothingInEmpty(" failed");
    NothingInEmpty(" skipped");
    NothingInEmpty(" error");
  }

  lemma {:induction false} NothingInEmpty(pat: string)
    requires pat != []
    ensures !Contains([], pat)
  {
  }

  /** Parsing `stdout + "\n" + stderr`, the text the runner hands the parser,
      counts exactly what parsing the two streams separately would: the
      joining newline neither merges nor splits a summary line. */
  lemma {:induction false} JoinedStreamsAdd(out: string, err: string)
    ensures Summary(out + "\n" + err) == Summary(out).Plus(Summary(err))
  {
    EmptyLineCountsNothing();
    SplitAtJoin(LineCounts, out, err);
  }

  /** A text in which none of the four phrases occurs counts nothing, whatever
      numbers and keys it holds otherwise. */
  lemma {:induction false} NoPhraseNoCounts(text: string)
    requires !Contains(text, " passed") && !Contains(text, " failed")
    requires !Contains(text, " skipped") && !Contains(text, " error")
    ensures Summary(text) == Zero()
  {
    var lines := SplitLines(text);
    forall k | 0 <= k < |lines|
      ensures LineCounts(lines[k]) == Zero()
    {
      if IsCandidate(lines[k]) {
        if Contains(lines[k], " passed") {
          LinesAreInside(text, " passed", k);
        } else if Contains(lines[k], " failed") {
          LinesAreInside(text, " failed", k);
        } else if Contains(lines[k], " skipped") {
          LinesAreInside(text, " skipped", k);
        } else {
          LinesAreInside(text, " error", k);
        }
      }
    }
    AllZeroLines(LineCounts, lines);
  }

  lemma {:induction false} AllZeroLines(f: string -> Counts, lines: seq<string>)
    requires forall line :: line in lines ==> f(line) == Zero()
    ensures SumBy(f, lines) == Zero()
    decreases |lines|
  {
    if lines != [] {
      AllZeroLines(f, lines[..|lines| - 1]);
      PlusZero(Zero());
    }
  }
}
