/** The summary line pytest prints at the end of a run, such as
    "3 passed, 1 failed, 2 skipped in 0.12s": clauses "N word" joined by
    ", " and closed by " in " and the duration. The parser counts each clause
    under the keys its word starts with, and nothing in the duration. */
module SummaryLine {
  import opened Text
  import opened SummaryParser
  import opened SummaryProperties

  /** One clause: a count and the words up to the next count, separator
      included ("passed, ", "skipped in "). */
  datatype Clause = Clause(count: nat, word: string)

  function Render(c: Clause): string {
    NatToString(c.count) + " " + c.word
  }

  function RenderAll(cs: seq<Clause>): string {
    if cs == [] then [] else Render(cs[0]) + RenderAll(cs[1..])
  }

  /** What the clauses add to one key, and to the four categories. */
  function KeySum(cs: seq<Clause>, key: string): nat {
    if cs == [] then 0 else ClauseValue(cs[0].count, cs[0].word, key) + KeySum(cs[1..], key)
  }

  function ClausesCounts(cs: seq<Clause>): Counts {
    if cs == [] then Zero() else ClauseCounts(cs[0].count, cs[0].word).Plus(ClausesCounts(cs[1..]))
  }

  /** A key never holds a space, so a key that follows a clause's number
      ends inside the clause's words. */
  predicate Spaceless(key: string) {
    forall t :: 0 <= t < |key| ==> key[t] != ' '
  }

  /** A count could end at `t`: a digit directly followed by whitespace. */
  predicate CountAt(line: string, t: int) {
    0 <= t && t + 1 < |line| && IsDigit(line[t]) && IsSpace(line[t + 1])
  }

  /** No digit in the text from `p` on is directly followed by whitespace:
      no count can be read there. */
  predicate NoCountFrom(line: string, p: nat) {
    forall t :: p <= t < |line| ==> !CountAt(line, t)
  }

  lemma {:induction false} SumCons(v: nat, xs: seq<nat>)
    ensures Sum([v] + xs) == v + Sum(xs)
  {
    assert ([v] + xs)[1..] == xs;
  }

  lemma {:induction false} SliceParts(line: string, p: nat, a: string, b: string)
    requires p + |a| + |b| <= |line| && line[p..p + |a| + |b|] == a + b
    ensures line[p..p + |a|] == a && line[p + |a|..p + |a| + |b|] == b
  {
    assert line[p..p + |a|] == (a + b)[..|a|];
    assert line[p + |a|..p + |a| + |b|] == (a + b)[|a|..];
  }

  lemma {:induction false} NoDigitSlice(line: string, p: nat, q: nat)
    requires p <= q <= |line| && NoDigit(line[p..q])
    ensures forall t :: p <= t < q ==> !IsDigit(line[t])
  {
    forall t | p <= t < q
      ensures !IsDigit(line[t])
    {
      assert line[t] == line[p..q][t - p];
    }
  }

  lemma {:induction false} FindIterAtMatch(line: string, key: string, p: nat, v: nat, end: nat)
    requires p < |line| && MatchAt(line, key, p) == Some(Match(v, end))
    ensures FindIter(line, key, p) == [v] + FindIter(line, key, end)
  {
  }

  /** A key that the words of a clause do not start with is not found after
      its number either: it would have to run past the words' closing space. */
  lemma {:induction false} KeyNotAfter(line: string, key: string, k: nat, word: string)
    requires Spaceless(key) && word != [] && word[|word| - 1] == ' ' && !StartsWith(word, key)
    requires k + |word| <= |line| && line[k..k + |word|] == word
    ensures !OccursAt(line, key, k)
  {
    if |key| <= |word| {
      assert word[..|key|] == line[k..k + |key|];
    } else {
      assert line[k + |word| - 1] == word[|word| - 1] == ' ';
    }
  }

  /** Words that can follow a clause's number. */
  predicate WordOK(word: string) {
    && word != [] && !IsSpace(word[0]) && word[|word| - 1] == ' '
    && NoDigit(word) && NoLineBreak(word)
  }

  /** Where the parts of a clause stand once it is written at `p`, up to
      `end`. */
  lemma {:induction false} ClauseLayout(line: string, p: nat, digits: string, word: string, end: nat)
    requires digits != [] && AllDigits(digits) && WordOK(word)
    requires end == p + |digits| + 1 + |word| <= |line|
    requires line[p..end] == digits + " " + word
    ensures line[p..p + |digits|] == digits
    ensures line[p + |digits|] == ' ' && line[p + |digits| + 1] == word[0]
    ensures line[p + |digits| + 1..end] == word
    ensures NoDigitIn(line, p + |digits|, end)
  {
    var d := |digits|;
    SliceParts(line, p, digits + " ", word);
    SliceParts(line, p, digits, " ");
    assert line[p + d] == line[p + d..p + d + 1][0];
    assert line[p + d + 1] == line[p + d + 1..end][0];
    NoDigitSlice(line, p + d + 1, end);
  }

  lemma {:induction false} ClauseHit(line: string, key: string, p: nat, digits: string, word: string, end: nat)
    requires key != [] && !IsSpace(key[0])
    requires digits != [] && AllDigits(digits) && WordOK(word) && StartsWith(word, key)
    requires end == p + |digits| + 1 + |word| <= |line|
    requires line[p..end] == digits + " " + word
    ensures Sum(FindIter(line, key, p)) == DecimalValue(digits) + Sum(FindIter(line, key, end))
  {
    ClauseHitFinds(line, key, p, digits, word, end);
    SumCons(DecimalValue(digits), FindIter(line, key, end));
  }

  /** The clause's number is the first value found from `p`, and the search
      then goes on after the clause. */
  lemma {:induction false} ClauseHitFinds(line: string, key: string, p: nat, digits: string, word: string, end: nat)
    requires key != [] && !IsSpace(key[0])
    requires digits != [] && AllDigits(digits) && WordOK(word) && StartsWith(word, key)
    requires end == p + |digits| + 1 + |word| <= |line|
    requires line[p..end] == digits + " " + word
    ensures FindIter(line, key, p) == [DecimalValue(digits)] + FindIter(line, key, end)
  {
    ClauseHitMatch(line, key, p, digits, word, end);
    ClauseHitRest(line, key, p, digits, word, end);
    FindIterOneMatch(line, key, p, DecimalValue(digits), p + |digits| + 1 + |key|, end);
  }

  /** The match at the clause's number ends inside its words. */
  lemma {:induction false} ClauseHitMatch(line: string, key: string, p: nat, digits: string, word: string, end: nat)
    requires key != [] && !IsSpace(key[0])
    requires digits != [] && AllDigits(digits) && WordOK(word) && StartsWith(word, key)
    requires end == p + |digits| + 1 + |word| <= |line|
    requires line[p..end] == digits + " " + word
    ensures p < |line|
    ensures MatchAt(line, key, p) == Some(Match(DecimalValue(digits), p + |digits| + 1 + |key|))
  {
    assert line[p..p + |digits|] == digits && line[p + |digits|] == ' '
        && OccursAt(line, key, p + |digits| + 1) by {
      ClauseLayout(line, p, digits, word, end);
      WordStartsWithKey(line, p + |digits| + 1, word, key, end);
    }
    ClauseMatch(line, key, p, digits);
  }

  /** After the key, the rest of the clause's words hold no digit. */
  lemma {:induction false} ClauseHitRest(line: string, key: string, p: nat, digits: string, word: string, end: nat)
    requires digits != [] && AllDigits(digits) && WordOK(word) && StartsWith(word, key)
    requires end == p + |digits| + 1 + |word| <= |line|
    requires line[p..end] == digits + " " + word
    ensures p + |digits| + 1 + |key| <= end
    ensures NoDigitIn(line, p + |digits| + 1 + |key|, end)
  {
    ClauseLayout(line, p, digits, word, end);
  }

  lemma {:induction false} WordStartsWithKey(line: string, k: nat, word: string, key: string, end: nat)
    requires end == k + |word| <= |line| && line[k..end] == word && StartsWith(word, key)
    ensures OccursAt(line, key, k)
  {
    assert line[k..k + |key|] == word[..|key|];
  }

  /** A match at `p` followed by a stretch without digits: its value comes
      first, and the search resumes after the stretch. */
  lemma {:induction false} FindIterOneMatch(line: string, key: string, p: nat, v: nat, mid: nat, end: nat)
    requires p < |line| && MatchAt(line, key, p) == Some(Match(v, mid))
    requires mid <= end && NoDigitIn(line, mid, end)
    ensures FindIter(line, key, p) == [v] + FindIter(line, key, end)
  {
    FindIterNoDigits(line, key, mid, end);
    FindIterAtMatch(line, key, p, v, mid);
  }

  lemma {:induction false} ClauseNoHit(line: string, key: string, p: nat, digits: string, word: string, end: nat)
    requires Spaceless(key)
    requires digits != [] && AllDigits(digits) && WordOK(word) && !StartsWith(word, key)
    requires end == p + |digits| + 1 + |word| <= |line|
    requires line[p..end] == digits + " " + word
    ensures Sum(FindIter(line, key, p)) == Sum(FindIter(line, key, end))
  {
    ClauseNoHitMiss(line, key, p, digits, word, end);
    ClauseNoHitRest(line, p, digits, word, end);
    FindIterMissThenSkip(line, key, p, p + DigitRun(line, p), end);
  }

  /** No match starts at the clause's number. */
  lemma {:induction false} ClauseNoHitMiss(line: string, key: string, p: nat, digits: string, word: string, end: nat)
    requires Spaceless(key)
    requires digits != [] && AllDigits(digits) && WordOK(word) && !StartsWith(word, key)
    requires end == p + |digits| + 1 + |word| <= |line|
    requires line[p..end] == digits + " " + word
    ensures MatchAt(line, key, p).None?
  {
    ClauseLayout(line, p, digits, word, end);
    KeyNotAfter(line, key, p + |digits| + 1, word);
    ClauseMiss(line, key, p, digits);
  }

  /** The clause's number is a whole run of digits, and after it the clause
      holds no digit. */
  lemma {:induction false} ClauseNoHitRest(line: string, p: nat, digits: string, word: string, end: nat)
    requires digits != [] && AllDigits(digits) && WordOK(word)
    requires end == p + |digits| + 1 + |word| <= |line|
    requires line[p..end] == digits + " " + word
    ensures p + DigitRun(line, p) <= end
    ensures NoDigitIn(line, p + DigitRun(line, p), end)
  {
    ClauseLayout(line, p, digits, word, end);
    ClauseDigits(line, p, digits);
  }

  /** No match at `p`, and no digit from the end of its run of digits to
      `end`: the search jumps straight to `end`. */
  lemma {:induction false} FindIterMissThenSkip(line: string, key: string, p: nat, mid: nat, end: nat)
    requires p <= |line| && MatchAt(line, key, p).None?
    requires mid == p + DigitRun(line, p) && mid <= end
    requires NoDigitIn(line, mid, end)
    ensures FindIter(line, key, p) == FindIter(line, key, end)
  {
    assert FindIter(line, key, p) == FindIter(line, key, mid) by {
      FindIterPastRun(line, key, p);
    }
    assert FindIter(line, key, mid) == FindIter(line, key, end) by {
      FindIterNoDigits(line, key, mid, end);
    }
  }

  /** One clause at position `p`: its count goes to `key` when its words
      start with `key`, and the search resumes after the clause. */
  lemma {:induction false} ClauseAt(line: string, key: string, p: nat, c: Clause)
    requires key != [] && !IsSpace(key[0]) && Spaceless(key)
    requires WordOK(c.word)
    requires p + |Render(c)| <= |line| && line[p..p + |Render(c)|] == Render(c)
    ensures Sum(FindIter(line, key, p))
            == ClauseValue(c.count, c.word, key) + Sum(FindIter(line, key, p + |Render(c)|))
  {
    assert AllDigits(NatToString(c.count)) && DecimalValue(NatToString(c.count)) == c.count by {
      NatToStringDigits(c.count);
    }
    ClauseDigitsAt(line, key, p, NatToString(c.count), c.word, c.count, p + |Render(c)|);
  }

  /** The same, with the clause's number written as `digits`. */
  lemma {:induction false} ClauseDigitsAt(line: string, key: string, p: nat, digits: string, word: string, n: nat, end: nat)
    requires key != [] && !IsSpace(key[0]) && Spaceless(key)
    requires digits != [] && AllDigits(digits) && DecimalValue(digits) == n && WordOK(word)
    requires end == p + |digits| + 1 + |word| <= |line|
    requires line[p..end] == digits + " " + word
    ensures Sum(FindIter(line, key, p)) == ClauseValue(n, word, key) + Sum(FindIter(line, key, end))
  {
    if StartsWith(word, key) {
      ClauseHit(line, key, p, digits, word, end);
    } else {
      ClauseNoHit(line, key, p, digits, word, end);
    }
  }

  /** Clause `c` stands at `q` in `line`. */
  predicate ClauseStandsAt(line: string, q: nat, c: Clause) {
    WordOK(c.word) && q + |Render(c)| <= |line| && line[q..q + |Render(c)|] == Render(c)
  }

  /** `f` takes a step over every clause: what it counts from `q` is the
      clause's value for `key` plus what it counts after the clause. */
  ghost predicate StepsOverClauses(line: string, key: string, f: nat -> nat) {
    forall q: nat, c: Clause {:trigger ClauseStandsAt(line, q, c)} ::
      ClauseStandsAt(line, q, c) ==> f(q) == ClauseValue(c.count, c.word, key) + f(q + |Render(c)|)
  }

  /** Telescoping such steps over a run of clauses. */
  lemma {:induction false} OverClauses(line: string, key: string, f: nat -> nat, p: nat, cs: seq<Clause>)
    requires StepsOverClauses(line, key, f)
    requires forall c :: c in cs ==> WordOK(c.word)
    requires p + |RenderAll(cs)| <= |line| && line[p..p + |RenderAll(cs)|] == RenderAll(cs)
    ensures f(p) == KeySum(cs, key) + f(p + |RenderAll(cs)|)
    decreases |cs|
  {
    if cs != [] {
      var r := Render(cs[0]);
      var rest := RenderAll(cs[1..]);
      assert RenderAll(cs) == r + rest;
      SliceParts(line, p, r, rest);
      assert ClauseStandsAt(line, p, cs[0]);
      OverClauses(line, key, f, p + |r|, cs[1..]);
    }
  }

  /** What the search for `key` adds up from position `q` on. */
  function SearchFrom(line: string, key: string, q: nat): nat {
    if q <= |line| then Sum(FindIter(line, key, q)) else 0
  }

  /** The search for `key` takes such a step over every clause. */
  lemma {:induction false} SearchStepsOverClauses(line: string, key: string)
    requires key != [] && !IsSpace(key[0]) && Spaceless(key)
    ensures StepsOverClauses(line, key, (q: nat) => SearchFrom(line, key, q))
  {
    forall q: nat, c: Clause | ClauseStandsAt(line, q, c)
      ensures SearchFrom(line, key, q) == ClauseValue(c.count, c.word, key) + SearchFrom(line, key, q + |Render(c)|)
    {
      ClauseStep(line, key, q, c);
    }
  }

  lemma {:induction false} ClauseStep(line: string, key: string, q: nat, c: Clause)
    requires key != [] && !IsSpace(key[0]) && Spaceless(key)
    requires ClauseStandsAt(line, q, c)
    ensures SearchFrom(line, key, q) == ClauseValue(c.count, c.word, key) + SearchFrom(line, key, q + |Render(c)|)
  {
    ClauseAt(line, key, q, c);
  }

  /** Clauses written one after another at `p`: each adds its count to the
      keys its words start with. */
  lemma {:induction false} ClausesAt(line: string, key: string, p: nat, cs: seq<Clause>)
    requires key != [] && !IsSpace(key[0]) && Spaceless(key)
    requires forall c :: c in cs ==> WordOK(c.word)
    requires p + |RenderAll(cs)| <= |line| && line[p..p + |RenderAll(cs)|] == RenderAll(cs)
    ensures SearchFrom(line, key, p) == KeySum(cs, key) + SearchFrom(line, key, p + |RenderAll(cs)|)
  {
    SearchStepsOverClauses(line, key);
    OverClauses(line, key, (q: nat) => SearchFrom(line, key, q), p, cs);
  }

  /** Where no digit is followed by whitespace no match can start. */
  lemma {:induction false} NoCountNoMatch(line: string, key: string, p: nat, t: nat)
    requires p <= t <= |line| && NoCountFrom(line, p)
    ensures MatchAt(line, key, t).None?
  {
    var d := DigitRun(line, t);
    DigitRunSpan(line, t);
    if 0 < d && t + d < |line| {
      assert IsDigit(line[t + d - 1]) && !CountAt(line, t + d - 1);
      assert !IsSpace(line[t + d]);
    }
  }

  lemma {:induction false} NoCountFindsNothing(line: string, key: string, p: nat)
    requires p <= |line| && NoCountFrom(line, p)
    ensures FindIter(line, key, p) == []
  {
    forall t | p <= t < |line|
      ensures MatchAt(line, key, t).None?
    {
      NoCountNoMatch(line, key, p, t);
    }
    FindIterSkip(line, key, p, |line|);
  }

  /** Numbers, spaces and words never end a line. */
  lemma {:induction false} RenderAllNoBreak(cs: seq<Clause>)
    requires forall c :: c in cs ==> WordOK(c.word)
    ensures NoLineBreak(RenderAll(cs))
    decreases |cs|
  {
    if cs != [] {
      var digits := NatToString(cs[0].count);
      NatToStringDigits(cs[0].count);
      RenderAllNoBreak(cs[1..]);
      var r := Render(cs[0]) + RenderAll(cs[1..]);
      forall t | 0 <= t < |r|
        ensures !IsLineBreak(r[t])
      {
        if t < |digits| {
          assert r[t] == digits[t];
        } else if t == |digits| {
          assert r[t] == ' ';
        } else if t < |Render(cs[0])| {
          assert r[t] == cs[0].word[t - |digits| - 1];
        } else {
          assert r[t] == RenderAll(cs[1..])[t - |Render(cs[0])|];
        }
      }
    }
  }

  /** The words a clause ends with close with a space, so the whole run of
      clauses does too, and no count can straddle into what follows. */
  lemma {:induction false} TailHasNoCount(cs: seq<Clause>, tail: string)
    requires NoCountFrom(tail, 0)
    ensures NoCountFrom(RenderAll(cs) + tail, |RenderAll(cs)|)
  {
    var n := |RenderAll(cs)|;
    var line := RenderAll(cs) + tail;
    forall t | n <= t < |line|
      ensures !CountAt(line, t)
    {
      if t + 1 < |line| {
        assert line[t] == tail[t - n] && line[t + 1] == tail[t - n + 1];
        assert !CountAt(tail, t - n);
      }
    }
  }

  /** What one key adds up over a summary line: the counts of the clauses
      whose words start with it. Text before the clauses that holds no
      digit, such as the rule of '=' pytest frames the line with, adds
      nothing. */
  lemma {:induction false} KeyTotalOfClauses(prefix: string, cs: seq<Clause>, tail: string, key: string)
    requires key != [] && !IsSpace(key[0]) && Spaceless(key)
    requires forall c :: c in cs ==> WordOK(c.word)
    requires NoDigit(prefix) && NoCountFrom(tail, 0)
    ensures KeyTotal(prefix + RenderAll(cs) + tail, key) == KeySum(cs, key)
  {
    var body := RenderAll(cs) + tail;
    ConcatAssoc(prefix, RenderAll(cs), tail);
    PrefixFindsNothing(prefix, body, key);
    ClausesInFrame(prefix, body, cs, tail, key);
    TailInFrame(prefix, body, cs, tail, key);
  }

  /** The clauses after the text add their counts to the search. */
  lemma {:induction false} ClausesInFrame(prefix: string, body: string, cs: seq<Clause>, tail: string, key: string)
    requires key != [] && !IsSpace(key[0]) && Spaceless(key)
    requires forall c :: c in cs ==> WordOK(c.word)
    requires body == RenderAll(cs) + tail
    ensures |prefix| + |RenderAll(cs)| <= |prefix + body|
    ensures SearchFrom(prefix + body, key, |prefix|)
            == KeySum(cs, key) + SearchFrom(prefix + body, key, |prefix| + |RenderAll(cs)|)
  {
    var line := prefix + body;
    var m, n := |prefix|, |RenderAll(cs)|;
    assert line[m..m + n] == RenderAll(cs) by {
      assert line[m..] == body;
      assert body[..n] == RenderAll(cs);
    }
    ClausesAt(line, key, m, cs);
  }

  /** Nothing is found in the tail after the clauses. */
  lemma {:induction false} TailInFrame(prefix: string, body: string, cs: seq<Clause>, tail: string, key: string)
    requires NoCountFrom(tail, 0)
    requires body == RenderAll(cs) + tail
    ensures |prefix| + |RenderAll(cs)| <= |prefix + body|
    ensures SearchFrom(prefix + body, key, |prefix| + |RenderAll(cs)|) == 0
  {
    TailHasNoCount(cs, tail);
    NoCountAfterPrefix(prefix, body, |RenderAll(cs)|);
    NoCountFindsNothing(prefix + body, key, |prefix| + |RenderAll(cs)|);
  }

  /** Digit-free text in front of a line holds no match: the search starts
      over where the text ends. */
  lemma {:induction false} PrefixFindsNothing(prefix: string, body: string, key: string)
    requires NoDigit(prefix)
    ensures KeyTotal(prefix + body, key) == SearchFrom(prefix + body, key, |prefix|)
  {
    var line := prefix + body;
    forall t | 0 <= t < |prefix|
      ensures !IsDigit(line[t])
    {
      assert line[t] == prefix[t];
    }
    FindIterNoDigits(line, key, 0, |prefix|);
  }

  lemma {:induction false} NoCountAfterPrefix(prefix: string, body: string, k: nat)
    requires NoCountFrom(body, k)
    ensures NoCountFrom(prefix + body, |prefix| + k)
  {
    var line := prefix + body;
    var m := |prefix|;
    forall t | m + k <= t < |line|
      ensures !CountAt(line, t)
    {
      if t + 1 < |line| {
        assert line[t] == body[t - m] && line[t + 1] == body[t - m + 1];
        assert !CountAt(body, t - m);
      }
    }
  }

  /** The four categories of a run of clauses, key by key. */
  lemma {:induction false} ClausesCountsByKey(cs: seq<Clause>)
    ensures ClausesCounts(cs) == Counts(
              KeySum(cs, "passed"),
              KeySum(cs, "failed"),
              KeySum(cs, "error") + KeySum(cs, "errors"),
              KeySum(cs, "skipped"))
    decreases |cs|
  {
    if cs != [] {
      ClausesCountsByKey(cs[1..]);
    }
  }

  lemma {:induction false} KeysAreWords()
    ensures forall key :: key in ["passed", "failed", "error", "errors", "skipped"] ==>
              key != [] && !IsSpace(key[0]) && Spaceless(key)
  {
  }

  /** A summary line counts each clause once, under the category its words
      name: "N errors" twice over, since both `error` and `errors` match. */
  lemma {:induction false} SummaryLineCounts(cs: seq<Clause>, tail: string)
    requires forall c :: c in cs ==> WordOK(c.word)
    requires NoCountFrom(tail, 0) && NoLineBreak(tail)
    requires IsCandidate(RenderAll(cs) + tail)
    ensures Summary(RenderAll(cs) + tail) == ClausesCounts(cs)
  {
    assert "" + RenderAll(cs) + tail == RenderAll(cs) + tail;
    FramedSummaryLine("", cs, tail);
  }

  /** The same for a line with digit-free text before its clauses, as in
      pytest's "==== 1 failed, 2 errors in 0.5s ====". */
  lemma {:induction false} FramedSummaryLine(prefix: string, cs: seq<Clause>, tail: string)
    requires NoDigit(prefix) && NoLineBreak(prefix)
    requires forall c :: c in cs ==> WordOK(c.word)
    requires NoCountFrom(tail, 0) && NoLineBreak(tail)
    requires IsCandidate(prefix + RenderAll(cs) + tail)
    ensures Summary(prefix + RenderAll(cs) + tail) == ClausesCounts(cs)
  {
    RenderedLineNoBreak(prefix, cs, tail);
    ClauseLineKeys(prefix, cs, tail);
    OneCandidateLine(prefix + RenderAll(cs) + tail, ClausesCounts(cs));
  }

  /** Text, a run of clauses and a tail, all without line breaks, make one line. */
  lemma {:induction false} RenderedLineNoBreak(prefix: string, cs: seq<Clause>, tail: string)
    requires NoLineBreak(prefix)
    requires forall c :: c in cs ==> WordOK(c.word)
    requires NoLineBreak(tail)
    ensures NoLineBreak(prefix + RenderAll(cs) + tail)
  {
    var line := prefix + RenderAll(cs) + tail;
    var m, n := |prefix|, |RenderAll(cs)|;
    RenderAllNoBreak(cs);
    forall t | 0 <= t < |line|
      ensures !IsLineBreak(line[t])
    {
      if t < m {
        assert line[t] == prefix[t];
      } else if t < m + n {
        assert line[t] == RenderAll(cs)[t - m];
      } else {
        assert line[t] == tail[t - m - n];
      }
    }
  }

  /** Key by key, the line's totals are the clauses' counts. */
  lemma {:induction false} ClauseLineKeys(prefix: string, cs: seq<Clause>, tail: string)
    requires forall c :: c in cs ==> WordOK(c.word)
    requires NoDigit(prefix) && NoCountFrom(tail, 0)
    ensures var line := prefix + RenderAll(cs) + tail;
            ClausesCounts(cs) == Counts(
              KeyTotal(line, "passed"),
              KeyTotal(line, "failed"),
              KeyTotal(line, "error") + KeyTotal(line, "errors"),
              KeyTotal(line, "skipped"))
  {
    KeysAreWords();
    KeyTotalOfClauses(prefix, cs, tail, "passed");
    KeyTotalOfClauses(prefix, cs, tail, "failed");
    KeyTotalOfClauses(prefix, cs, tail, "error");
    KeyTotalOfClauses(prefix, cs, tail, "errors");
    KeyTotalOfClauses(prefix, cs, tail, "skipped");
    ClausesCountsByKey(cs);
  }

  /** A clause whose words name one category counts under that category
      alone. */
  lemma {:induction false} PassedClause(n: nat, word: string)
    requires StartsWith(word, "passed")
    ensures ClauseCounts(n, word) == Counts(n, 0, 0, 0)
  {
    assert word[0] == 'p';
    assert word[..6] != "failed" by { assert word[..6][0] != "failed"[0]; }
    assert !StartsWith(word, "error") by { assert "error"[0] != 'p'; assert |word| < 5 || word[..5][0] == 'p'; }
    assert !StartsWith(word, "errors") by { assert "errors"[0] != 'p'; assert word[..6][0] == 'p'; }
    assert !StartsWith(word, "skipped") by { assert "skipped"[0] != 'p'; assert |word| < 7 || word[..7][0] == 'p'; }
  }

  lemma {:induction false} FailedClause(n: nat, word: string)
    requires StartsWith(word, "failed")
    ensures ClauseCounts(n, word) == Counts(0, n, 0, 0)
  {
    assert word[0] == 'f';
    assert word[..6] != "passed" by { assert word[..6][0] != "passed"[0]; }
    assert !StartsWith(word, "error") by { assert "error"[0] != 'f'; assert |word| < 5 || word[..5][0] == 'f'; }
    assert !StartsWith(word, "errors") by { assert "errors"[0] != 'f'; assert word[..6][0] == 'f'; }
    assert !StartsWith(word, "skipped") by { assert "skipped"[0] != 'f'; assert |word| < 7 || word[..7][0] == 'f'; }
  }

  lemma {:induction false} SkippedClause(n: nat, word: string)
    requires StartsWith(word, "skipped")
    ensures ClauseCounts(n, word) == Counts(0, 0, 0, n)
  {
    assert word[0] == 's';
    assert word[..6] != "passed" by { assert word[..6][0] != "passed"[0]; }
    assert word[..6] != "failed" by { assert word[..6][0] != "failed"[0]; }
    assert !StartsWith(word, "error") by { assert "error"[0] != 's'; assert word[..5][0] == 's'; }
    assert !StartsWith(word, "errors") by { assert "errors"[0] != 's'; assert word[..6][0] == 's'; }
  }

  /** Three clauses render one after another, and count so too. */
  lemma {:induction false} ThreeClausesRender(cs: seq<Clause>)
    requires |cs| == 3
    ensures RenderAll(cs) == Render(cs[0]) + Render(cs[1]) + Render(cs[2])
  {
    assert cs[1..][1..] == [cs[2]];
    assert RenderAll([cs[2]]) == Render(cs[2]);
  }

  lemma {:induction false} ThreeClausesCount(cs: seq<Clause>)
    requires |cs| == 3
    ensures ClausesCounts(cs) == ClauseCounts(cs[0].count, cs[0].word)
              .Plus(ClauseCounts(cs[1].count, cs[1].word)
              .Plus(ClauseCounts(cs[2].count, cs[2].word)))
  {
    var last := ClauseCounts(cs[2].count, cs[2].word);
    assert cs[1..][1..] == [cs[2]];
    assert [cs[2]][1..] == [];
    assert ClausesCounts([cs[2]]) == last.Plus(Zero());
    PlusZero(last);
  }

  lemma {:induction false} RenderOneDigit(c: Clause, s: string)
    requires c.count < 10 && s == [DigitChar(c.count)] + " " + c.word
    ensures Render(c) == s
  {
  }

  /** pytest's closing line for a run with three passes, one failure and two
      skips. */
  function TypicalClauses(): seq<Clause> {
    [Clause(3, "passed, "), Clause(1, "failed, "), Clause(2, "skipped in ")]
  }

  function TypicalLine(): string {
    RenderAll(TypicalClauses()) + "0.12s"
  }

  lemma {:induction false} TypicalLineText()
    ensures TypicalLine() == "3 passed, 1 failed, 2 skipped in 0.12s"
  {
    var cs := TypicalClauses();
    ThreeClausesRender(cs);
    RenderOneDigit(cs[0], "3 passed, ");
    RenderOneDigit(cs[1], "1 failed, ");
    RenderOneDigit(cs[2], "2 skipped in ");
    TypicalParts();
  }

  /** The literal join behind TypicalLineText. */
  lemma {:induction false} TypicalParts()
    ensures "3 passed, " + "1 failed, " + "2 skipped in " + "0.12s"
            == "3 passed, 1 failed, 2 skipped in 0.12s"
  {
  }

  /** A line of a pass clause, a failure clause and a skip clause counts
      each under its own category. */
  lemma {:induction false} PassFailSkipLine(cs: seq<Clause>, tail: string)
    requires |cs| == 3 && forall c :: c in cs ==> WordOK(c.word)
    requires StartsWith(cs[0].word, "passed") && StartsWith(cs[1].word, "failed")
    requires StartsWith(cs[2].word, "skipped")
    requires NoCountFrom(tail, 0) && NoLineBreak(tail)
    requires IsCandidate(RenderAll(cs) + tail)
    ensures Summary(RenderAll(cs) + tail) == Counts(cs[0].count, cs[1].count, 0, cs[2].count)
  {
    PassFailSkipCounts(cs);
    SummaryLineCounts(cs, tail);
  }

  lemma {:induction false} PassFailSkipCounts(cs: seq<Clause>)
    requires |cs| == 3
    requires StartsWith(cs[0].word, "passed") && StartsWith(cs[1].word, "failed")
    requires StartsWith(cs[2].word, "skipped")
    ensures ClausesCounts(cs) == Counts(cs[0].count, cs[1].count, 0, cs[2].count)
  {
    ThreeClausesCount(cs);
    PassedClause(cs[0].count, cs[0].word);
    FailedClause(cs[1].count, cs[1].word);
    SkippedClause(cs[2].count, cs[2].word);
  }

  lemma {:induction false} TypicalLineIsCandidate(line: string)
    requires line == TypicalLine()
    ensures IsCandidate(line)
  {
    TypicalLineText();
    assert OccursAt(line, " passed", 1);
  }

  lemma {:induction false} TypicalClausesShape(cs: seq<Clause>)
    requires cs == TypicalClauses()
    ensures |cs| == 3 && forall c :: c in cs ==> WordOK(c.word)
    ensures StartsWith(cs[0].word, "passed") && StartsWith(cs[1].word, "failed")
    ensures StartsWith(cs[2].word, "skipped")
  {
    TypicalWordOK("passed, ");
    TypicalWordOK("failed, ");
    TypicalWordOK("skipped in ");
    forall c | c in cs
      ensures WordOK(c.word)
    {
      var i :| 0 <= i < 3 && cs[i] == c;
    }
  }

  /** Lower-case words closed by a space are words a clause can hold. */
  lemma {:induction false} TypicalWordOK(word: string)
    requires word != [] && word[0] != ' ' && word[|word| - 1] == ' '
    requires forall t :: 0 <= t < |word| ==> 'a' <= word[t] <= 'z' || word[t] == ' ' || word[t] == ','
    ensures WordOK(word)
  {
  }

  lemma {:induction false} TypicalTail(tail: string)
    requires tail == "0.12s" || tail == "0.02s"
    ensures NoCountFrom(tail, 0) && NoLineBreak(tail)
  {
  }

  /** That line holds six tests in all, no errors, and the duration does not
      count. */
  lemma {:induction false} TypicalSummaryLine()
    ensures Summary(TypicalLine()) == Counts(3, 1, 0, 2)
    ensures Summary(TypicalLine()).Total() == 6
  {
    TypicalLineIsCandidate(TypicalLine());
    TypicalClausesShape(TypicalClauses());
    TypicalTail("0.12s");
    PassFailSkipLine(TypicalClauses(), "0.12s");
  }

  /** A clause whose words start with "errors" counts twice over as errors:
      both the `error` and the `errors` key match it. */
  lemma {:induction false} ErrorsClause(n: nat, word: string)
    requires StartsWith(word, "errors")
    ensures ClauseCounts(n, word) == Counts(0, 0, 2 * n, 0)
  {
    assert word[0] == 'e';
    assert word[..5] == "error" by { assert word[..5] == word[..6][..5]; }
    assert word[..6] != "passed" by { assert word[..6][0] != "passed"[0]; }
    assert word[..6] != "failed" by { assert word[..6][0] != "failed"[0]; }
    assert !StartsWith(word, "skipped") by { assert "skipped"[0] != 'e'; assert |word| < 7 || word[..7][0] == 'e'; }
  }

  /** Two clauses render one after the other, and count so too. */
  lemma {:induction false} TwoClausesRender(cs: seq<Clause>)
    requires |cs| == 2
    ensures RenderAll(cs) == Render(cs[0]) + Render(cs[1])
  {
    assert cs[1..][1..] == [];
    assert RenderAll(cs[1..]) == Render(cs[1]) + [];
  }

  lemma {:induction false} TwoClausesCount(cs: seq<Clause>)
    requires |cs| == 2
    ensures ClausesCounts(cs) == ClauseCounts(cs[0].count, cs[0].word)
              .Plus(ClauseCounts(cs[1].count, cs[1].word))
  {
    var last := ClauseCounts(cs[1].count, cs[1].word);
    assert cs[1..][1..] == [];
    assert ClausesCounts(cs[1..]) == last.Plus(Zero());
    PlusZero(last);
  }

  /** A line holding a failure clause and an errors clause, framed by
      digit-free text, counts the failures once and the errors twice. */
  lemma {:induction false} FailErrorsLine(prefix: string, cs: seq<Clause>, tail: string)
    requires NoDigit(prefix) && NoLineBreak(prefix)
    requires |cs| == 2 && forall c :: c in cs ==> WordOK(c.word)
    requires StartsWith(cs[0].word, "failed") && StartsWith(cs[1].word, "errors")
    requires NoCountFrom(tail, 0) && NoLineBreak(tail)
    requires IsCandidate(prefix + RenderAll(cs) + tail)
    ensures Summary(prefix + RenderAll(cs) + tail) == Counts(0, cs[0].count, 2 * cs[1].count, 0)
  {
    TwoClausesCount(cs);
    FailedClause(cs[0].count, cs[0].word);
    ErrorsClause(cs[1].count, cs[1].word);
    FramedSummaryLine(prefix, cs, tail);
  }

  /** pytest's closing line, inside its rule of '=', for a run with one
      failure and two errors. */
  function FramedClauses(): seq<Clause> {
    [Clause(1, "failed, "), Clause(2, "errors in ")]
  }

  function FramedLine(): string {
    "=== " + RenderAll(FramedClauses()) + "0.5s ==="
  }

  lemma {:induction false} FramedLineText()
    ensures FramedLine() == "=== 1 failed, 2 errors in 0.5s ==="
  {
    FramedRender(FramedClauses());
  }

  lemma {:induction false} FramedRender(cs: seq<Clause>)
    requires cs == FramedClauses()
    ensures RenderAll(cs) == "1 failed, 2 errors in "
  {
    TwoClausesRender(cs);
    RenderOneDigit(cs[0], "1 failed, ");
    RenderOneDigit(cs[1], "2 errors in ");
  }

  lemma {:induction false} FramedLineIsCandidate(line: string)
    requires line == FramedLine()
    ensures IsCandidate(line)
  {
    FramedLineText();
    assert OccursAt(line, " failed", 5);
  }

  lemma {:induction false} FramedClausesShape(cs: seq<Clause>)
    requires cs == FramedClauses()
    ensures |cs| == 2 && forall c :: c in cs ==> WordOK(c.word)
    ensures StartsWith(cs[0].word, "failed") && StartsWith(cs[1].word, "errors")
  {
    TypicalWordOK("failed, ");
    TypicalWordOK("errors in ");
    assert cs[0].word[..6] == "failed";
    assert cs[1].word[..6] == "errors";
    forall c | c in cs
      ensures WordOK(c.word)
    {
      var i :| 0 <= i < 2 && cs[i] == c;
    }
  }

  lemma {:induction false} FramedEnds(prefix: string, tail: string)
    requires prefix == "=== " && tail == "0.5s ==="
    ensures NoDigit(prefix) && NoLineBreak(prefix)
    ensures NoCountFrom(tail, 0) && NoLineBreak(tail)
  {
  }

  /** The rule of '=' around the closing line adds nothing: one failure and
      two errors, the errors counted twice. */
  lemma {:induction false} FramedSummary()
    ensures Summary("=== 1 failed, 2 errors in 0.5s ===") == Counts(0, 1, 4, 0)
    ensures Summary("=== 1 failed, 2 errors in 0.5s ===").Total() == 5
  {
    FramedLineText();
    FramedLineIsCandidate(FramedLine());
    FramedClausesShape(FramedClauses());
    FramedEnds("=== ", "0.5s ===");
    FailErrorsLine("=== ", FramedClauses(), "0.5s ===");
  }
  /** pytest's closing line for a run where every test passed. */
  function PassedOnlyClauses(): seq<Clause> {
    [Clause(5, "passed in ")]
  }

  function PassedOnly(): string {
    RenderAll(PassedOnlyClauses()) + "0.02s"
  }

  lemma {:induction false} PassedOnlyLine()
    ensures Summary("5 passed in 0.02s") == Counts(5, 0, 0, 0)
  {
    PassedOnlyText();
    PassedOnlySummary();
  }

  lemma {:induction false} PassedOnlyText()
    ensures PassedOnly() == "5 passed in 0.02s"
  {
    OneClauseLine(PassedOnlyClauses(), "5 passed in ", "0.02s");
    assert "5 passed in " + "0.02s" == "5 passed in 0.02s";
  }

  lemma {:induction false} PassedOnlySummary()
    ensures Summary(PassedOnly()) == Counts(5, 0, 0, 0)
  {
    PassedOnlyIsCandidate(PassedOnly());
    PassedOnlyShape(PassedOnlyClauses());
    TypicalTail("0.02s");
    PassLine(PassedOnlyClauses(), "0.02s");
  }

  lemma {:induction false} PassedOnlyIsCandidate(line: string)
    requires line == PassedOnly()
    ensures IsCandidate(line)
  {
    PassedOnlyText();
    PassedOnlyCandidate(line);
  }

  lemma {:induction false} PassedOnlyShape(cs: seq<Clause>)
    requires cs == PassedOnlyClauses()
    ensures |cs| == 1 && WordOK(cs[0].word) && StartsWith(cs[0].word, "passed")
  {
    TypicalWordOK("passed in ");
    PassedWord("passed in ");
  }

  /** A line of a single pass clause counts its number as passes. */
  lemma {:induction false} PassLine(cs: seq<Clause>, tail: string)
    requires |cs| == 1 && WordOK(cs[0].word) && StartsWith(cs[0].word, "passed")
    requires NoCountFrom(tail, 0) && NoLineBreak(tail)
    requires IsCandidate(RenderAll(cs) + tail)
    ensures Summary(RenderAll(cs) + tail) == Counts(cs[0].count, 0, 0, 0)
  {
    assert ClausesCounts(cs) == Counts(cs[0].count, 0, 0, 0) by {
      OnePassClause(cs, cs[0].count, cs[0].word);
    }
    SummaryLineCounts(cs, tail);
  }

  lemma {:induction false} PassedWord(word: string)
    requires word == "passed in "
    ensures StartsWith(word, "passed")
  {
    assert word[..6] == "passed";
  }

  /** One pass clause counts its number as passes. */
  lemma {:induction false} OnePassClause(cs: seq<Clause>, n: nat, word: string)
    requires cs == [Clause(n, word)] && StartsWith(word, "passed")
    ensures ClausesCounts(cs) == Counts(n, 0, 0, 0)
  {
    OneClauseCounts(cs);
    PassedClause(n, word);
  }

  lemma {:induction false} PassedOnlyCandidate(line: string)
    requires line == "5 passed in 0.02s"
    ensures IsCandidate(line)
  {
    assert OccursAt(line, " passed", 1);
  }

  lemma {:induction false} OneClauseLine(cs: seq<Clause>, text: string, tail: string)
    requires |cs| == 1 && cs[0].count < 10 && text == [DigitChar(cs[0].count)] + " " + cs[0].word
    ensures RenderAll(cs) + tail == text + tail
  {
    RenderOneDigit(cs[0], text);
    assert RenderAll(cs) == Render(cs[0]) + RenderAll(cs[1..]);
  }

  lemma {:induction false} OneClauseCounts(cs: seq<Clause>)
    requires |cs| == 1
    ensures ClausesCounts(cs) == ClauseCounts(cs[0].count, cs[0].word)
  {
    assert cs[1..] == [];
    assert ClausesCounts(cs[1..]) == Zero();
    PlusZero(ClauseCounts(cs[0].count, cs[0].word));
  }

  /** pytest's line when it collected nothing: none of the four phrases, so
      no count. */
  lemma {:induction false} NoTestsRan()
    ensures Summary("no tests ran") == Zero()
  {
    var s := "no tests ran";
    PhraseAbsent(s, " passed");
    PhraseAbsent(s, " failed");
    PhraseAbsent(s, " skipped");
    PhraseAbsent(s, " error");
    NoPhraseNoCounts(s);
  }

  /** A pattern whose first two characters never stand side by side in `s`
      does not occur in `s`. */
  lemma {:induction false} PhraseAbsent(s: string, pat: string)
    requires |pat| >= 2
    requires forall i :: 0 <= i < |s| - 1 ==> !(s[i] == pat[0] && s[i + 1] == pat[1])
    ensures !Contains(s, pat)
  {
    forall i | 0 <= i <= |s|
      ensures !OccursAt(s, pat, i)
    {
      if i + |pat| <= |s| {
        assert s[i..i + |pat|][0] == s[i] && s[i..i + |pat|][1] == s[i + 1];
      }
    }
  }
}
