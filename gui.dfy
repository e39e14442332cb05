/** The state the runner window keeps between clicks, with the widgets
    reduced to the text they hold: the terminal area, the status line and
    the rows of the history list. */
module Gui {
  import opened Text
  import opened SummaryParser
  import opened RunHistory
  import opened Runner

  // ---------------------------------------------------------------------------
  // What the terminal shows for a run

  function OutputHeader(): string { "=== PYTEST OUTPUT ===\n" }
  function ErrorsHeader(): string { "=== PYTEST ERRORS ===\n" }

  function Banner(targetType: TargetType, path: string): string {
    "[BOOT] pytest engaged on " + TargetTypeName(targetType) + ":\n" + path + "\n"
  }

  function FlagLine(flag: string): string {
    if FlagActive(flag) then "[FLAG] " + flag + "\n" else ""
  }

  function Section(header: string, text: string): string {
    if text != [] then header + text + "\n" else ""
  }

  function ExitLine(code: int): string {
    "\n[EXIT CODE] " + IntToString(code) + "\n"
  }

  /** The terminal text once a run is over, which is also what its history
      entry keeps. */
  function Snapshot(targetType: TargetType, path: string, flag: string, r: RunResult): string {
    Banner(targetType, path) + FlagLine(flag) + "\n" + Streams(r) + ExitLine(r.returnCode)
  }

  /** The sections for what pytest wrote, stdout first. */
  function Streams(r: RunResult): string {
    Section(OutputHeader(), r.stdout) + Section(ErrorsHeader(), r.stderr)
  }

  lemma {:induction false} StartsWithJoin(p: string, a: string, b: string)
    requires StartsWith(a, p)
    ensures StartsWith(a + b, p)
  {
    assert (a + b)[..|p|] == a[..|p|];
  }

  lemma {:induction false} FirstCharDiffers(p: string, a: string)
    requires p != [] && a != [] && a[0] != p[0]
    ensures !StartsWith(a, p)
  {
    if |p| <= |a| {
      assert a[..|p|][0] != p[0];
    }
  }

  lemma {:induction false} RestAfter(a: string, b: string, k: nat)
    requires k <= |b|
    ensures (a + b)[|a| + k..] == b[k..]
  {
  }

  lemma {:induction false} Regroup4(a: string, b: string, c: string, d: string)
    ensures a + b + c + d == a + (b + c + d)
  {
  }

  lemma {:induction false} Regroup5(a: string, b: string, c: string, d: string, e: string)
    ensures a + b + c + d + e == a + (b + c + d + e)
    ensures a + b + c + d + e == a + (b + (c + d + e))
    ensures a + b + c + d + e == (a + b + c) + (d + e)
  {
  }

  /** The snapshot opens with the banner and closes with the exit code. */
  lemma {:induction false} SnapshotFrame(targetType: TargetType, path: string, flag: string, r: RunResult)
    ensures var s := Snapshot(targetType, path, flag, r);
            && StartsWith(s, Banner(targetType, path))
            && |ExitLine(r.returnCode)| <= |s|
            && s[|s| - |ExitLine(r.returnCode)|..] == ExitLine(r.returnCode)
  {
    var b := Banner(targetType, path);
    var e := ExitLine(r.returnCode);
    var middle := FlagLine(flag) + "\n" + Streams(r);
    Regroup5(b, FlagLine(flag), "\n", Streams(r), e);
    StartsWithJoin(b, b, middle + e);
    RestAfter(b + middle, e, 0);
  }

  /** Right after the banner comes a `[FLAG]` line exactly when the flag goes
      on the command line. */
  lemma {:induction false} SnapshotShowsFlag(targetType: TargetType, path: string, flag: string, r: RunResult)
    ensures var s := Snapshot(targetType, path, flag, r);
            var b := Banner(targetType, path);
            FlagActive(flag) <==> StartsWith(s[|b|..], "[FLAG] ")
  {
    var b := Banner(targetType, path);
    var after := "\n" + Streams(r) + ExitLine(r.returnCode);
    Regroup5(b, FlagLine(flag), "\n", Streams(r), ExitLine(r.returnCode));
    RestAfter(b, FlagLine(flag) + after, 0);
    FlagLineThenBreak(flag, after);
  }

  /** What follows the flag line starts with a line break, so a `[FLAG] `
      head can only come from the flag line. */
  lemma {:induction false} FlagLineThenBreak(flag: string, after: string)
    requires after != [] && after[0] == '\n'
    ensures FlagActive(flag) <==> StartsWith(FlagLine(flag) + after, "[FLAG] ")
  {
    if FlagActive(flag) {
      Regroup4("[FLAG] ", flag, "\n", after);
      StartsWithJoin("[FLAG] ", "[FLAG] ", flag + "\n" + after);
    } else {
      assert FlagLine(flag) + after == after;
      FirstCharDiffers("[FLAG] ", after);
    }
  }

  /** Stdout's section heads the streams exactly when pytest wrote to
      stdout. */
  lemma {:induction false} StreamsShowStdout(r: RunResult, e: string)
    requires e != [] && e[0] == '\n'
    ensures r.stdout != [] <==> StartsWith(Streams(r) + e, OutputHeader())
  {
    var out, err := Section(OutputHeader(), r.stdout), Section(ErrorsHeader(), r.stderr);
    ConcatAssoc(out, err, e);
    if r.stdout != [] {
      StartsWithJoin(OutputHeader(), OutputHeader(), r.stdout + "\n" + (err + e));
      assert out + (err + e) == OutputHeader() + (r.stdout + "\n" + (err + e));
    } else if r.stderr != [] {
      assert (err + e)[..|OutputHeader()|][11] == 'E' != OutputHeader()[11];
    } else {
      FirstCharDiffers(OutputHeader(), e);
    }
  }

  /** The output section comes right after the blank line exactly when pytest
      wrote to stdout. */
  lemma {:induction false} SnapshotShowsStdout(targetType: TargetType, path: string, flag: string, r: RunResult)
    ensures var s := Snapshot(targetType, path, flag, r);
            var k := |Banner(targetType, path)| + |FlagLine(flag)| + 1;
            k <= |s| && (r.stdout != [] <==> StartsWith(s[k..], OutputHeader()))
  {
    var head := Banner(targetType, path) + FlagLine(flag) + "\n";
    var e := ExitLine(r.returnCode);
    Regroup5(Banner(targetType, path), FlagLine(flag), "\n", Streams(r), e);
    RestAfter(head, Streams(r) + e, 0);
    StreamsShowStdout(r, e);
  }

  /** The errors section follows the output section (or takes its place)
      exactly when pytest wrote to stderr. */
  lemma {:induction false} StreamsShowStderr(r: RunResult, e: string)
    requires e != [] && e[0] == '\n'
    ensures var k := |Section(OutputHeader(), r.stdout)|;
            k <= |Streams(r) + e| && (r.stderr != [] <==> StartsWith((Streams(r) + e)[k..], ErrorsHeader()))
  {
    var out, err := Section(OutputHeader(), r.stdout), Section(ErrorsHeader(), r.stderr);
    ConcatAssoc(out, err, e);
    RestAfter(out, err + e, 0);
    if r.stderr != [] {
      StartsWithJoin(ErrorsHeader(), ErrorsHeader(), r.stderr + "\n" + e);
      assert err + e == ErrorsHeader() + (r.stderr + "\n" + e);
    } else {
      FirstCharDiffers(ErrorsHeader(), e);
    }
  }

  /** In the snapshot the errors section starts right after the output
      section exactly when pytest wrote to stderr. */
  lemma {:induction false} SnapshotShowsStderr(targetType: TargetType, path: string, flag: string, r: RunResult)
    ensures var s := Snapshot(targetType, path, flag, r);
            var k := |Banner(targetType, path)| + |FlagLine(flag)| + 1 + |Section(OutputHeader(), r.stdout)|;
            k <= |s| && (r.stderr != [] <==> StartsWith(s[k..], ErrorsHeader()))
  {
    var head := Banner(targetType, path) + FlagLine(flag) + "\n";
    var e := ExitLine(r.returnCode);
    var k := |Section(OutputHeader(), r.stdout)|;
    Regroup5(Banner(targetType, path), FlagLine(flag), "\n", Streams(r), e);
    StreamsShowStderr(r, e);
    RestAfter(head, Streams(r) + e, k);
  }

  // ---------------------------------------------------------------------------
  // The window

  function ReadyText(): string { "[READY] target locked. execute RUN PYTEST to begin.\n\n" }
  function HistoryViewText(): string { "> HISTORY VIEW _" }

  class PytestGui {
    var selectedPath: Option<string>
    var isDirectory: bool
    var lastStdout: string
    var lastStderr: string
    var testsPassed: int
    var testsFailed: int
    var testsErrors: int
    var testsSkipped: int
    var testsTotal: int
    /** Oldest run first, at most `Capacity` of them. */
    var runHistory: seq<Entry>
    /** The rows of the history list box, newest run first. */
    var historyRows: seq<string>
    /** The text of the terminal area. */
    var terminal: string
    /** The text of the status line. */
    var statusLine: string

    function CountsNow(): Counts
      reads this
    {
      Counts(testsPassed, testsFailed, testsErrors, testsSkipped)
    }

    /** The counters agree with one another and the history list shows the
        history. */
    ghost predicate Valid()
      reads this
    {
      && testsPassed >= 0 && testsFailed >= 0 && testsErrors >= 0 && testsSkipped >= 0
      && testsTotal == testsPassed + testsFailed + testsErrors + testsSkipped
      && |runHistory| <= Capacity
      && historyRows == DisplayOrder(runHistory)
    }

    constructor ()
      ensures Valid()
      ensures selectedPath == None && !isDirectory
      ensures lastStdout == [] && lastStderr == []
      ensures CountsNow() == Zero() && testsTotal == 0
      ensures runHistory == [] && historyRows == []
      ensures terminal == [] && statusLine == "> BOOTING _"
    {
      selectedPath := None;
      isDirectory := false;
      lastStdout, lastStderr := [], [];
      testsPassed, testsFailed, testsErrors, testsSkipped, testsTotal := 0, 0, 0, 0, 0;
      runHistory, historyRows := [], [];
      terminal := [];
      statusLine := "> BOOTING _";
    }

    /** Picking a target: a cancelled dialog (an empty path) changes nothing. */
    method SelectPath(path: string, pickedFolder: bool)
      modifies this
      requires Valid()
      ensures Valid()
      ensures path == [] ==> unchanged(this)
      ensures path != [] ==> selectedPath == Some(path) && isDirectory == pickedFolder
                             && terminal == ReadyText()
      ensures path != [] ==> lastStdout == old(lastStdout) && lastStderr == old(lastStderr)
                             && CountsNow() == old(CountsNow()) && testsTotal == old(testsTotal)
                             && runHistory == old(runHistory) && historyRows == old(historyRows)
                             && statusLine == old(statusLine)
    {
      if path == [] {
        return;
      }
      selectedPath := Some(path);
      isDirectory := pickedFolder;
      terminal := ReadyText();
    }

    /** Switching between file and folder mode drops the target and clears
        the terminal. */
    method OnModeChange()
      modifies this
      requires Valid()
      ensures Valid()
      ensures selectedPath == None && !isDirectory && terminal == []
      ensures lastStdout == old(lastStdout) && lastStderr == old(lastStderr)
      ensures CountsNow() == old(CountsNow()) && testsTotal == old(testsTotal)
      ensures runHistory == old(runHistory) && historyRows == old(historyRows)
      ensures statusLine == old(statusLine)
    {
      selectedPath := None;
      isDirectory := false;
      terminal := [];
    }

    /** Counting the results in `text`: the counters are set from this text
        alone, whatever they held before. */
    method ParseSummary(text: string)
      modifies this
      requires Valid()
      ensures Valid()
      ensures CountsNow() == Summary(text) && testsTotal == Summary(text).Total()
      ensures selectedPath == old(selectedPath) && isDirectory == old(isDirectory)
      ensures lastStdout == old(lastStdout) && lastStderr == old(lastStderr)
      ensures runHistory == old(runHistory) && historyRows == old(historyRows)
      ensures terminal == old(terminal) && statusLine == old(statusLine)
    {
      var c := CountText(text);
      SetCounts(c);
    }

    /** The counters and their total set to `c`. */
    method SetCounts(c: Counts)
      modifies this
      requires Valid() && c.NonNegative()
      ensures Valid()
      ensures CountsNow() == c && testsTotal == c.Total()
      ensures selectedPath == old(selectedPath) && isDirectory == old(isDirectory)
      ensures lastStdout == old(lastStdout) && lastStderr == old(lastStderr)
      ensures runHistory == old(runHistory) && historyRows == old(historyRows)
      ensures terminal == old(terminal) && statusLine == old(statusLine)
    {
      testsPassed, testsFailed, testsErrors, testsSkipped, testsTotal :=
        c.passed, c.failed, c.errors, c.skipped, c.Total();
    }

    /** Recording a finished run: the entry goes to the end of the history,
        only the last `Capacity` runs are kept, and the list is rebuilt newest
        first. */
    method AddRunToHistory(exitCode: int, flag: string, output: string, timestamp: string)
      modifies this
      requires Valid()
      ensures Valid()
      ensures runHistory == Record(old(runHistory),
                NewEntry(timestamp, exitCode, flag, output, old(CountsNow()), old(testsTotal),
                         old(isDirectory), old(selectedPath)))
      ensures selectedPath == old(selectedPath) && isDirectory == old(isDirectory)
      ensures lastStdout == old(lastStdout) && lastStderr == old(lastStderr)
      ensures CountsNow() == old(CountsNow()) && testsTotal == old(testsTotal)
      ensures terminal == old(terminal) && statusLine == old(statusLine)
    {
      var entry := NewEntry(timestamp, exitCode, flag, output, CountsNow(), testsTotal,
                            isDirectory, selectedPath);
      AppendRun(entry);
    }

    /** The history part of recording a run, for an entry already built. */
    method AppendRun(entry: Entry)
      modifies this
      requires Valid()
      ensures Valid()
      ensures runHistory == Record(old(runHistory), entry)
      ensures selectedPath == old(selectedPath) && isDirectory == old(isDirectory)
      ensures lastStdout == old(lastStdout) && lastStderr == old(lastStderr)
      ensures CountsNow() == old(CountsNow()) && testsTotal == old(testsTotal)
      ensures terminal == old(terminal) && statusLine == old(statusLine)
    {
      var h := Appended(runHistory, entry);
      var rows := NewestFirst(h);
      runHistory, historyRows := h, rows;
    }

    /** Clicking row `selection` of the history list (no row: `None`). */
    method OnHistorySelect(selection: Option<int>)
      modifies this
      requires Valid()
      ensures Valid()
      ensures var shown := Select(runHistory, selection);
              && (shown.Some? ==> terminal == shown.value && statusLine == HistoryViewText())
              && (shown.None? ==> terminal == old(terminal) && statusLine == old(statusLine))
      ensures selectedPath == old(selectedPath) && isDirectory == old(isDirectory)
      ensures lastStdout == old(lastStdout) && lastStderr == old(lastStderr)
      ensures CountsNow() == old(CountsNow()) && testsTotal == old(testsTotal)
      ensures runHistory == old(runHistory) && historyRows == old(historyRows)
    {
      if selection.None? {
        return;
      }
      var displayIndex := selection.value;
      if |runHistory| == 0 {
        return;
      }
      var historyIndex := |runHistory| - 1 - displayIndex;
      if historyIndex < 0 || historyIndex >= |runHistory| {
        return;
      }
      var output := runHistory[historyIndex].output;
      if output == [] {
        return;
      }
      terminal := output;
      statusLine := HistoryViewText();
    }

    /** A run on the selected target: the terminal is rebuilt, pytest runs,
        both streams are counted, the run joins the history and the status
        line reports the result. Without a target nothing changes. */
    method RunTests(flag: string, exe: string, spawn: seq<string> -> Spawn, timestamp: string)
      modifies this
      requires Valid()
      ensures Valid()
      ensures old(selectedPath).None? || old(selectedPath).value == [] ==> unchanged(this)
      ensures old(selectedPath).Some? && old(selectedPath).value != [] ==>
                var path := old(selectedPath).value;
                var r := Outcome(spawn(Command(exe, path, flag)));
                var snapshot := Snapshot(TargetTypeOf(old(isDirectory)), path, flag, r);
                var c := Summary(r.stdout + "\n" + r.stderr);
                && terminal == snapshot
                && lastStdout == r.stdout && lastStderr == r.stderr
                && CountsNow() == c && CountsNow() == Summary(r.stdout).Plus(Summary(r.stderr))
                && runHistory == Record(old(runHistory),
                     NewEntry(timestamp, r.returnCode, flag, snapshot, c, c.Total(),
                              old(isDirectory), old(selectedPath)))
                && statusLine == CompletionMessage(r.returnCode, c.failed, c.errors)
                && selectedPath == old(selectedPath) && isDirectory == old(isDirectory)
      ensures old(selectedPath).Some? && old(selectedPath).value != []
              && spawn(Command(exe, old(selectedPath).value, flag)).Raised? ==>
                statusLine == "> RUN COMPLETE (ISSUES) _"
    {
      if selectedPath.None? || selectedPath.value == [] {
        return;
      }
      var path := selectedPath.value;
      var targetType := TargetTypeOf(isDirectory);
      ShowHeader(targetType, path, flag);
      var r := RunPytest(exe, path, isDirectory, flag, spawn);
      ShowStreams(r);
      ParseSummary(r.stdout + "\n" + r.stderr);
      JoinedStreamsAdd(r.stdout, r.stderr);
      FinishRun(r.returnCode, flag, timestamp);
    }

    /** The start of a run: the terminal is cleared and shows the target and
        the active flag. */
    method ShowHeader(targetType: TargetType, path: string, flag: string)
      modifies this
      requires Valid()
      ensures Valid()
      ensures terminal == Banner(targetType, path) + FlagLine(flag) + "\n"
      ensures selectedPath == old(selectedPath) && isDirectory == old(isDirectory)
      ensures lastStdout == old(lastStdout) && lastStderr == old(lastStderr)
      ensures CountsNow() == old(CountsNow()) && testsTotal == old(testsTotal)
      ensures runHistory == old(runHistory) && historyRows == old(historyRows)
      ensures statusLine == old(statusLine)
    {
      terminal := Banner(targetType, path);
      if flag != [] && Lower(flag) != "normal" {
        terminal := terminal + ("[FLAG] " + flag + "\n");
      }
      terminal := terminal + "\n";
    }

    /** What pytest wrote is kept and shown, stdout first, each stream only
        when it is not empty. */
    method ShowStreams(r: RunResult)
      modifies this
      requires Valid()
      ensures Valid()
      ensures terminal == old(terminal) + Streams(r)
      ensures lastStdout == r.stdout && lastStderr == r.stderr
      ensures selectedPath == old(selectedPath) && isDirectory == old(isDirectory)
      ensures CountsNow() == old(CountsNow()) && testsTotal == old(testsTotal)
      ensures runHistory == old(runHistory) && historyRows == old(historyRows)
      ensures statusLine == old(statusLine)
    {
      var shown := WithStreams(terminal, r);
      lastStdout, lastStderr, terminal := r.stdout, r.stderr, shown;
    }

    /** The end of a run: the exit code is shown, the terminal text joins the
        history and the status line reports the result. */
    method FinishRun(exitCode: int, flag: string, timestamp: string)
      modifies this
      requires Valid()
      ensures Valid()
      ensures terminal == old(terminal) + ExitLine(exitCode)
      ensures runHistory == Record(old(runHistory),
                NewEntry(timestamp, exitCode, flag, terminal, old(CountsNow()), old(testsTotal),
                         old(isDirectory), old(selectedPath)))
      ensures statusLine == CompletionMessage(exitCode, old(testsFailed), old(testsErrors))
      ensures selectedPath == old(selectedPath) && isDirectory == old(isDirectory)
      ensures lastStdout == old(lastStdout) && lastStderr == old(lastStderr)
      ensures CountsNow() == old(CountsNow()) && testsTotal == old(testsTotal)
    {
      ShowExitCode(exitCode);
      var fullOutput := terminal;
      AddRunToHistory(exitCode, flag, fullOutput, timestamp);
      ReportStatus(exitCode);
    }

    method ShowExitCode(exitCode: int)
      modifies this
      requires Valid()
      ensures Valid()
      ensures terminal == old(terminal) + ExitLine(exitCode)
      ensures selectedPath == old(selectedPath) && isDirectory == old(isDirectory)
      ensures lastStdout == old(lastStdout) && lastStderr == old(lastStderr)
      ensures CountsNow() == old(CountsNow()) && testsTotal == old(testsTotal)
      ensures runHistory == old(runHistory) && historyRows == old(historyRows)
      ensures statusLine == old(statusLine)
    {
      terminal := terminal + ExitLine(exitCode);
    }

    /** The status line once a run is over, from the exit code and the
        counters. */
    method ReportStatus(exitCode: int)
      modifies this
      requires Valid()
      ensures Valid()
      ensures statusLine == CompletionMessage(exitCode, testsFailed, testsErrors)
      ensures selectedPath == old(selectedPath) && isDirectory == old(isDirectory)
      ensures lastStdout == old(lastStdout) && lastStderr == old(lastStderr)
      ensures CountsNow() == old(CountsNow()) && testsTotal == old(testsTotal)
      ensures runHistory == old(runHistory) && historyRows == old(historyRows)
      ensures terminal == old(terminal)
    {
      if testsFailed > 0 || testsErrors > 0 || exitCode != 0 {
        statusLine := "> RUN COMPLETE (ISSUES) _";
      } else {
        statusLine := "> RUN COMPLETE (OK) _";
      }
    }
  }

  /** The four counters over a whole text, line by line, as the parser's
      loops accumulate them. */
  method CountText(text: string) returns (c: Counts)
    ensures c == Summary(text)
  {
    var passed, failed, errors, skipped := 0, 0, 0, 0;
    var lines := SplitLines(text);
    var i := 0;
    while i < |lines|
      invariant i <= |lines|
      invariant Counts(passed, failed, errors, skipped) == SumBy(LineCounts, lines[..i])
    {
      var line := lines[i];
      var before := Counts(passed, failed, errors, skipped);
      if Contains(line, " passed") || Contains(line, " failed")
         || Contains(line, " skipped") || Contains(line, " error")
      {
        var after := TallyLine(line, before);
        passed, failed, errors, skipped := after.passed, after.failed, after.errors, after.skipped;
      } else {
        PlusZero(before);
      }
      assert lines[..i + 1][..i] == lines[..i];
      i := i + 1;
    }
    assert lines[..i] == lines;
    c := Counts(passed, failed, errors, skipped);
  }

  /** One candidate line's matches added to the counters, key by key in
      PatternMap's order. */
  method TallyLine(line: string, before: Counts) returns (after: Counts)
    ensures after == before.Plus(Tally(KeyTotals(line), |PatternMap()|))
  {
    var passed, failed, errors, skipped := before.passed, before.failed, before.errors, before.skipped;
    var k := 0;
    while k < |PatternMap()|
      invariant k <= |PatternMap()|
      invariant Counts(passed, failed, errors, skipped) == before.Plus(Tally(KeyTotals(line), k))
    {
      var key, category := PatternMap()[k].0, PatternMap()[k].1;
      var value := ScanKey(line, key);
      TallyStep(before, KeyTotals(line), k, Counts(passed, failed, errors, skipped), category, value);
      passed, failed, errors, skipped := AddToCategory(category, value, passed, failed, errors, skipped);
      k := k + 1;
    }
    after := Counts(passed, failed, errors, skipped);
  }

  /** `value` added to the counter `category` names. */
  method AddToCategory(category: Category, value: nat, passed: int, failed: int, errors: int, skipped: int)
    returns (passed': int, failed': int, errors': int, skipped': int)
    ensures Counts(passed', failed', errors', skipped')
            == Counts(passed, failed, errors, skipped).Plus(Credit(category, value))
  {
    passed', failed', errors', skipped' := passed, failed, errors, skipped;
    match category {
      case Passed => passed' := passed + value;
      case Failed => failed' := failed + value;
      case Errors => errors' := errors + value;
      case Skipped => skipped' := skipped + value;
    }
  }

  /** The history with one more entry, cut back to its last `Capacity`
      entries. */
  method Appended(h: seq<Entry>, entry: Entry) returns (r: seq<Entry>)
    ensures r == Record(h, entry)
  {
    r := h + [entry];
    if |r| > Capacity {
      r := r[|r| - Capacity..];
    }
  }

  /** The terminal text with the streams' sections added, each only when
      its stream is not empty. */
  method WithStreams(t: string, r: RunResult) returns (shown: string)
    ensures shown == t + Streams(r)
  {
    shown := t;
    if r.stdout != [] {
      shown := shown + (OutputHeader() + r.stdout + "\n");
    }
    if r.stderr != [] {
      shown := shown + (ErrorsHeader() + r.stderr + "\n");
    }
  }

  /** The rows of the history list, filled newest first. */
  method NewestFirst(h: seq<Entry>) returns (rows: seq<string>)
    ensures rows == DisplayOrder(h)
  {
    rows := [];
    var i := |h|;
    while i > 0
      invariant 0 <= i <= |h|
      invariant |rows| == |h| - i
      invariant forall d :: 0 <= d < |rows| ==> rows[d] == h[|h| - 1 - d].summary
    {
      rows := rows + [h[i - 1].summary];
      i := i - 1;
    }
  }

  /** One key of the tally: adding its total to its category's counter. */
  lemma {:induction false} TallyStep(before: Counts, totals: seq<nat>, k: nat, acc: Counts, category: Category, value: nat)
    requires k < |totals| == |PatternMap()|
    requires category == PatternMap()[k].1 && value == totals[k]
    requires acc == before.Plus(Tally(totals, k))
    ensures acc.Plus(Credit(category, value)) == before.Plus(Tally(totals, k + 1))
  {
    PlusAssoc(before, Tally(totals, k), Credit(category, value));
  }
}
