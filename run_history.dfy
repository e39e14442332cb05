/** What the window remembers of recent runs: the status rule, the one-line
    summary of a run, the history bounded to the last five runs, and the
    newest-first list through which a past run's output is brought back. */
module RunHistory {
  import opened Text
  import opened SummaryParser

  // ---------------------------------------------------------------------------
  // Target and status

  datatype TargetType = File | Folder

  function TargetTypeOf(isDirectory: bool): TargetType {
    if isDirectory then Folder else File
  }

  function TargetTypeName(t: TargetType): string {
    match t
    case File => "FILE"
    case Folder => "FOLDER"
  }

  datatype Status = Ok | Issue

  function StatusName(s: Status): string {
    match s
    case Ok => "OK"
    case Issue => "ISSUE"
  }

  /** The status a history entry records: an issue when pytest exited with a
      non-zero code or any test failed or errored. */
  function StatusOf(exitCode: int, failed: int, errors: int): Status {
    if exitCode != 0 || failed > 0 || errors > 0 then Issue else Ok
  }

  /** The message the status line shows once a run completes. */
  function CompletionMessage(exitCode: int, failed: int, errors: int): string {
    if failed > 0 || errors > 0 || exitCode != 0 then "> RUN COMPLETE (ISSUES) _"
    else "> RUN COMPLETE (OK) _"
  }

  /** With counts that cannot be negative, a run is OK exactly when pytest
      exited with 0 and nothing failed or errored. */
  lemma {:induction false} StatusOkExactly(exitCode: int, c: Counts)
    requires c.NonNegative()
    ensures StatusOf(exitCode, c.failed, c.errors) == Ok
            <==> exitCode == 0 && c.failed == 0 && c.errors == 0
    ensures StatusOf(exitCode, c.failed, c.errors) == Issue
            <==> exitCode != 0 || c.failed > 0 || c.errors > 0
  {
  }

  /** The completion message and the recorded status follow the same rule. */
  lemma {:induction false} CompletionAgreesWithStatus(exitCode: int, failed: int, errors: int)
    ensures CompletionMessage(exitCode, failed, errors) == "> RUN COMPLETE (OK) _"
            <==> StatusOf(exitCode, failed, errors) == Ok
    ensures CompletionMessage(exitCode, failed, errors) == "> RUN COMPLETE (ISSUES) _"
            <==> StatusOf(exitCode, failed, errors) == Issue
  {
    assert "> RUN COMPLETE (ISSUES) _"[17] != "> RUN COMPLETE (OK) _"[17];
  }

  // ---------------------------------------------------------------------------
  // The one-line summary

  /** The name a run is listed under: the last component of the selected path,
      the whole path when that component is empty, and "?" with no path. */
  function TargetName(selected: Option<string>): (r: string)
    ensures r != []
    ensures selected.None? || selected.value == [] ==> r == "?"
    ensures selected.Some? && selected.value != [] ==>
              && |r| <= |selected.value|
              && r == selected.value[|selected.value| - |r|..]
              && (r == selected.value || forall t :: 0 <= t < |r| ==> r[t] != '/')
    ensures selected.Some? && selected.value != [] ==>
              r == (if Basename(selected.value) != [] then Basename(selected.value) else selected.value)
  {
    var name := if selected.Some? && selected.value != [] then selected.value else "?";
    var base := Basename(name);
    if base != [] then base else name
  }

  /** The text a history row shows for a run. */
  function SummaryText(timestamp: string, status: Status, exitCode: int, total: int,
                       c: Counts, targetType: TargetType, name: string): string
  {
    timestamp + " | " + StatusName(status) + " | " + RunFields(exitCode, total, c, targetType, name)
  }

  /** What follows the status: exit code, counts and target. */
  function RunFields(exitCode: int, total: int, c: Counts, targetType: TargetType, name: string): string {
    "code=" + IntToString(exitCode) + " | "
    + "T:" + IntToString(total) + " P:" + IntToString(c.passed)
    + " F:" + IntToString(c.failed) + " E:" + IntToString(c.errors)
    + " S:" + IntToString(c.skipped) + " | "
    + TargetTypeName(targetType) + ":" + name
  }

  /** Reads the status back from a row, given the timestamp it starts with. */
  function ReadStatus(row: string, timestamp: string): Option<Status> {
    var okHead := timestamp + " | OK | ";
    var issueHead := timestamp + " | ISSUE | ";
    if |okHead| <= |row| && row[..|okHead|] == okHead then Some(Ok)
    else if |issueHead| <= |row| && row[..|issueHead|] == issueHead then Some(Issue)
    else None
  }

  lemma {:induction false} ReadStatusOfHead(timestamp: string, status: Status, rest: string)
    ensures ReadStatus(timestamp + " | " + StatusName(status) + " | " + rest, timestamp) == Some(status)
  {
    var row := timestamp + " | " + StatusName(status) + " | " + rest;
    var head := timestamp + " | " + StatusName(status) + " | ";
    var n := |timestamp|;
    assert row[..|head|] == head;
    assert row[n + 3] == StatusName(status)[0];
    if status == Issue {
      assert row[n + 3] != (timestamp + " | OK | ")[n + 3];
    }
  }

  /** The row shows the status it was written with. */
  lemma {:induction false} ReadStatusOfSummary(timestamp: string, status: Status, exitCode: int, total: int,
                            c: Counts, targetType: TargetType, name: string)
    ensures ReadStatus(SummaryText(timestamp, status, exitCode, total, c, targetType, name), timestamp)
            == Some(status)
  {
    ReadStatusOfHead(timestamp, status, RunFields(exitCode, total, c, targetType, name));
  }

  /** The row ends with the target's type and name. */
  lemma {:induction false} SummaryEndsWithTarget(timestamp: string, status: Status, exitCode: int, total: int,
                              c: Counts, targetType: TargetType, name: string)
    ensures var row := SummaryText(timestamp, status, exitCode, total, c, targetType, name);
            var tail := TargetTypeName(targetType) + ":" + name;
            |tail| <= |row| && row[|row| - |tail|..] == tail
  {
  }

  // ---------------------------------------------------------------------------
  // Entries and the bounded history

  datatype Entry = Entry(
    summary: string,
    output: string,
    exitCode: int,
    flag: string,
    timestamp: string,
    targetType: TargetType,
    targetName: string,
    counts: Counts,
    total: int)

  /** The entry recorded for a run, from the counts the parser left behind. */
  function NewEntry(timestamp: string, exitCode: int, flag: string, output: string,
                    c: Counts, total: int, isDirectory: bool, selected: Option<string>): Entry
  {
    var status := StatusOf(exitCode, c.failed, c.errors);
    var targetType := TargetTypeOf(isDirectory);
    var name := TargetName(selected);
    Entry(SummaryText(timestamp, status, exitCode, total, c, targetType, name),
          output, exitCode, flag, timestamp, targetType, name, c, total)
  }

  /** An entry's row shows the status the run's exit code and counts call
      for, and the entry keeps the run's output. */
  lemma {:induction false} NewEntryShowsStatus(timestamp: string, exitCode: int, flag: string, output: string,
                            c: Counts, total: int, isDirectory: bool, selected: Option<string>)
    ensures var e := NewEntry(timestamp, exitCode, flag, output, c, total, isDirectory, selected);
            && ReadStatus(e.summary, timestamp) == Some(StatusOf(exitCode, c.failed, c.errors))
            && e.output == output && e.exitCode == exitCode && e.counts == c
  {
    ReadStatusOfSummary(timestamp, StatusOf(exitCode, c.failed, c.errors), exitCode, total, c,
                        TargetTypeOf(isDirectory), TargetName(selected));
  }

  /** How many runs the history keeps. */
  const Capacity := 5

  /** Python's `s[-n:]` for a positive `n`: the last `n` elements, or all of
      them when there are fewer. */
  function LastN<T>(s: seq<T>, n: nat): (r: seq<T>)
    ensures |r| == if |s| <= n then |s| else n
    ensures r == s[|s| - |r|..]
  {
    if |s| <= n then s else s[|s| - n..]
  }

  /** The history after one more run: the entry appended, then only the last
      `Capacity` entries kept. */
  function Record(h: seq<Entry>, e: Entry): (r: seq<Entry>)
    ensures |r| == if |h| + 1 <= Capacity then |h| + 1 else Capacity
    ensures r[|r| - 1] == e
    ensures r[..|r| - 1] == h[|h| - (|r| - 1)..]
  {
    var r := LastN(h + [e], Capacity);
    assert r[..|r| - 1] == (h + [e])[|h| + 1 - |r|..|h|];
    r
  }

  /** The history after a series of runs, oldest first. */
  function RecordAll(h: seq<Entry>, es: seq<Entry>): seq<Entry>
    decreases |es|
  {
    if es == [] then h else RecordAll(Record(h, es[0]), es[1..])
  }

  lemma {:induction false} LastNOfLastN<T>(a: seq<T>, b: seq<T>, n: nat)
    requires 0 < n
    ensures LastN(LastN(a, n) + b, n) == LastN(a + b, n)
  {
    var l := LastN(a, n);
    if |a| > n {
      assert l + b == (a + b)[|a| - n..];
    }
  }

  /** However many runs are recorded, the history holds the last five of
      them in the order they ran. */
  lemma {:induction false} RecordAllKeepsNewest(h: seq<Entry>, es: seq<Entry>)
    requires |h| <= Capacity
    ensures RecordAll(h, es) == LastN(h + es, Capacity)
    decreases |es|
  {
    if es == [] {
      assert h + es == h;
    } else {
      RecordAllKeepsNewest(Record(h, es[0]), es[1..]);
      RecordThenRest(h, es);
    }
  }

  /** Recording the first run and keeping the last five of it and the rest
      keeps the last five of all of them. */
  lemma {:induction false} RecordThenRest(h: seq<Entry>, es: seq<Entry>)
    requires es != []
    ensures LastN(Record(h, es[0]) + es[1..], Capacity) == LastN(h + es, Capacity)
  {
    LastNOfLastN(h + [es[0]], es[1..], Capacity);
    assert h + [es[0]] + es[1..] == h + es by {
      assert es == [es[0]] + es[1..];
    }
  }

  // ---------------------------------------------------------------------------
  // The newest-first list and selection

  /** The rows of the history list: the entries' summaries, newest first. */
  function DisplayOrder(h: seq<Entry>): (rows: seq<string>)
    ensures |rows| == |h|
    ensures forall d :: 0 <= d < |h| ==> rows[d] == h[|h| - 1 - d].summary
  {
    if h == [] then [] else [h[|h| - 1].summary] + DisplayOrder(h[..|h| - 1])
  }

  /** The output brought back when row `selection` of the list is clicked:
      nothing without a selection, outside the list, or when that run left no
      output. */
  function Select(h: seq<Entry>, selection: Option<int>): (r: Option<string>)
    ensures r.Some? <==> selection.Some? && 0 <= selection.value < |h|
                         && h[|h| - 1 - selection.value].output != []
    ensures r.Some? ==> r.value == h[|h| - 1 - selection.value].output
  {
    if selection.None? then None
    else if h == [] then None
    else
      var i := |h| - 1 - selection.value;
      if i < 0 || i >= |h| then None
      else if h[i].output == [] then None
      else Some(h[i].output)
  }

  /** Right after a run, the top row is that run, and clicking it shows what
      that run wrote. */
  lemma {:induction false} NewestOnTop(h: seq<Entry>, e: Entry)
    ensures DisplayOrder(Record(h, e))[0] == e.summary
    ensures e.output != [] ==> Select(Record(h, e), Some(0)) == Some(e.output)
    ensures e.output == [] ==> Select(Record(h, e), Some(0)) == None
  {
  }
}
