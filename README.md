# CYBERTEST pytest runner — a verified model of its core

The CYBERTEST runner is a Tk window that runs `python -m pytest` on a file or
folder the user picks. It shows what pytest wrote, counts the passed, failed,
errored and skipped tests from pytest's closing summary line, and keeps the
last five runs in a list, newest first. Clicking a row brings back that run's
output.

This project models that logic with the widgets stripped away:

| file | module | what it holds |
|---|---|---|
| `text.dfy` | `Text` | The Python string builtins the runner leans on: `str.splitlines`, the `\d` and `\s` classes of `re`, `int()` of a digit run, `str()` of an integer, `str.lower`, POSIX `os.path.basename`. |
| `summary_parser.dfy` | `SummaryParser` | The summary parser. It has the candidate-line gate, the regular expression `(\d+)\s+KEY` read greedily (`MatchAt`) and proved equal to its backtracking reading (`MatchAtIsPattern`), `re.finditer` (`FindIter`), the five keys of `pattern_map` in order, and the per-line and whole-text counts (`LineCounts`, `Summary`). |
| `summary_properties.dfy` | `SummaryProperties` | What the parser makes of a line "N word…": it counts N under each key the word starts with. "N errors" counts 2N. |
| `summary_line.dfy` | `SummaryLine` | The same for pytest's closing line: a run of clauses "N word, …" between digit-free text in front (such as the rule of '=' pytest frames the line with) and a tail in which no digit is followed by whitespace (such as the duration and the closing rule). Worked examples: the docstring's "3 passed, 1 failed, 2 skipped in 0.12s", the framed "=== 1 failed, 2 errors in 0.5s ===", "5 passed in 0.02s" and "no tests ran". |
| `run_history.dfy` | `RunHistory` | The status rule, the one-line summary of a run, the history bounded to five entries, its newest-first display and the selection of a row. |
| `runner.dfy` | `Runner` | The flag test, the command line, and the fallback triple when the child process cannot be started. |
| `gui.dfy` | `Gui` | The window's state as a class `PytestGui`. Its methods change the state step by step as the source does: parse, record a run, select a row, pick a target, switch mode, run the tests. The parser's nested loops appear as `CountText`/`TallyLine`/`ScanKey`, each proved against the functions of `SummaryParser`. |

The child process, the clock and `sys.executable` are parameters:

- `spawn: seq<string> -> Spawn` gives the outcome of running a command line. It is either `Completed(stdout, stderr, code)` or `Raised(message)`.
- `timestamp` is the `HH:MM:SS` text.
- `exe` is the interpreter path.

Points of the code that the model keeps as they are:

- The stream headers are `=== PYTEST OUTPUT ===` and `=== PYTEST ERRORS ===`.
- Both the `error` and the `errors` keys match "N errors", and no word boundary follows a key. So "2 errors" adds 4 to the error count (`SummaryProperties.ErrorsClauseCountsTwice`).
- The flag test ignores case: "Normal" and "NORMAL" are left off the command line like "normal".
- A click on an empty history, on a row out of range, or on a run whose stored output is empty is a no-op: `RunHistory.Select` returns `None` and the window's state is unchanged.

## Model

| member | source | states |
|---|---|---|
| Text.SplitLines | pytest_gui_runner.py:658 | `str.splitlines`: the text cut at each line-boundary character ("\r\n" counting as one), with no empty line after a final boundary; its properties are stated by `Text.SplitLinesLosesOnlyBreaks` and `Text.LinesHaveNoBreaks`. |
| Text.SplitLinesLosesOnlyBreaks | pytest_gui_runner.py:658 | Joining the lines `splitlines` gives back yields the text with its line-boundary characters removed: splitting loses the boundaries and nothing else. |
| Text.LinesHaveNoBreaks | pytest_gui_runner.py:658 | No line that `splitlines` gives contains a line-boundary character. |
| Text.LinesAreInside | pytest_gui_runner.py:658-664 | A phrase found in one of the lines occurs in the whole text. |
| Text.NatToStringDigits | pytest_gui_runner.py:667 | `int()` reads `str(n)` back as `n`; `str(n)` is all digits with no leading zero. |
| Text.IntToStringDigits | pytest_gui_runner.py:702-705 | `str(i)` of the exit code and counts in a summary row reads back as `i`, with a minus sign exactly for negatives. |
| Text.Basename | pytest_gui_runner.py:700 | POSIX basename: the longest suffix of the path holding no '/', preceded by a '/' when it is not the whole path. |
| Text.Lower | pytest_gui_runner.py:37 | `lower()` keeps the length and maps each character to its lower-case form. |
| SummaryParser.IsCandidate | pytest_gui_runner.py:659-664 | The gate: a line is searched only when it holds " passed", " failed", " skipped" or " error"; stated by `SummaryParser.NoPhraseNoCounts`, `SummaryParser.EmptyLineCountsNothing` and `SummaryProperties.OneCandidateLine`. |
| SummaryParser.MatchAt | pytest_gui_runner.py:666 | The match of `(\d+)\s+KEY` at one position ends after it and inside the line; it is the regex's backtracking match (`SummaryParser.MatchAtIsPattern`, `SummaryParser.PatternIsMatchAt`). |
| SummaryParser.FindIter | pytest_gui_runner.py:666 | `re.finditer`: the numbers of the successive non-overlapping leftmost matches; the loop over them is `SummaryParser.ScanKey`, and over a summary line they are the clauses' counts (`SummaryLine.ClausesAt`). |
| SummaryParser.KeyTotals | pytest_gui_runner.py:665-667 | One total per key of `pattern_map`, in its order; how they are credited is stated by `SummaryParser.TallyAll`. |
| SummaryParser.Tally | pytest_gui_runner.py:665-675 | What the first keys of `pattern_map` add is never negative; stated by `SummaryParser.TallyAll` and the loop `Gui.TallyLine`. |
| SummaryParser.Credit | pytest_gui_runner.py:668-675 | A value goes to the one counter its category names; the others get nothing and the total grows by the value. |
| SummaryParser.MatchAtIsPattern | pytest_gui_runner.py:666 | The greedy match at a position exists exactly when some split into digits, whitespace and key exists (regex backtracking), and it captures that split's number and ends after the key. |
| SummaryParser.PatternIsMatchAt | pytest_gui_runner.py:666 | Any split of the text into a digit run, a whitespace run and the key is the one the greedy match finds. |
| SummaryParser.ScanKey | pytest_gui_runner.py:666-667 | The `finditer` loop for one key adds up exactly the numbers of the successive non-overlapping leftmost matches. |
| SummaryParser.LineCounts | pytest_gui_runner.py:659-675 | What one line adds is never negative. |
| SummaryParser.Summary | pytest_gui_runner.py:648-677 | The counts of a text, the sum of its lines' contributions, are never negative. |
| SummaryParser.TallyAll | pytest_gui_runner.py:650-675 | Tallying the five keys puts `passed`, `failed` and `skipped` in their own counters and the totals of `error` and `errors` together in the error counter. |
| SummaryParser.CandidateLineCounts | pytest_gui_runner.py:659-675 | A candidate line adds, per category, the sum of all matches of its keys; errors get the `error` and the `errors` totals. |
| SummaryParser.EmptyLineCountsNothing | pytest_gui_runner.py:658-664 | An empty line is no candidate and adds nothing. |
| SummaryParser.SumByAppend | pytest_gui_runner.py:658-676 | Per-line counts add up over concatenated runs of lines: the counts of a text are the sum of the per-line contributions. |
| SummaryParser.NoPhraseNoCounts | pytest_gui_runner.py:658-664 | A text in which none of " passed", " failed", " skipped", " error" occurs counts zero everywhere, whatever numbers and keys it holds (e.g. "3\tpassed"). |
| SummaryParser.JoinedStreamsAdd | pytest_gui_runner.py:848-849 | Parsing `stdout + "\n" + stderr` counts what parsing each stream alone counts, added: the joining newline neither merges nor splits a summary line. |
| SummaryProperties.ClauseMatch | pytest_gui_runner.py:666 | "digits, one space, key" is a match capturing the number's value and ending after the key. |
| SummaryProperties.ClauseMiss | pytest_gui_runner.py:666 | "digits, one space, a word not starting with the key" is no match. |
| SummaryProperties.ClauseKeyTotal | pytest_gui_runner.py:665-667 | On "N word…" (no other digits) a key's total is N when the key follows the space and 0 otherwise. |
| SummaryProperties.SummaryOfOneLine | pytest_gui_runner.py:658 | A non-empty text without line boundaries counts exactly what its single line adds. |
| SummaryProperties.OneCandidateLine | pytest_gui_runner.py:658-676 | A one-line text that passes the gate counts, per category, the totals of its keys. |
| SummaryProperties.ClauseSummary | pytest_gui_runner.py:658-676 | A candidate line "N word…" counts N under every key the word starts with. |
| SummaryProperties.ErrorsClauseCountsTwice | pytest_gui_runner.py:650-673 | "N errors…" (no other digit) counts 2N errors and nothing else. |
| SummaryProperties.ErrorClauseCountsOnce | pytest_gui_runner.py:650-673 | "N error…" not followed by "s" counts N errors and nothing else. |
| SummaryProperties.PassedClauseCounts | pytest_gui_runner.py:650-673 | "N passed…" counts N passed and nothing else. |
| SummaryProperties.FailedClauseCounts | pytest_gui_runner.py:650-673 | "N failed…" counts N failed and nothing else. |
| SummaryProperties.SkippedClauseCounts | pytest_gui_runner.py:650-673 | "N skipped…" counts N skipped and nothing else. |
| SummaryLine.ClausesAt | pytest_gui_runner.py:666 | Over a run of clauses the `finditer` search for a key adds each clause's count whose words start with the key, then continues after the run. |
| SummaryLine.KeyTotalOfClauses | pytest_gui_runner.py:665-667 | On a summary line, behind any digit-free text, a key's total is the sum of the counts of the clauses whose words start with it. |
| SummaryLine.FramedSummaryLine | pytest_gui_runner.py:658-677 | A candidate line made of digit-free text, clauses and a tail where no digit precedes whitespace counts each clause once under the category its words name ("N errors" under both error keys). |
| SummaryLine.SummaryLineCounts | pytest_gui_runner.py:658-677 | The same for a line that starts with its first clause. |
| SummaryLine.TypicalSummaryLine | pytest_gui_runner.py:644-677 | The docstring's "3 passed, 1 failed, 2 skipped in 0.12s" gives passed 3, failed 1, errors 0, skipped 2, total 6. |
| SummaryLine.ErrorsClause | pytest_gui_runner.py:650-675 | A clause whose words start with "errors" counts its number twice as errors and nothing else. |
| SummaryLine.FailErrorsLine | pytest_gui_runner.py:658-677 | A framed line of a failure clause and an errors clause counts the failures once and the errors twice. |
| SummaryLine.FramedSummary | pytest_gui_runner.py:644-677 | "=== 1 failed, 2 errors in 0.5s ===" gives failed 1, errors 4 and nothing else, total 5: the rule of '=' adds nothing. |
| SummaryLine.PassedOnlyLine | pytest_gui_runner.py:658-677 | "5 passed in 0.02s" gives passed 5 and nothing else. |
| SummaryLine.NoTestsRan | pytest_gui_runner.py:658-664 | "no tests ran" passes no gate and counts nothing. |
| RunHistory.StatusOf | pytest_gui_runner.py:694-696 | The status rule; stated by `RunHistory.StatusOkExactly`. |
| RunHistory.CompletionMessage | pytest_gui_runner.py:861-864 | The completion message; stated by `RunHistory.CompletionAgreesWithStatus`. |
| RunHistory.StatusOkExactly | pytest_gui_runner.py:694-696 | With non-negative counts a run is OK exactly when the exit code is 0 and nothing failed or errored, and ISSUE exactly otherwise. |
| RunHistory.CompletionAgreesWithStatus | pytest_gui_runner.py:861-864 | The completion message says OK exactly when the recorded status is OK, and ISSUES exactly when it is ISSUE. |
| RunHistory.TargetName | pytest_gui_runner.py:699-700 | The listed name is "?" with no path, else the path's basename, or the whole path when the basename is empty; it is never empty, is a suffix of the path, and holds no '/' unless it is the whole path. |
| RunHistory.SummaryText | pytest_gui_runner.py:702-707 | The row text of a run; stated by `RunHistory.ReadStatusOfSummary` and `RunHistory.SummaryEndsWithTarget`. |
| RunHistory.NewEntry | pytest_gui_runner.py:691-724 | The entry a run leaves; stated by `RunHistory.NewEntryShowsStatus`. |
| RunHistory.ReadStatusOfSummary | pytest_gui_runner.py:702-707 | A summary row starts with the timestamp and shows the status it was written with. |
| RunHistory.SummaryEndsWithTarget | pytest_gui_runner.py:702-707 | A summary row ends with "TYPE:name". |
| RunHistory.NewEntryShowsStatus | pytest_gui_runner.py:693-724 | A new entry's row shows the status the exit code and counts call for, and the entry keeps the output, exit code and counts. |
| RunHistory.LastN | pytest_gui_runner.py:727 | `s[-n:]` is the last `min(len, n)` elements of `s`. |
| RunHistory.Record | pytest_gui_runner.py:726-727 | After recording, the length is `min(old + 1, 5)`, the last entry is the new one, and before it come the last `len - 1` old entries in order. |
| RunHistory.RecordAllKeepsNewest | pytest_gui_runner.py:726-727 | After any series of runs the history is the last five of all runs, oldest first. |
| RunHistory.DisplayOrder | pytest_gui_runner.py:729-732 | Row `d` of the list shows entry `len - 1 - d`: newest first, one row per entry. |
| RunHistory.Select | pytest_gui_runner.py:736-753 | Row `d` brings back the output of entry `len - 1 - d`, exactly when a row is selected, `d` is in range and that output is non-empty. |
| RunHistory.NewestOnTop | pytest_gui_runner.py:726-753 | Right after a run the top row is that run, and selecting it shows its output, or nothing when the output is empty. |
| Runner.FlagActive | pytest_gui_runner.py:37 | The flag test; stated by `Runner.FlagInactiveExactly`. |
| Runner.FlagInactiveExactly | pytest_gui_runner.py:37 | A flag is left off exactly when it is empty or spells "normal" in any mix of cases. |
| Runner.Command | pytest_gui_runner.py:35-40 | The command is the interpreter, "-m", "pytest", the flag when active, and the target last; it has 5 elements with an active flag, else 4; `is_directory` plays no part. |
| Runner.Outcome | pytest_gui_runner.py:49-52 | A completed process gives its own streams and code; a failed start gives empty stdout, return code 1 and the message behind "Unexpected error running pytest: ". |
| Runner.RunPytest | pytest_gui_runner.py:34-52 | Building the command step by step and running it gives the outcome of the command `Command` describes. |
| Gui.Banner | pytest_gui_runner.py:821-825 | The boot banner naming the target's kind and path; `Gui.SnapshotFrame` states that the snapshot starts with it. |
| Gui.ExitLine | pytest_gui_runner.py:851-854 | The exit-code line; `Gui.SnapshotFrame` states that the snapshot ends with it. |
| Gui.Streams | pytest_gui_runner.py:840-846 | The sections for stdout and stderr, each present exactly when its stream is non-empty (`Gui.StreamsShowStdout`, `Gui.StreamsShowStderr`). |
| Gui.Snapshot | pytest_gui_runner.py:820-854 | The terminal text after a run; stated by `Gui.SnapshotFrame`, `Gui.SnapshotShowsFlag`, `Gui.SnapshotShowsStdout` and `Gui.SnapshotShowsStderr`. |
| Gui.SnapshotFrame | pytest_gui_runner.py:820-854 | The snapshot starts with the boot banner and ends with the exit-code line. |
| Gui.SnapshotShowsFlag | pytest_gui_runner.py:826-828 | A `[FLAG]` line follows the banner exactly when the flag goes on the command line. |
| Gui.StreamsShowStdout | pytest_gui_runner.py:840-846 | The output section heads the streams exactly when stdout is non-empty. |
| Gui.SnapshotShowsStdout | pytest_gui_runner.py:820-846 | Right after the blank line the snapshot shows the output header exactly when stdout is non-empty. |
| Gui.StreamsShowStderr | pytest_gui_runner.py:840-846 | Right after the output section (or where it would be) the errors section starts exactly when stderr is non-empty. |
| Gui.SnapshotShowsStderr | pytest_gui_runner.py:820-846 | In the snapshot the errors header follows the output section exactly when stderr is non-empty. |
| Gui.CountText | pytest_gui_runner.py:648-676 | The loops over lines, keys and matches leave the counters at `Summary(text)`. |
| Gui.TallyLine | pytest_gui_runner.py:665-675 | The key loop of one candidate line adds that line's tally to the counters. |
| Gui.TallyStep | pytest_gui_runner.py:665-675 | Adding one key's total to its category extends the tally by that key. |
| Gui.AddToCategory | pytest_gui_runner.py:668-675 | The if-chain adds the value to the one counter its category names. |
| Gui.Appended | pytest_gui_runner.py:726-727 | Append then `[-5:]` is `Record`. |
| Gui.WithStreams | pytest_gui_runner.py:840-846 | The terminal gains the stdout section, then the stderr section, each only when its stream is non-empty. |
| Gui.NewestFirst | pytest_gui_runner.py:730-732 | Filling the list from the reversed history gives `DisplayOrder`. |
| Gui.PytestGui.constructor | pytest_gui_runner.py:67-91 | A new window has no target, empty streams, zero counters and an empty history. |
| Gui.PytestGui.SelectPath | pytest_gui_runner.py:792-807 | A cancelled pick changes nothing; otherwise the target and its kind are set and the terminal shows the ready text, all else unchanged. |
| Gui.PytestGui.OnModeChange | pytest_gui_runner.py:770-774 | Switching mode drops the target, clears the folder flag and the terminal, all else unchanged. |
| Gui.PytestGui.ParseSummary | pytest_gui_runner.py:641-683 | The counters become those of the given text, whatever they held before, with total their sum; all else unchanged. |
| Gui.PytestGui.SetCounts | pytest_gui_runner.py:679-683 | The four counters and their total are set from one count. |
| Gui.PytestGui.AddRunToHistory | pytest_gui_runner.py:691-732 | The history becomes `Record` of the old history and the entry built from the current counters and target; the list shows it newest first. |
| Gui.PytestGui.AppendRun | pytest_gui_runner.py:726-732 | The history part of recording, keeping the list equal to its display order. |
| Gui.PytestGui.OnHistorySelect | pytest_gui_runner.py:734-758 | When `Select` finds an output the terminal shows it under "> HISTORY VIEW _"; otherwise nothing changes. |
| Gui.PytestGui.RunTests | pytest_gui_runner.py:809-864 | Without a target nothing changes. Otherwise the terminal is the snapshot, the counters are those of both streams (their sum), the history gains the entry holding the snapshot, and the status line follows the status rule; a failed start always reports issues. |
| Gui.PytestGui.ShowHeader | pytest_gui_runner.py:820-828 | The terminal is reset to the banner, the active flag line and a blank line. |
| Gui.PytestGui.ShowStreams | pytest_gui_runner.py:837-846 | The streams are kept and their sections appended. |
| Gui.PytestGui.FinishRun | pytest_gui_runner.py:851-864 | The exit line is appended, the resulting text is recorded as the run's output, and the status line reports the result. |
| Gui.PytestGui.ShowExitCode | pytest_gui_runner.py:851-854 | The exit-code line is appended. |
| Gui.PytestGui.ReportStatus | pytest_gui_runner.py:861-864 | The completion message follows from the exit code and the counters. |

## Left out

- Tk widget construction, layout, styling, the boot sequence, scanline and cursor animations, and the CPU/RAM display: these are user interface, timers and randomness. The constructor's terminal therefore starts empty and its status line is the initial "> BOOTING _".
- The summary labels ("Total: …", "Passed: …") and the path label and button states: these are display text only. The counters they show are modelled.
- File and folder dialogs: `SelectPath` takes the path the dialog returned (empty when cancelled) and whether a folder was picked.
- Saving the output as text or HTML: this is file I/O.
- The `subprocess.run` call, `sys.executable` and `datetime.now()`: a foreign process and the clock. They are the `spawn`, `exe` and `timestamp` parameters.
- The warning box when no target is selected: a user-interface side effect. The model keeps the state unchanged.
- Tk's extra trailing newline on `get("1.0", END)`: the recorded snapshot is the terminal text as built.
- `update_idletasks` and the progressive display during a run: the model gives the state after the run.
- Text.IsDigit: `\d` of a str pattern also matches non-ASCII decimal digits. The model takes the ASCII digits only.
- Text.Lower: ASCII case mapping only. No non-ASCII character lower-cases into a letter of "normal", so the flag test is the same.
- Text.Basename: POSIX separators only.
- Text.DecimalValue: reads a digit run of any length. Python 3.11 and later refuse `int()` of a run of more than 4300 digits with a `ValueError` at pytest_gui_runner.py:667; `run_tests` then stops before the exit-code line, the history entry and the status line.
- Text.IntToString: formats an integer of any size. The same Python versions raise a `ValueError` when a count of more than 4300 digits is formatted at pytest_gui_runner.py:685-689 or :702-706, again stopping `run_tests` part way.
- Runner.FlagActive: the flag read from the combo box is always a string, so a missing (`None`) flag is modelled as the empty string.
