/** Running pytest on a target: the flag test, the command line handed to the
    child process, and what comes back when the process cannot be started.
    The process itself is a parameter: `spawn` gives the outcome of running
    a command line. */
module Runner {
  import opened Text

  /** A flag goes on the command line unless it is empty or, ignoring case,
      "normal". */
  predicate FlagActive(flag: string) {
    flag != [] && Lower(flag) != "normal"
  }

  function UpperChar(c: char): char {
    if 'a' <= c <= 'z' then (c as int - 32) as char else c
  }

  /** `flag` spells `word` (lower-case letters) in any mix of cases. */
  predicate CaseVariant(flag: string, word: string) {
    |flag| == |word| && forall i :: 0 <= i < |word| ==> flag[i] == word[i] || flag[i] == UpperChar(word[i])
  }

  lemma {:induction false} LowerCharIsLetter(c: char, w: char)
    requires 'a' <= w <= 'z'
    ensures LowerChar(c) == w <==> c == w || c == UpperChar(w)
  {
  }

  /** The flags left off the command line are exactly the empty one and the
      spellings of "normal" in any case. */
  lemma {:induction false} FlagInactiveExactly(flag: string)
    ensures !FlagActive(flag) <==> flag == [] || CaseVariant(flag, "normal")
  {
    var word := "normal";
    if |flag| == |word| {
      forall i | 0 <= i < |word|
        ensures Lower(flag)[i] == word[i] <==> flag[i] == word[i] || flag[i] == UpperChar(word[i])
      {
        LowerCharIsLetter(flag[i], word[i]);
      }
      if CaseVariant(flag, word) {
        assert Lower(flag) == word;
      } else {
        var i :| 0 <= i < |word| && !(flag[i] == word[i] || flag[i] == UpperChar(word[i]));
        assert Lower(flag)[i] != word[i];
      }
    } else {
      assert |Lower(flag)| != |word|;
    }
  }

  /** The command line: the interpreter, "-m pytest", the flag when it is
      active, and the target last; whether the target is a folder plays no
      part. */
  function Command(exe: string, target: string, flag: string): (cmd: seq<string>)
    ensures |cmd| == if FlagActive(flag) then 5 else 4
    ensures cmd[..3] == [exe, "-m", "pytest"]
    ensures cmd[|cmd| - 1] == target
    ensures FlagActive(flag) ==> cmd[3] == flag
  {
    [exe, "-m", "pytest"] + (if FlagActive(flag) then [flag] else []) + [target]
  }

  /** What starting the child process can give: its captured streams and
      return code, or the message of the exception raised instead. */
  datatype Spawn = Completed(stdout: string, stderr: string, returnCode: int) | Raised(message: string)

  datatype RunResult = RunResult(stdout: string, stderr: string, returnCode: int)

  const ErrorPrefix := "Unexpected error running pytest: "

  /** The triple reported for an outcome: the process's own, or an empty
      output, the exception's message behind a fixed prefix and return code 1. */
  function Outcome(s: Spawn): (r: RunResult)
    ensures s.Completed? ==> r == RunResult(s.stdout, s.stderr, s.returnCode)
    ensures s.Raised? ==> r.stdout == [] && r.returnCode == 1
    ensures s.Raised? ==> |ErrorPrefix| <= |r.stderr| && r.stderr[..|ErrorPrefix|] == ErrorPrefix
                          && r.stderr[|ErrorPrefix|..] == s.message
  {
    match s
    case Completed(out, err, code) => RunResult(out, err, code)
    case Raised(msg) => RunResult("", ErrorPrefix + msg, 1)
  }

  /** Builds the command line step by step and runs it. */
  method RunPytest(exe: string, target: string, isDirectory: bool, flag: string,
                   spawn: seq<string> -> Spawn)
    returns (result: RunResult)
    ensures result == Outcome(spawn(Command(exe, target, flag)))
  {
    var cmd := [exe, "-m", "pytest"];
    if flag != [] && Lower(flag) != "normal" {
      cmd := cmd + [flag];
    }
    cmd := cmd + [target];
    var outcome := spawn(cmd);
    match outcome {
      case Completed(out, err, code) =>
        result := RunResult(out, err, code);
      case Raised(msg) =>
        result := RunResult("", ErrorPrefix + msg, 1);
    }
  }
}
