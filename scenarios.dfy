/**
 * Concrete runs of the harness: a command passing despite a trailing
 * newline, a command whose exit code differs, a suite with a duplicated
 * command, and a shell under test that cannot be launched.
 */
module Scenarios {
  import Trim
  import opened Shell
  import opened Harness
  import opened Report

  /** A command such as `echo hello`: bash prints a line and a newline, the
      shell under test prints the same line without the newline, both exit
      0 with no error text; the test passes. */
  lemma TrailingNewlinePasses(st: ShellTester, run: Shell, tc: TestCase, line: string)
    requires Trim.IsTrimmed(line)
    requires run(st.bashPath, Stdin(tc.command)) == Finished(line + "\n", "", Exited)
    requires run(st.minishellPath, Stdin(tc.command)) == Finished(line, "", Exited)
    ensures var r := CompareCase(st, run, tc);
            && r.bashOutput == line && r.minishellOutput == line
            && r.outputMatch && r.errorMatch && r.returnCodeMatch
            && StatusOf(r) == Pass
  {
    TrimmedLine(line);
    assert RunCommand(run, st.bashPath, tc.command) == Captured(line, "", 0);
    assert RunCommand(run, st.minishellPath, tc.command) == Captured(line, "", 0);
    JudgeMatchFlags(tc, Captured(line, "", 0), Captured(line, "", 0));
  }

  /** A trimmed line, with or without its newline, trims to itself. */
  lemma TrimmedLine(line: string)
    requires Trim.IsTrimmed(line)
    ensures Trim.TrimSpace(line + "\n") == line
    ensures Trim.TrimSpace(line) == line
    ensures Trim.TrimSpace("") == ""
  {
    assert Trim.AllSpace("\n");
    Trim.TrimSpaceDropsTrailing(line, "\n");
    assert line + [] == line;
    Trim.TrimSpaceDropsTrailing(line, []);
    Trim.TrimSpaceDropsTrailing([], []);
  }

  /** `exit 3`: bash exits 3 and the shell under test exits 0 with the same
      (empty) output. Only the exit codes differ, yet the test fails and its
      command gets a diff of the two empty outputs. */
  lemma ExitCodeMismatchFails(st: ShellTester, run: Shell, diff: Differ)
    requires run(st.bashPath, Stdin("exit 3")) == Finished("", "", ExitError(3))
    requires run(st.minishellPath, Stdin("exit 3")) == Finished("", "", Exited)
    ensures var results := CompareAll(st, run, [TestCase("exit 3", "exit code", "", "", 3)]);
            && "exit 3" in results
            && results["exit 3"].outputMatch
            && results["exit 3"].errorMatch
            && !results["exit 3"].returnCodeMatch
            && !results["exit 3"].expectedCodeMatch
            && StatusOf(results["exit 3"]) == Fail
            && Differences(results, diff) == map["exit 3" := diff("", "")]
  {
    Trim.TrimSpaceUnique([], [], []);
    var results := CompareAll(st, run, [TestCase("exit 3", "exit code", "", "", 3)]);
    assert results == map["exit 3" := CompareCase(st, run, TestCase("exit 3", "exit code", "", "", 3))];
  }

  /** A suite of two test cases with the same command (and, say,
      different descriptions) leaves one entry: the second one's. */
  lemma DuplicateCommandCollapses(st: ShellTester, run: Shell, cases: seq<TestCase>)
    requires |cases| == 2 && cases[0].command == cases[1].command
    ensures var results := CompareAll(st, run, cases);
            && results.Keys == {cases[1].command}
            && |results| == 1
            && results[cases[1].command] == CompareCase(st, run, cases[1])
            && results[cases[1].command].description == cases[1].description
  {
    CompareAllKeys(st, run, cases);
    CompareAllLastWins(st, run, cases, 1);
    assert Commands(cases) == {cases[1].command} by {
      assert cases[1].command in Commands(cases);
      forall c | c in Commands(cases) ensures c == cases[1].command {
        var i :| 0 <= i < |cases| && cases[i].command == c;
      }
    }
    assert |CompareAll(st, run, cases).Keys| == 1;
  }

  /** When the shell under test cannot be started while bash exits with a
      code other than 1, the test fails; the entry still exists and records
      the launch error as the shell under test's error text. */
  lemma LaunchFailureFails(st: ShellTester, run: Shell, tc: TestCase, message: string)
    requires run(st.minishellPath, Stdin(tc.command)) == StartFailed(message)
    requires run(st.bashPath, Stdin(tc.command)).Finished?
    requires ExitCodeOf(run(st.bashPath, Stdin(tc.command)).wait) != LaunchFailureCode
    ensures var r := CompareCase(st, run, tc);
            && r.minishellOutput == ""
            && r.minishellError == message
            && r.minishellReturnCode == LaunchFailureCode
            && StatusOf(r) == Fail
    ensures tc.command in CompareAll(st, run, [tc])
  {
  }
}
