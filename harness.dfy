/**
 * The differential executor: every test case is run through the
 * reference shell (bash) and through the shell under test (minishell),
 * and the two captured results are compared with each other and with
 * what the test case expects. Results are kept in a map keyed by command
 * text, so of several test cases with the same command only the last
 * one survives.
 */
module Harness {
  import Trim
  import opened Shell

  /** One declared test. An empty expected text, or an expected code of 0,
      means that nothing is expected. */
  datatype TestCase = TestCase(
    command: string,
    description: string,
    expectedOutput: string,
    expectedError: string,
    expectedCode: int)

  /** What the harness records about one command. */
  datatype TestResult = TestResult(
    description: string,
    bashOutput: string,
    minishellOutput: string,
    bashError: string,
    minishellError: string,
    bashReturnCode: int,
    minishellReturnCode: int,
    outputMatch: bool,
    errorMatch: bool,
    returnCodeMatch: bool,
    expectedOutputMatch: bool,
    expectedErrorMatch: bool,
    expectedCodeMatch: bool)

  /** The two shells under comparison. */
  datatype ShellTester = ShellTester(bashPath: string, minishellPath: string)

  /** Produces the diff text between the two shells' outputs. */
  type Differ = (string, string) -> string

  /** A result passes when the two shells agree on output, error text and
      exit code; the expectation flags play no part. */
  predicate Passes(r: TestResult) {
    r.outputMatch && r.errorMatch && r.returnCodeMatch
  }

  /** The three shell-versus-shell flags of a result agree with the values
      it stores. */
  predicate FlagsConsistent(r: TestResult) {
    && (r.outputMatch <==> r.bashOutput == r.minishellOutput)
    && (r.errorMatch <==> r.bashError == r.minishellError)
    && (r.returnCodeMatch <==> r.bashReturnCode == r.minishellReturnCode)
  }

  /** The result recorded for test case `tc` given both shells' captures. */
  function Judge(tc: TestCase, bash: Captured, mini: Captured): TestResult {
    TestResult(
      tc.description,
      bash.stdout, mini.stdout,
      bash.stderr, mini.stderr,
      bash.code, mini.code,
      bash.stdout == mini.stdout,
      bash.stderr == mini.stderr,
      bash.code == mini.code,
      tc.expectedOutput == "" || mini.stdout == tc.expectedOutput,
      tc.expectedError == "" || mini.stderr == tc.expectedError,
      tc.expectedCode == 0 || mini.code == tc.expectedCode)
  }

  /** One iteration of `compareOutput`: run the command in both shells. */
  function CompareCase(st: ShellTester, run: Shell, tc: TestCase): TestResult {
    Judge(tc, RunCommand(run, st.bashPath, tc.command), RunCommand(run, st.minishellPath, tc.command))
  }

  /** The three match flags are exactly the equalities of what the two shells
      produced, and the result stores both captures unchanged. */
  lemma JudgeMatchFlags(tc: TestCase, bash: Captured, mini: Captured)
    ensures var r := Judge(tc, bash, mini);
            && r.description == tc.description
            && r.bashOutput == bash.stdout && r.minishellOutput == mini.stdout
            && r.bashError == bash.stderr && r.minishellError == mini.stderr
            && r.bashReturnCode == bash.code && r.minishellReturnCode == mini.code
            && FlagsConsistent(r)
            && (Passes(r) <==> bash == mini)
  {
  }

  /** An unspecified expectation (empty text, code 0) is met whatever the
      shell under test produced; a specified one is met exactly when the
      shell under test produced that value. */
  lemma JudgeExpectations(tc: TestCase, bash: Captured, mini: Captured)
    ensures var r := Judge(tc, bash, mini);
            && (tc.expectedOutput == "" ==> r.expectedOutputMatch)
            && (tc.expectedOutput != "" ==> (r.expectedOutputMatch <==> mini.stdout == tc.expectedOutput))
            && (tc.expectedError == "" ==> r.expectedErrorMatch)
            && (tc.expectedError != "" ==> (r.expectedErrorMatch <==> mini.stderr == tc.expectedError))
            && (tc.expectedCode == 0 ==> r.expectedCodeMatch)
            && (tc.expectedCode != 0 ==> (r.expectedCodeMatch <==> mini.code == tc.expectedCode))
  {
  }

  /** Output that differs between the shells only by leading or trailing
      white space still matches. */
  lemma PaddingStillMatches(st: ShellTester, run: Shell, tc: TestCase,
                            core: string, p1: string, q1: string, p2: string, q2: string)
    requires run(st.bashPath, Stdin(tc.command)).Finished?
    requires run(st.minishellPath, Stdin(tc.command)).Finished?
    requires run(st.bashPath, Stdin(tc.command)).stdout == p1 + core + q1
    requires run(st.minishellPath, Stdin(tc.command)).stdout == p2 + core + q2
    requires Trim.AllSpace(p1) && Trim.AllSpace(q1) && Trim.AllSpace(p2) && Trim.AllSpace(q2)
    ensures CompareCase(st, run, tc).outputMatch
  {
    Trim.TrimSpaceIgnoresPadding(p1, core, q1);
    Trim.TrimSpaceIgnoresPadding(p2, core, q2);
  }

  /** The commands of a suite. */
  function Commands(cases: seq<TestCase>): set<string> {
    set i | 0 <= i < |cases| :: cases[i].command
  }

  /** No later test case of the suite has the same command as `cases[i]`. */
  predicate LastOccurrence(cases: seq<TestCase>, i: int) {
    0 <= i < |cases| && forall j :: i < j < |cases| ==> cases[j].command != cases[i].command
  }

  /** The result table after processing `cases` in order: each test case
      writes its result under its command, over whatever was there. */
  function CompareAll(st: ShellTester, run: Shell, cases: seq<TestCase>): map<string, TestResult>
    decreases |cases|
  {
    if cases == [] then map[]
    else
      var last := cases[|cases| - 1];
      CompareAll(st, run, cases[..|cases| - 1])[last.command := CompareCase(st, run, last)]
  }

  /** The table has one entry per distinct command of the suite. */
  lemma {:induction false} CompareAllKeys(st: ShellTester, run: Shell, cases: seq<TestCase>)
    ensures CompareAll(st, run, cases).Keys == Commands(cases)
    decreases |cases|
  {
    if cases != [] {
      var init := cases[..|cases| - 1];
      CompareAllKeys(st, run, init);
      assert Commands(cases) == Commands(init) + {cases[|cases| - 1].command} by {
        forall c | c in Commands(cases) ensures c in Commands(init) + {cases[|cases| - 1].command} {
          var i :| 0 <= i < |cases| && cases[i].command == c;
          if i < |cases| - 1 { assert init[i] == cases[i]; }
        }
        forall c | c in Commands(init) ensures c in Commands(cases) {
          var i :| 0 <= i < |init| && init[i].command == c;
          assert cases[i] == init[i];
        }
      }
    }
  }

  /** Last write wins: a command's entry is the result of the last test case
      carrying that command, description included. */
  lemma {:induction false} CompareAllLastWins(st: ShellTester, run: Shell, cases: seq<TestCase>, i: int)
    requires LastOccurrence(cases, i)
    ensures cases[i].command in CompareAll(st, run, cases)
    ensures CompareAll(st, run, cases)[cases[i].command] == CompareCase(st, run, cases[i])
    ensures CompareAll(st, run, cases)[cases[i].command].description == cases[i].description
    decreases |cases|
  {
    var init := cases[..|cases| - 1];
    if i < |cases| - 1 {
      assert cases[i] == init[i];
      assert LastOccurrence(init, i) by {
        forall j | i < j < |init| ensures init[j].command != init[i].command {
          assert init[j] == cases[j];
        }
      }
      CompareAllLastWins(st, run, init, i);
    }
  }

  /** Every entry of the table stores flags that agree with its values. */
  lemma {:induction false} CompareAllConsistent(st: ShellTester, run: Shell, cases: seq<TestCase>)
    ensures forall k :: k in CompareAll(st, run, cases) ==> FlagsConsistent(CompareAll(st, run, cases)[k])
    decreases |cases|
  {
    if cases != [] {
      CompareAllConsistent(st, run, cases[..|cases| - 1]);
    }
  }

  /** `compareOutput`: walks the test cases in order, running each command in
      both shells and writing its result into the table under the command. */
  method CompareOutput(st: ShellTester, run: Shell, testCases: seq<TestCase>)
      returns (results: map<string, TestResult>)
    ensures results == CompareAll(st, run, testCases)
    ensures results.Keys == Commands(testCases)
    ensures forall i :: LastOccurrence(testCases, i) ==>
              results[testCases[i].command] == CompareCase(st, run, testCases[i])
    ensures forall k :: k in results ==> FlagsConsistent(results[k])
  {
    results := map[];
    for n := 0 to |testCases|
      invariant results == CompareAll(st, run, testCases[..n])
    {
      var tc := testCases[n];
      var bashOut := RunCommand(run, st.bashPath, tc.command);
      var miniOut := RunCommand(run, st.minishellPath, tc.command);
      results := results[tc.command := Judge(tc, bashOut, miniOut)];
      assert testCases[..n + 1][..n] == testCases[..n];
    }
    assert testCases[..|testCases|] == testCases;
    CompareAllKeys(st, run, testCases);
    CompareAllConsistent(st, run, testCases);
    forall i | LastOccurrence(testCases, i)
      ensures results[testCases[i].command] == CompareCase(st, run, testCases[i])
    {
      CompareAllLastWins(st, run, testCases, i);
    }
  }

  /** The diff table: one entry, the diff of the two outputs, for every
      result that does not pass. */
  function Differences(results: map<string, TestResult>, diff: Differ): map<string, string> {
    map k | k in results && !Passes(results[k]) :: diff(results[k].bashOutput, results[k].minishellOutput)
  }

  /** `generateDiff`: visits the results in an unspecified order and records
      a diff for each one that does not pass. */
  method GenerateDiff(results: map<string, TestResult>, diff: Differ)
      returns (differences: map<string, string>)
    ensures differences == Differences(results, diff)
    ensures differences.Keys <= results.Keys
    ensures forall k :: k in differences <==> k in results && !Passes(results[k])
    ensures forall k :: k in differences ==>
              differences[k] == diff(results[k].bashOutput, results[k].minishellOutput)
  {
    differences := map[];
    var todo := results.Keys;
    while todo != {}
      invariant todo <= results.Keys
      invariant forall k :: k in differences <==> k in results && k !in todo && !Passes(results[k])
      invariant forall k :: k in differences ==>
                  differences[k] == diff(results[k].bashOutput, results[k].minishellOutput)
      decreases todo
    {
      var cmd :| cmd in todo;
      var result := results[cmd];
      if !Passes(result) {
        differences := differences[cmd := diff(result.bashOutput, result.minishellOutput)];
      }
      todo := todo - {cmd};
    }
  }
}
