# mini_tester: a Dafny model of the comparison engine

mini_tester is a differential test harness for a hand-written shell. It
runs each declared command through a reference shell (bash) and through
the shell under test (minishell). It captures both shells' output, error
text and exit code, and compares them with each other and with the
expectations the test case declares. It then selects the failing commands
for a diff and counts passes and failures.

This project models the engine in `app/main.go` once process execution is
abstracted:

- `trim.dfy` (module `Trim`): Go's `strings.TrimSpace` (app/main.go:96)
  as `Trim.TrimSpace`, built from `Trim.TrimLeft` and `Trim.TrimRight`.
  Go's `unicode.IsSpace` is `Trim.IsSpace`, written out as the Unicode
  White_Space table.
- `shell.dfy` (module `Shell`): the result-shaping part of `runCommand`
  (app/main.go:65-97). A shell is an abstract, deterministic function
  `Shell` from (executable path, standard-input text) to a `Process`
  outcome. The outcome is either a launch failure with its message (pipe,
  start or write) or a finished run with its raw stdout, stderr and the
  way `Wait` returned. `Shell.Stdin` builds the standard input, the
  command followed by `"\nexit\n"` (app/main.go:81). `Shell.ExitCodeOf`
  reads the exit code from `Wait` (app/main.go:87-94), `Shell.Capture`
  shapes an outcome into the returned triple (app/main.go:72-96), and
  `Shell.RunCommand` is `runCommand` itself.
- `harness.dfy` (module `Harness`): the `TestCase` and `TestResult`
  records. `Harness.Judge` builds one result from the two captures
  (app/main.go:107-121), and `Harness.CompareCase` is one iteration of
  the loop (app/main.go:103-121). `Harness.CompareOutput` is
  `compareOutput` (app/main.go:100-125): a method with a loop over the
  suite and a `map` accumulator, proved equal to the fold
  `Harness.CompareAll`. `Harness.GenerateDiff` is `generateDiff`
  (app/main.go:128-140): a method looping over the result keys in an
  unspecified order, proved equal to the map comprehension
  `Harness.Differences`. `Harness.Passes` is the pass condition
  (app/main.go:133, 186). The diff text is an opaque parameter `Differ`.
- `report.dfy` (module `Report`): `Report.Summarize`, the pass-counting
  loop of `main` (app/main.go:183-189), with `Report.Passed`, the set of
  passing commands it counts; `Report.StatusOf`, the PASS/FAIL status
  (app/main.go:195-199); and `Report.RunSuite`, the run of `main` after
  loading, which builds the summary and the saved report object
  (app/main.go:178-238).
- `scenarios.dfy` (module `Scenarios`): concrete runs. They cover a
  command that passes despite a trailing newline, an `exit 3` whose exit
  code differs, a duplicated command and a shell that cannot be started.

Three details of `runCommand` and `generateDiff` that the model keeps:

- On a launch failure, the error text is returned as it is, not trimmed.
  Only a finished run's two streams are trimmed.
- When `Wait` returns an error that is not an `*exec.ExitError`, the exit
  code stays 0.
- A test whose only mismatch is the exit code still gets an entry in the
  diff table, holding the diff of two identical outputs
  (`Scenarios.ExitCodeMismatchFails`).

## Model

| member | source | states |
|---|---|---|
| Trim.TrimLeftSpec | app/main.go:96 | the left half of TrimSpace returns the suffix from the first non-space character; everything cut off is white space |
| Trim.TrimRightSpec | app/main.go:96 | the right half returns the prefix up to the last non-space character; everything cut off is white space |
| Trim.TrimSpaceSpec | app/main.go:96 | the trimmed text neither starts nor ends with white space; it is an infix of the input, and the input outside it is white space |
| Trim.TrimSpaceUnique | app/main.go:96 | a trimmed string surrounded by any white space trims to exactly itself, so the characterisation determines TrimSpace |
| Trim.TrimSpaceIdempotent | app/main.go:96 | trimming twice gives the same result as trimming once |
| Trim.TrimSpaceIgnoresPadding | app/main.go:96 | adding white space in front of or behind a string does not change what it trims to |
| Shell.CaptureShape | app/main.go:72-96 | a pipe, start or write failure yields empty stdout, the error message and exit code 1; a finished run yields both streams trimmed; its code is the ExitError's code, and 0 when Wait returned nil or another error; stdout is always trimmed |
| Shell.RunCommandTrimmed | app/main.go:81-96 | the stdout of every run, and the stderr of a finished run, are fixed points of TrimSpace |
| Harness.JudgeMatchFlags | app/main.go:107-117 | a result stores the description and both shells' captures unchanged; each of the three match flags is exactly the equality of the corresponding values; a result passes iff both captures are equal |
| Harness.JudgeExpectations | app/main.go:118-120 | an empty expected output or error, or an expected code of 0, gives a true flag whatever the shell under test produced; otherwise the flag is equality with its value |
| Harness.PaddingStillMatches | app/main.go:104-115 | two finished runs whose outputs differ only by leading or trailing white space get a true output-match flag |
| Harness.CompareAllKeys | app/main.go:101-107 | the key set of the result table is exactly the set of commands of the suite |
| Harness.CompareAllLastWins | app/main.go:103-121 | for a command that occurs several times, the stored result is the last such test case's, description included |
| Harness.CompareAllConsistent | app/main.go:107-121 | every entry of the table has its three match flags in agreement with its stored values |
| Harness.CompareOutput | app/main.go:100-125 | the loop builds exactly the fold CompareAll; so its keys are the suite's commands, last write wins, and all entries are flag-consistent |
| Harness.GenerateDiff | app/main.go:128-140 | a command gets a diff iff it is a result key and one of its three match flags is false; so diff keys are a subset of result keys; the diff is that of bash's and minishell's stdout |
| Report.Summarize | app/main.go:183-189 | passed is the number of entries with all three match flags true, total is the number of entries, failed is the difference, and 0 <= passed <= total |
| Report.PassedBounded | app/main.go:183-189 | no more tests pass than there are results |
| Report.FailedIsDifferences | app/main.go:234 | total minus passed equals the number of diff entries |
| Report.StatusAgreesWithDifferences | app/main.go:195-199 | an entry's status is PASS iff its command has no diff iff it is counted as passed |
| Report.RunSuite | app/main.go:178-238 | the saved report holds the result table and the diff table of the suite; its total is the number of distinct commands, its failed count is the number of diffs, and passed plus failed is total |
| Scenarios.TrailingNewlinePasses | app/main.go:104-117 | for any command (`echo hello`, say), bash printing a line with a newline and minishell printing it without, both exiting 0 with no error text, gives all three flags true and PASS |
| Scenarios.ExitCodeMismatchFails | app/main.go:128-137 | `exit 3` answered by exit 0 with the same empty output fails on the return-code flag alone (output and error text both match), and still gets an (empty-output) diff |
| Scenarios.DuplicateCommandCollapses | app/main.go:103-107 | two test cases with one command leave a single entry, holding the second one's result and description |
| Scenarios.LaunchFailureFails | app/main.go:77-79 | a shell under test that cannot be started records empty output, the launch error and code 1, and fails against a bash exit code other than 1; the command still has an entry |

## Left out

- Process launching, the stdin pipe, `cmd.Start`, `cmd.Wait` and output buffering (app/main.go:66-94) are operating-system I/O. They are replaced by the abstract `Shell` function and its `Process` outcome.
- `NewShellTester` and its `os.Stat` existence checks (app/main.go:54-62) are filesystem I/O, as are the fatal exits they cause in `main`.
- `loadTestCases` with `os.ReadFile` and `json.Unmarshal` (app/main.go:143-155) and the JSON report writing (app/main.go:240-249) are file I/O and a foreign serialiser. The model takes the suite as a sequence. It builds the report object (`Report.TestReport`) but does not serialise it.
- The diff library calls `DiffMain` and `DiffPrettyText` (app/main.go:134-135) come from a third-party library whose source is not part of this model. The diff text is the opaque parameter `Differ` applied to the two stdouts.
- Flag parsing and all console output (app/main.go:158-162, 192-214) are presentation. So is the print order, which follows Go's random map iteration order. The loops over maps are modelled by choosing any remaining key.
- cmd/echo.go is a command-line scaffold that prints a fixed string. It has no logic.
- Go strings are byte sequences decoded as UTF-8; the model's strings are sequences of Unicode characters. Invalid UTF-8 is not modelled; Go's decoder turns each bad byte into U+FFFD, which is not white space.
- Go's `int` is platform-sized (64-bit on common targets). Exit codes and counts are modelled as unbounded integers. The only arithmetic is the increment of the passed count (app/main.go:187) and total minus passed; both stay between 0 and the number of results.
- A shell is assumed to terminate on every input and to depend on nothing but its path and its standard input; determinism of repeated runs then holds by construction. A shell that never exits, which would make `cmd.Wait` (app/main.go:87) block the whole run, is not modelled, nor are effects one command has on the next through the shared file system (bash runs right before minishell, app/main.go:104-105).
