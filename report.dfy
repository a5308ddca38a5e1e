/**
 * The aggregation `main` performs once the result and diff tables exist:
 * counting the passed tests, the PASS/FAIL status of each entry, and the
 * report object (summary, results, differences) that can be saved.
 */
module Report {
  import opened Shell
  import opened Harness

  datatype Status = Pass | Fail

  /** The status printed for one result. */
  function StatusOf(r: TestResult): Status {
    if !r.outputMatch || !r.errorMatch || !r.returnCodeMatch then Fail else Pass
  }

  /** The commands whose results pass. */
  function Passed(results: map<string, TestResult>): set<string> {
    set k | k in results && Passes(results[k])
  }

  datatype Summary = Summary(totalTests: int, passedTests: int, failedTests: int)

  /** The object `main` serialises when an output path is given. */
  datatype TestReport = TestReport(
    summary: Summary,
    results: map<string, TestResult>,
    differences: map<string, string>)

  /** The counting loop of `main`: the total is the number of entries, the
      passed count is the number of passing entries, and the failed count is
      what remains. */
  method Summarize(results: map<string, TestResult>) returns (summary: Summary)
    ensures summary.totalTests == |results|
    ensures summary.passedTests == |Passed(results)|
    ensures 0 <= summary.passedTests <= summary.totalTests
    ensures summary.failedTests == summary.totalTests - summary.passedTests
  {
    var totalTests := |results|;
    var passedTests := 0;
    var todo := results.Keys;
    ghost var counted: set<string> := {};
    while todo != {}
      invariant todo <= results.Keys
      invariant counted == set k | k in results && k !in todo && Passes(results[k])
      invariant passedTests == |counted|
      decreases todo
    {
      var cmd :| cmd in todo;
      var r := results[cmd];
      if r.outputMatch && r.errorMatch && r.returnCodeMatch {
        passedTests := passedTests + 1;
        counted := counted + {cmd};
      }
      todo := todo - {cmd};
    }
    assert counted == Passed(results);
    PassedBounded(results);
    summary := Summary(totalTests, passedTests, totalTests - passedTests);
  }

  /** No more tests pass than there are results. */
  lemma PassedBounded(results: map<string, TestResult>)
    ensures |Passed(results)| <= |results|
  {
    assert Passed(results) <= results.Keys;
    assert |results| == |results.Keys|;
    SubsetCardinality(Passed(results), results.Keys);
  }

  lemma {:induction false} SubsetCardinality<T>(a: set<T>, b: set<T>)
    requires a <= b
    ensures |a| <= |b|
    decreases |b|
  {
    if a != {} {
      var x :| x in a;
      SubsetCardinality(a - {x}, b - {x});
    }
  }

  /** The failed count equals the number of diff entries: the failing
      results are exactly the ones that get a diff. */
  lemma FailedIsDifferences(results: map<string, TestResult>, diff: Differ)
    ensures |results| - |Passed(results)| == |Differences(results, diff)|
  {
    var d := Differences(results, diff).Keys;
    assert results.Keys == Passed(results) + d;
    assert Passed(results) * d == {};
    assert |results| == |results.Keys|;
    assert |Differences(results, diff)| == |d|;
  }

  /** An entry prints PASS exactly when it has no diff. */
  lemma StatusAgreesWithDifferences(results: map<string, TestResult>, diff: Differ, cmd: string)
    requires cmd in results
    ensures StatusOf(results[cmd]) == Pass <==> cmd !in Differences(results, diff)
    ensures StatusOf(results[cmd]) == Pass <==> cmd in Passed(results)
  {
  }

  /** The whole run of `main` after loading: compare, diff, count. */
  method RunSuite(st: ShellTester, run: Shell, diff: Differ, testCases: seq<TestCase>)
      returns (report: TestReport)
    ensures report.results == CompareAll(st, run, testCases)
    ensures report.results.Keys == Commands(testCases)
    ensures report.differences == Differences(report.results, diff)
    ensures report.differences.Keys <= report.results.Keys
    ensures report.summary.totalTests == |Commands(testCases)|
    ensures report.summary.passedTests == |Passed(report.results)|
    ensures report.summary.failedTests == |report.differences|
    ensures 0 <= report.summary.passedTests <= report.summary.totalTests
    ensures report.summary.passedTests + report.summary.failedTests == report.summary.totalTests
  {
    var results := CompareOutput(st, run, testCases);
    var differences := GenerateDiff(results, diff);
    var summary := Summarize(results);
    FailedIsDifferences(results, diff);
    assert |results| == |results.Keys|;
    report := TestReport(summary, results, differences);
  }
}
