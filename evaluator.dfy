/**
 * The result evaluator: turns the runner's parsed output into one classified
 * result per output record (runTests, after the container has returned).
 */
module Evaluator {
  import opened Values

  datatype TestCase = TestCase(input: Value, expectedOutput: Value)

  /** One record of the runner's output: the exit code of one test and what it printed. */
  datatype OutputRecord = OutputRecord(exitCode: int, output: Value)

  datatype TestOutcome = Passed | Failed | Errored

  /** A test case extended with the actual output and its outcome. */
  datatype TestCaseResult = TestCaseResult(input: Value, expectedOutput: Value, output: Value, outcome: TestOutcome)

  datatype ExecutionResults = ExecutionResults(tests: seq<TestCaseResult>, executionTime: int)

  /** The container's captured output after JSON parsing: a parse error, or a sequence of records. */
  datatype CapturedOutput = Unparseable | Parsed(records: seq<OutputRecord>)

  /** What the container call gives back: it failed, or it returned with its output and elapsed time. */
  datatype ContainerOutcome = LaunchFailed | Completed(captured: CapturedOutput, executionTime: int)

  /** Why runTests threw instead of returning results. */
  datatype RunError =
    | ContainerFailed           // the container call itself failed
    | MalformedOutput           // the captured output is not valid JSON
    | MissingTestCase(index: nat) // output record `index` has no test case to pair with

  datatype RunResult = Ok(results: ExecutionResults) | Err(error: RunError)

  /**
   * The outcome of one test: ERRORED on a non-zero exit code whatever was
   * printed, otherwise PASSED when the output equals the expected one and
   * FAILED when it does not.
   */
  function Classify(record: OutputRecord, testCase: TestCase, eq: Equality): (outcome: TestOutcome)
    ensures outcome == Errored <==> record.exitCode != 0
    ensures outcome == Passed <==> record.exitCode == 0 && eq(record.output, testCase.expectedOutput)
    ensures outcome == Failed <==> record.exitCode == 0 && !eq(record.output, testCase.expectedOutput)
  {
    if record.exitCode != 0 then Errored
    else if eq(record.output, testCase.expectedOutput) then Passed
    else Failed
  }

  /** A non-zero exit code decides the outcome alone: neither the output nor the expected output matters. */
  lemma ErroredIgnoresOutput(record: OutputRecord, output: Value, testCase: TestCase, expected: Value, eq: Equality)
    requires record.exitCode != 0
    ensures Classify(record, testCase, eq) == Errored
    ensures Classify(record.(output := output), testCase.(expectedOutput := expected), eq) == Errored
  {
  }

  /** The result pushed for one record and the test case at the same index. */
  function ResultFor(testCase: TestCase, record: OutputRecord, eq: Equality): TestCaseResult
  {
    TestCaseResult(testCase.input, testCase.expectedOutput, record.output, Classify(record, testCase, eq))
  }

  /** The results built for `records`, each paired with the test case at its index. */
  function ResultsOf(testCases: seq<TestCase>, records: seq<OutputRecord>, eq: Equality): (results: seq<TestCaseResult>)
    requires |records| <= |testCases|
    ensures |results| == |records|
    decreases |records|
  {
    if records == [] then []
    else
      var last := |records| - 1;
      ResultsOf(testCases, records[..last], eq) + [ResultFor(testCases[last], records[last], eq)]
  }

  /**
   * Entry i of the results copies the input and the expected output of test
   * case i and the output of record i, and carries record i's outcome.
   */
  lemma {:induction false} ResultsOfAt(testCases: seq<TestCase>, records: seq<OutputRecord>, eq: Equality, i: nat)
    requires |records| <= |testCases|
    requires i < |records|
    ensures ResultsOf(testCases, records, eq)[i].input == testCases[i].input
    ensures ResultsOf(testCases, records, eq)[i].expectedOutput == testCases[i].expectedOutput
    ensures ResultsOf(testCases, records, eq)[i].output == records[i].output
    ensures ResultsOf(testCases, records, eq)[i].outcome == Classify(records[i], testCases[i], eq)
  {
    var last := |records| - 1;
    if i < last {
      ResultsOfAt(testCases, records[..last], eq, i);
    }
  }

  /**
   * What runTests makes of the captured output: a parse error or an output
   * record without a test case makes it fail; otherwise one result per record.
   */
  function OutputOutcome(testCases: seq<TestCase>, captured: CapturedOutput, executionTime: int, eq: Equality): (r: RunResult)
    ensures r.Ok? <==> captured.Parsed? && |captured.records| <= |testCases|
    ensures r.Ok? ==> |r.results.tests| == |captured.records| && r.results.executionTime == executionTime
    ensures r.Err? ==> r.error != ContainerFailed
  {
    match captured
    case Unparseable => Err(MalformedOutput)
    case Parsed(records) =>
      if |records| > |testCases| then Err(MissingTestCase(|testCases|))
      else Ok(ExecutionResults(ResultsOf(testCases, records, eq), executionTime))
  }

  /** What runTests makes of the whole container call. */
  function RunOutcome(testCases: seq<TestCase>, container: ContainerOutcome, eq: Equality): (r: RunResult)
    ensures r == Err(ContainerFailed) <==> container.LaunchFailed?
    ensures r.Ok? ==> container.Completed? && r.results.executionTime == container.executionTime
  {
    match container
    case LaunchFailed => Err(ContainerFailed)
    case Completed(captured, executionTime) => OutputOutcome(testCases, captured, executionTime, eq)
  }

  /**
   * The loop over the parsed output: it walks the records in order, pairs
   * record i with test case i, and pushes one result per record.
   */
  method CollectResults(testCases: seq<TestCase>, captured: CapturedOutput, executionTime: int, eq: Equality)
    returns (r: RunResult)
    ensures r == OutputOutcome(testCases, captured, executionTime, eq)
  {
    if captured.Unparseable? {
      return Err(MalformedOutput);
    }
    var output := captured.records;
    var testResults: seq<TestCaseResult> := [];
    var testIndex := 0;
    while testIndex < |output|
      invariant testIndex <= |output| && testIndex <= |testCases|
      invariant testResults == ResultsOf(testCases, output[..testIndex], eq)
    {
      if testIndex == |testCases| {
        // testCases[testIndex] is undefined: reading its expectedOutput throws
        // when the record's exit code is 0, reading its input otherwise
        return Err(MissingTestCase(testIndex));
      }
      var testResult := output[testIndex];
      var testCase := testCases[testIndex];
      testResults := testResults + [ResultFor(testCase, testResult, eq)];
      assert output[..testIndex + 1][..testIndex] == output[..testIndex];
      testIndex := testIndex + 1;
    }
    assert output[..testIndex] == output;
    return Ok(ExecutionResults(testResults, executionTime));
  }

  /**
   * runTests returns results exactly when the container returned, its output
   * parsed, and it has no more records than there are test cases; the results
   * then have one entry per record (fewer than the test cases when the output
   * is short) and carry the measured time.
   */
  lemma RunSucceedsExactly(testCases: seq<TestCase>, container: ContainerOutcome, eq: Equality)
    ensures RunOutcome(testCases, container, eq).Ok?
        <==> container.Completed? && container.captured.Parsed? && |container.captured.records| <= |testCases|
    ensures RunOutcome(testCases, container, eq).Ok? ==>
              |RunOutcome(testCases, container, eq).results.tests| == |container.captured.records| <= |testCases|
              && RunOutcome(testCases, container, eq).results.executionTime == container.executionTime
  {
  }

  /** Why runTests fails, case by case. */
  lemma RunFailureCauses(testCases: seq<TestCase>, container: ContainerOutcome, eq: Equality)
    ensures container.LaunchFailed? ==> RunOutcome(testCases, container, eq) == Err(ContainerFailed)
    ensures container.Completed? && container.captured.Unparseable? ==>
              RunOutcome(testCases, container, eq) == Err(MalformedOutput)
    ensures container.Completed? && container.captured.Parsed? && |container.captured.records| > |testCases| ==>
              RunOutcome(testCases, container, eq) == Err(MissingTestCase(|testCases|))
  {
  }
}
