/**
 * The submission coordinator: evaluateSubmission and runTests, which drive
 * one submission through the status store. The asynchronous chain of the
 * source is modelled as the sequence of status writes it performs.
 */
module Coordinator {
  import opened Values
  import E = Evaluator
  import opened Store
  import Registry

  /** The container call: image name, submitted code and test cases to what it gives back. */
  type ContainerRun = (string, string, seq<E.TestCase>) -> E.ContainerOutcome

  /** The `reduce` over the results, from left to right, starting from `allPassed`. */
  function FoldAllPassed(allPassed: bool, tests: seq<E.TestCaseResult>): (folded: bool)
    ensures folded ==> allPassed
    decreases |tests|
  {
    if tests == [] then allPassed
    else FoldAllPassed(tests[0].outcome == E.Passed && allPassed, tests[1..])
  }

  /** Every result's outcome is PASSED. */
  predicate EveryOutcomePassed(tests: seq<E.TestCaseResult>)
  {
    forall i :: 0 <= i < |tests| ==> tests[i].outcome == E.Passed
  }

  lemma {:induction false} FoldAllPassedMeans(allPassed: bool, tests: seq<E.TestCaseResult>)
    ensures FoldAllPassed(allPassed, tests) <==> allPassed && EveryOutcomePassed(tests)
    decreases |tests|
  {
    if tests != [] {
      FoldAllPassedMeans(tests[0].outcome == E.Passed && allPassed, tests[1..]);
      assert forall i :: 1 <= i < |tests| ==> tests[i] == tests[1..][i - 1];
    }
  }

  /** All tests passed: every outcome is PASSED (vacuously so for no results). */
  function AllTestsPassed(tests: seq<E.TestCaseResult>): (allPassed: bool)
    ensures allPassed == EveryOutcomePassed(tests)
  {
    FoldAllPassedMeans(true, tests);
    FoldAllPassed(true, tests)
  }

  /**
   * The status recorded once the results are in: PASSED when every test
   * passed, FAILED as soon as one did not (a test that ERRORED included).
   */
  function Verdict(tests: seq<E.TestCaseResult>): (status: SubmissionStatus)
    ensures status == Passed || status == Failed
    ensures status == Passed <==> EveryOutcomePassed(tests)
  {
    if AllTestsPassed(tests) then Passed else Failed
  }

  /** Position in the lifecycle QUEUED, RUNNING, then a terminal status. */
  function Stage(status: SubmissionStatus): nat
  {
    match status
    case Queued => 0
    case Running => 1
    case _ => 2
  }

  /**
   * The statuses written once runTests has returned or thrown: ERRORED if it
   * threw; otherwise the verdict, then ERRORED if the history POST failed.
   */
  function WritesAfterRun(run: E.RunResult, historyPosted: bool): (writes: seq<SubmissionStatus>)
    ensures 1 <= |writes| <= 2
    ensures forall i :: 0 <= i < |writes| ==> Stage(writes[i]) == 2
    ensures Last(writes) == Errored <==> run.Err? || !historyPosted
  {
    match run
    case Err(_) => [Errored]
    case Ok(results) => [Verdict(results.tests)] + (if historyPosted then [] else [Errored])
  }

  /**
   * The statuses the asynchronous chain writes: RUNNING once the container
   * call has returned, then what WritesAfterRun says.
   */
  function PipelineWrites(testCases: seq<E.TestCase>, container: E.ContainerOutcome, historyPosted: bool, eq: Equality)
    : (writes: seq<SubmissionStatus>)
    ensures 1 <= |writes| <= 3
    ensures writes[0] == Running <==> container.Completed?
    ensures forall i :: 0 <= i < |writes| ==> writes[i] != Queued
  {
    (if container.Completed? then [Running] else [])
    + WritesAfterRun(E.RunOutcome(testCases, container, eq), historyPosted)
  }

  /** The statuses one evaluateSubmission call writes for its id, in order: QUEUED, then the chain's. */
  function StatusWrites(testCases: seq<E.TestCase>, container: E.ContainerOutcome, historyPosted: bool, eq: Equality)
    : (writes: seq<SubmissionStatus>)
    ensures 2 <= |writes| <= 4
    ensures writes[0] == Queued && forall i :: 0 < i < |writes| ==> writes[i] != Queued
  {
    [Queued] + PipelineWrites(testCases, container, historyPosted, eq)
  }

  /**
   * The writes start with QUEUED and never return to it; RUNNING is written,
   * as the second write, exactly when the container call returned; and the
   * sequence never moves back to an earlier stage of the lifecycle.
   */
  lemma LifecycleOrder(testCases: seq<E.TestCase>, container: E.ContainerOutcome, historyPosted: bool, eq: Equality)
    ensures var writes := StatusWrites(testCases, container, historyPosted, eq);
      && 2 <= |writes| <= 4
      && writes[0] == Queued
      && (forall i :: 0 < i < |writes| ==> writes[i] != Queued)
      && (Running in writes <==> container.Completed?)
      && (container.Completed? ==> writes[1] == Running)
      && (forall i, j :: 0 <= i < j < |writes| ==> Stage(writes[i]) <= Stage(writes[j]))
  {
  }

  /**
   * The final status is ERRORED exactly when runTests threw or the history
   * POST failed; otherwise it is the verdict, PASSED exactly when every
   * result passed.
   */
  lemma FinalStatus(testCases: seq<E.TestCase>, container: E.ContainerOutcome, historyPosted: bool, eq: Equality)
    ensures var writes := StatusWrites(testCases, container, historyPosted, eq);
      var run := E.RunOutcome(testCases, container, eq);
      && (Last(writes) == Errored <==> run.Err? || !historyPosted)
      && (run.Ok? && historyPosted ==> Last(writes) == Verdict(run.results.tests))
      && (Last(writes) == Passed <==>
            run.Ok? && historyPosted && EveryOutcomePassed(run.results.tests))
  {
  }

  /**
   * A failed history POST is caught by the same handler as a failed run, so
   * the verdict already recorded is overwritten with ERRORED.
   */
  lemma HistoryFailureOverwritesVerdict(testCases: seq<E.TestCase>, container: E.ContainerOutcome, eq: Equality)
    requires E.RunOutcome(testCases, container, eq).Ok?
    ensures var writes := StatusWrites(testCases, container, false, eq);
      && writes == [Queued, Running, Verdict(E.RunOutcome(testCases, container, eq).results.tests), Errored]
      && Stage(writes[2]) == 2 && writes[2] != writes[3]
  {
  }

  /**
   * A test that exits with a non-zero code makes the submission FAILED, not
   * ERRORED, when the run and the history POST succeed.
   */
  lemma ErroredTestGivesFailed(
    testCases: seq<E.TestCase>, records: seq<E.OutputRecord>, executionTime: int, eq: Equality, k: nat)
    requires |records| <= |testCases|
    requires k < |records| && records[k].exitCode != 0
    ensures Last(StatusWrites(testCases, E.Completed(E.Parsed(records), executionTime), true, eq)) == Failed
  {
    E.ResultsOfAt(testCases, records, eq, k);
  }

  /**
   * Output with fewer records than test cases is not an error: an empty
   * output gives no results at all, and the submission is recorded PASSED.
   */
  lemma EmptyOutputPasses(testCases: seq<E.TestCase>, executionTime: int, eq: Equality)
    ensures StatusWrites(testCases, E.Completed(E.Parsed([]), executionTime), true, eq) == [Queued, Running, Passed]
  {
  }

  /**
   * runTests: runs the container for the submission's language, records
   * RUNNING once the call has returned, then classifies the parsed output.
   */
  method RunTests(
    store: SubmissionStore, code: string, language: string, testCases: seq<E.TestCase>,
    submissionId: string, docker: ContainerRun, eq: Equality)
    returns (r: E.RunResult)
    requires store.Valid()
    modifies store
    ensures store.Valid()
    ensures r == E.RunOutcome(testCases, docker(Registry.RunnerImage(language), code, testCases), eq)
    ensures docker(Registry.RunnerImage(language), code, testCases).Completed? ==>
              && store.submissions == old(store.submissions)[submissionId := Running]
              && store.log == old(store.log) + [StatusWrite(submissionId, Running)]
    ensures docker(Registry.RunnerImage(language), code, testCases).LaunchFailed? ==>
              store.submissions == old(store.submissions) && store.log == old(store.log)
  {
    var container := docker(Registry.RunnerImage(language), code, testCases);
    if container.LaunchFailed? {
      return E.Err(E.ContainerFailed);
    }
    store.SetSubmissionStatus(submissionId, Running);
    r := E.CollectResults(testCases, container.captured, container.executionTime, eq);
  }

  /**
   * evaluateSubmission for one submission, its asynchronous part run to the
   * end: `freshId` stands for the generated id, `historyPosted` for the
   * outcome of the history POST.
   */
  method EvaluateSubmission(
    store: SubmissionStore, code: string, language: string, testCases: seq<E.TestCase>,
    freshId: string, docker: ContainerRun, historyPosted: bool, eq: Equality)
    returns (submissionId: string)
    requires store.Valid()
    modifies store
    ensures store.Valid()
    ensures submissionId == freshId
    ensures var writes := StatusWrites(testCases, docker(Registry.RunnerImage(language), code, testCases), historyPosted, eq);
      && store.log == old(store.log) + WritesFor(submissionId, writes)
      && store.submissions == old(store.submissions)[submissionId := Last(writes)]
  {
    submissionId := freshId;
    store.SetSubmissionStatus(submissionId, Queued);
    RunPipeline(store, code, language, testCases, submissionId, docker, historyPosted, eq);
    ghost var pipeline := PipelineWrites(testCases, docker(Registry.RunnerImage(language), code, testCases), historyPosted, eq);
    WritesForAppend(submissionId, [Queued], pipeline);
    assert store.log == old(store.log) + [StatusWrite(submissionId, Queued)] + WritesFor(submissionId, pipeline);
  }

  /**
   * The chain started by evaluateSubmission: runTests, then the continuation
   * on success, or the catch handler, which records ERRORED.
   */
  method RunPipeline(
    store: SubmissionStore, code: string, language: string, testCases: seq<E.TestCase>,
    submissionId: string, docker: ContainerRun, historyPosted: bool, eq: Equality)
    requires store.Valid()
    modifies store
    ensures store.Valid()
    ensures var writes := PipelineWrites(testCases, docker(Registry.RunnerImage(language), code, testCases), historyPosted, eq);
      && writes != []
      && store.log == old(store.log) + WritesFor(submissionId, writes)
      && store.submissions == old(store.submissions)[submissionId := Last(writes)]
  {
    ghost var container := docker(Registry.RunnerImage(language), code, testCases);
    ghost var running := if container.Completed? then [Running] else [];
    var run := RunTests(store, code, language, testCases, submissionId, docker, eq);
    assert store.log == old(store.log) + WritesFor(submissionId, running);
    ghost var ran := store.log;
    match run
    case Err(_) =>
      store.SetSubmissionStatus(submissionId, Errored);
    case Ok(executionResults) =>
      RecordResults(store, submissionId, executionResults, historyPosted);
    ghost var after := WritesAfterRun(run, historyPosted);
    assert store.log == ran + WritesFor(submissionId, after);
    WritesForAppend(submissionId, running, after);
  }

  /**
   * The continuation run when runTests returns: records the verdict, then
   * posts the history entry; a failed POST falls into the catch handler,
   * which records ERRORED.
   */
  method RecordResults(store: SubmissionStore, submissionId: string, executionResults: E.ExecutionResults, historyPosted: bool)
    requires store.Valid()
    modifies store
    ensures store.Valid()
    ensures store.log == old(store.log) + WritesFor(submissionId, WritesAfterRun(E.Ok(executionResults), historyPosted))
    ensures store.submissions == old(store.submissions)[submissionId := Last(WritesAfterRun(E.Ok(executionResults), historyPosted))]
  {
    var allTestsPassed := AllTestsPassed(executionResults.tests);
    store.SetSubmissionStatus(submissionId, if allTestsPassed then Passed else Failed);
    if !historyPosted {
      store.SetSubmissionStatus(submissionId, Errored);
    }
  }
}
