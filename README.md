# Submission tester, modelled in Dafny

A model of the submission-testing service's core (`submission-testing/src/submissionTester.ts`).
The service runs submitted code in a per-language runner container and classifies each test case.
It then records a lifecycle status for the submission in an in-memory map.

- `values.dfy` (module `Values`): the structured values that test cases and runner output carry. It also holds the deep-equality relation, which is taken as a parameter.
- `registry.dfy` (module `Registry`): the language registry, which holds only `python3`, and the image name `runner-<language>`.
- `evaluator.dfy` (module `Evaluator`): the body of `runTests` once the container has returned. This covers the parse result, the loop that pairs output record `i` with test case `i`, and the per-test classification (ERRORED, PASSED or FAILED).
- `store.dfy` (module `Store`): the status map, as a class with a `map` field. A ghost `log` records every write in order, and the invariant `Valid()` says the map is what replaying the log produces.
- `coordinator.dfy` (module `Coordinator`): the verdict fold and the sequence of status writes made for one submission, plus `evaluateSubmission`, `runTests` and the `.then`/`.catch` chain as methods over the store.

The container call is a function parameter `docker(image, code, testCases)`. It returns either a launch failure or the parsed output with the measured time.
The history POST is a boolean saying whether it succeeded.
Each pipeline method is proved against pure specification functions. `RunOutcome` says what `runTests` returns or throws. `StatusWrites` gives the statuses written, in order. Lemmas state the lifecycle properties of those functions.

### Behaviour as written

The model follows the code at these points, where one might expect otherwise:

- The results loop is bounded by the number of output records, not by the number of test cases. Fewer records give a shorter result list without error. An empty list counts as "all passed", so empty output records the submission as PASSED (`EmptyOutputPasses`).
- More records than test cases make `runTests` throw at the first record without a test case. It throws reading `testCase.expectedOutput` (line 112) when the record's exit code is 0, and `testCase.input` (line 119) otherwise. The status becomes ERRORED.
- The history POST is awaited inside the same promise chain as `runTests`. If it fails, the catch handler overwrites the PASSED or FAILED status already written with ERRORED (`HistoryFailureOverwritesVerdict`). No status is ever protected from overwrite.
- `evaluateSubmission` does not consult the registry. An unsupported language still reaches the container call, with image `runner-<language>`.
- RUNNING is written only after the container call has returned. If the call fails, the status goes straight from QUEUED to ERRORED.

## Model

| member | source | states |
|---|---|---|
| `Registry.IsSupportedProgrammingLanguage` | submission-testing/src/submissionTester.ts:147-149 | a language is supported iff it is a registry key, and the only key is `"python3"` |
| `Registry.RunnerImage` | submission-testing/src/submissionTester.ts:88 | the image run is `"runner-"` followed by the language, and the language can be read back from it |
| `Registry.RunnerImageInjective` | submission-testing/src/submissionTester.ts:88 | two languages with the same image name are the same language |
| `Evaluator.Classify` | submission-testing/src/submissionTester.ts:109-116 | ERRORED iff the exit code is non-zero; PASSED iff the exit code is 0 and the output equals the expected output; FAILED iff the exit code is 0 and they differ |
| `Evaluator.ErroredIgnoresOutput` | submission-testing/src/submissionTester.ts:110-111 | a non-zero exit code gives ERRORED whatever the output and the expected output are |
| `Evaluator.ResultsOf` | submission-testing/src/submissionTester.ts:105-124 | one result per output record, so the result list is exactly as long as the output |
| `Evaluator.ResultsOfAt` | submission-testing/src/submissionTester.ts:118-123 | result `i` copies input and expected output from test case `i` and output from record `i`, and carries record `i`'s classified outcome |
| `Evaluator.OutputOutcome` | submission-testing/src/submissionTester.ts:104-132 | the parsed output gives results iff it parsed and has no more records than test cases, then one result per record with the measured time; it never reports a container failure |
| `Evaluator.RunOutcome` | submission-testing/src/submissionTester.ts:85-132 | the run fails with a container failure iff the container call failed; results come only from a returned call and carry its time |
| `Evaluator.CollectResults` | submission-testing/src/submissionTester.ts:104-129 | the push loop returns exactly what `OutputOutcome` specifies: a parse error or an unmatched record fails the run, otherwise the results pair the records with the test cases in order |
| `Evaluator.RunSucceedsExactly` | submission-testing/src/submissionTester.ts:85-129 | `runTests` returns results iff the container returned, its output parsed, and there are no more records than test cases; the results then have one entry per record and carry the measured time |
| `Evaluator.RunFailureCauses` | submission-testing/src/submissionTester.ts:85-132 | a container failure, unparseable output, and a record beyond the last test case each make `runTests` fail, with that cause |
| `Coordinator.FoldAllPassed` | submission-testing/src/submissionTester.ts:49 | the `reduce` never turns a false accumulator back to true: a true result means the start value was true |
| `Coordinator.FoldAllPassedMeans` | submission-testing/src/submissionTester.ts:49 | the left fold over the results starting from `allPassed` is true iff `allPassed` holds and every outcome is PASSED |
| `Coordinator.AllTestsPassed` | submission-testing/src/submissionTester.ts:49 | "all tests passed" iff every result's outcome is PASSED, vacuously for no results |
| `Coordinator.Verdict` | submission-testing/src/submissionTester.ts:50 | the status written is PASSED or FAILED, and PASSED iff every outcome is PASSED |
| `Coordinator.WritesAfterRun` | submission-testing/src/submissionTester.ts:50-68 | once `runTests` has settled, one or two terminal statuses are written, and the last is ERRORED iff the run or the history POST failed |
| `Coordinator.PipelineWrites` | submission-testing/src/submissionTester.ts:48-70 | the chain writes one to three statuses, never QUEUED, and the first is RUNNING iff the container call returned |
| `Coordinator.StatusWrites` | submission-testing/src/submissionTester.ts:46-70 | one submission gets two to four writes, QUEUED first and never again |
| `Coordinator.LifecycleOrder` | submission-testing/src/submissionTester.ts:46-102 | the writes for a submission are 2 to 4 statuses. QUEUED comes first and is never written again. RUNNING is written, second, iff the container call returned. The lifecycle stage never goes backwards |
| `Coordinator.FinalStatus` | submission-testing/src/submissionTester.ts:48-70 | the last status is ERRORED iff `runTests` failed or the history POST failed; otherwise it is the verdict, and PASSED iff every outcome passed |
| `Coordinator.HistoryFailureOverwritesVerdict` | submission-testing/src/submissionTester.ts:50-68 | when the run succeeds and the POST fails, the writes are QUEUED, RUNNING, the verdict, then ERRORED, so a terminal status is overwritten |
| `Coordinator.ErroredTestGivesFailed` | submission-testing/src/submissionTester.ts:49-50 | a test with a non-zero exit code makes the submission FAILED, not ERRORED, when the run and the POST succeed |
| `Coordinator.EmptyOutputPasses` | submission-testing/src/submissionTester.ts:104-105 | parsed output with no records gives the writes QUEUED, RUNNING, PASSED, whatever the test cases |
| `Coordinator.RunTests` | submission-testing/src/submissionTester.ts:79-133 | returns or fails as `RunOutcome` says for the container result of image `runner-<language>`; writes RUNNING for the id iff the container call returned, and nothing else; a valid store stays valid |
| `Coordinator.RecordResults` | submission-testing/src/submissionTester.ts:48-66 | writes the verdict, then ERRORED if the history POST failed; the map ends at the last of these; a valid store stays valid |
| `Coordinator.RunPipeline` | submission-testing/src/submissionTester.ts:48-70 | appends exactly the chain's writes (RUNNING if the container returned, then the verdict and/or ERRORED) to the log; the map holds the last one for the id and is unchanged elsewhere; a valid store stays valid |
| `Coordinator.EvaluateSubmission` | submission-testing/src/submissionTester.ts:45-72 | returns the fresh id, appends exactly `StatusWrites` for it (QUEUED first) to the log, and leaves the id mapped to the last of those writes and every other id unchanged; a valid store stays valid |
| `Store.SubmissionStore.constructor` | submission-testing/src/submissionTester.ts:137 | the store starts empty and valid: every id yields `None` (undefined) |
| `Store.SubmissionStore.SetSubmissionStatus` | submission-testing/src/submissionTester.ts:139-141 | unconditional overwrite: afterwards the id yields the status just set, every other id yields what it yielded before, the write is appended to the log, and the store stays valid |
| `Store.SubmissionStore.GetSubmissionStatus` | submission-testing/src/submissionTester.ts:143-145 | `None` (undefined) exactly for an id not in the map, otherwise the stored status |
| `Store.SubmissionStore.ReadsLatestWrite` | submission-testing/src/submissionTester.ts:137-145 | in a valid store an id yields `None` exactly when no write ever named it, and otherwise the status of its latest write |
| `Store.ReplayHoldsLatestWrite` | submission-testing/src/submissionTester.ts:139-141 | replaying the writes in order leaves an id in the map iff some write named it, holding the status of its latest write |

## Left out

- Building the runner images when the module loads (submissionTester.ts:14-30) is left out. It is Docker and file-system work. The directory in `RunnerImageContexts` is kept only as data.
- The container run's options are left out (submissionTester.ts:87-100). That means the SIGKILL stop signal, the 15-second stop timeout, auto-removal and the memory stream. The whole call is the `docker` parameter, and a timeout shows up only as whatever that call returns.
- The challenge-parameters request (submissionTester.ts:36-43) is left out. The test cases are an input. A failure of that request throws out of `evaluateSubmission` before any id exists, and that path is not modelled.
- For the history POST (submissionTester.ts:52-66), only its success or failure is modelled, as `historyPosted`. The form it sends is left out.
- `randomUuid()` is replaced by the `freshId` parameter. The model does not assume ids are unique.
- The `Date.now()` timing is left out. `executionTime` is an opaque integer produced by the container call.
- `JSON.parse` is modelled only as "parse error or a sequence of `{exitCode, output}` records". Other JSON shapes are not modelled, because they depend on JavaScript's dynamic semantics. Three examples: a bare number or object, whose `length` is undefined, so it gives zero results; `null`, which throws; a string exit code compared with the loose `!=`.
- The `deep-equal` library is the `eq` parameter. No property of it is assumed, in particular not strict, no-coercion comparison.
- Promise scheduling is left out. Each submission's chain runs to the end in order, so interleavings with other submissions are not modelled. The ghost `log` shows what a poller could observe between writes.
- `console` logging is left out.
- `RunTests` distinguishes why `runTests` failed (`RunError`). The source throws one `Error` whose message names only the submission. The catch handler ignores its content either way.
- Numbers are modelled as unbounded integers (`exitCode`, `executionTime`) or reals (`Value.Number`). JavaScript double precision is not modelled.
