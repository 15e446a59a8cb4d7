/** The failures the client can report. The source threads them through
    `anyhow` with a human-readable context; here each distinct failure is
    a constructor, and the context a constructor adds is recorded as data. */
module Errors {
  import opened UsizeFromStr

  /** Why the CI coordinate wrapper could not produce a value. */
  datatype CiError =
    | EnvVarMissing(name: string)                  // `std::env::var` failed
    | EnvVarNotUsize(name: string, kind: IntErrorKind)  // `parse::<usize>` failed, and why
    | NoBranch
    | NoCommitHash

  /** Which coordinate the client was reading when the wrapper failed. */
  datatype Step = NodeTotalStep | NodeIndexStep | BranchStep | CommitHashStep

  datatype Error =
    | MissingSuiteToken                               // KNAPSACK_PRO_TEST_SUITE_TOKEN unset
    | ContextUnavailable                              // the workspace metadata could not be prepared
    | CoordinateUnavailable(step: Step, cause: CiError)
    | FindTestsFailed                                 // the test listing could not be produced
    | RequestFailed                                   // transport failure while executing a request
    | UnsuccessfulStatus(status: int)                 // non-2xx response
    | MalformedResponse                               // body does not fit the expected shape
    | InvalidTestFile(token: string)                  // a wire token the decoder rejects
    | RunnerNotStarted                                // the runner process could not be spawned or awaited
    | RunnerFailed                                    // the runner exited unsuccessfully
    | InvalidEventLine(line: string)                  // a runner output line that is not JSON
    | UnknownTest(name: string)                       // a passing test that was not requested
}
