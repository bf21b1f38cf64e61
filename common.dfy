/** Values shared by the expectation object and the validators: the verdict
    record a validator produces, the control object a validator reads, and the
    test identity the runner adapter supplies. */
module Common {

  datatype Option<+T> = None | Some(value: T)

  /** A value or the message of a thrown Error. */
  datatype Result<+R> = Success(value: R) | Failure(error: string)

  /** The record a validator produces (or hands to `control.assert`).
      `actual` and `expected` are the optional payloads for diff rendering;
      `None` means the key is absent from the record. */
  datatype ValidationResult<T> = ValidationResult(
    success: bool,
    reason: string,
    negatedReason: string,
    actual: Option<T>,
    expected: Option<T>)

  /** The identity of the running test, as the test-runner adapter supplies it. */
  datatype TestInfo = TestInfo(suitName: seq<string>, testName: string, testFilePath: string)

  /** The adapter's context; its lifecycle hooks are not modelled. */
  datatype TestRunnerCtx = TestRunnerCtx(testInfo: TestInfo)

  /** The read-only view of an expectation that a validator receives. */
  datatype Control<T> = Control(actual: T, isNegated: bool, testRunnerCtx: TestRunnerCtx)
}
