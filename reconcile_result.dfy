/**
 The scheduling decision a reconciler returns (controller-runtime's
 reconcile.Result), the expected results the integration tests compare
 against, and the acceptance window that tolerates jitter around the mean
 re-enqueue period.
 */
module ReconcileResult {

  /** A duration in nanoseconds, as Go's time.Duration. */
  type Duration = int

  /** A strictly positive duration. */
  type Period = d: Duration | d > 0 witness 1

  /**
   k8s.MeanReconcileReenqueuePeriod. Its concrete value is defined outside
   this model; only its positivity is used.
   */
  const MeanReconcileReenqueuePeriod: Period

  /** reconcile.Result: requeue at once, and/or requeue after a delay. */
  datatype Result = Result(requeue: bool, requeueAfter: Duration)

  /** ExpectedSuccessfulReconcileResult: no immediate requeue, resync after the mean period. */
  const ExpectedSuccessfulReconcileResult := Result(false, MeanReconcileReenqueuePeriod)

  /** ExpectedUnsuccessfulReconcileResult: no requeue and no delay. */
  const ExpectedUnsuccessfulReconcileResult := Result(false, 0)

  /** ExpectedRequeueReconcileStruct: immediate requeue. */
  const ExpectedRequeueReconcileStruct := Result(true, 0)

  /** Half the mean period, with Go's integer division (the period is positive). */
  const Tolerance: Duration := MeanReconcileReenqueuePeriod / 2

  /**
   requeueEqualAndRequeueAfterWithinBoundsOfMean: the Requeue flags agree
   and RequeueAfter lies in the half-open window
   [expected - M/2, expected + M/2).
   */
  predicate WithinBoundsOfMean(result: Result, expected: Result)
  {
    var requeueEqual := result.requeue == expected.requeue;
    var lowerBound := expected.requeueAfter - Tolerance;
    var upperBound := expected.requeueAfter + Tolerance;
    requeueEqual && result.requeueAfter >= lowerBound && result.requeueAfter < upperBound
  }

  /**
   Reference reading of the window: the flags agree and the result is the
   expected delay shifted by an offset in [-M/2, M/2).
   */
  ghost predicate DeviatesByLessThanTolerance(result: Result, expected: Result)
  {
    result.requeue == expected.requeue &&
    exists offset :: DeviatesBy(result, expected, offset)
  }

  /** The result's delay is the expected delay shifted by `offset`, and |offset| is within tolerance. */
  ghost predicate DeviatesBy(result: Result, expected: Result, offset: Duration)
  {
    -Tolerance <= offset < Tolerance && result.requeueAfter == expected.requeueAfter + offset
  }

  lemma WithinBoundsIffDeviation(result: Result, expected: Result)
    ensures WithinBoundsOfMean(result, expected) <==> DeviatesByLessThanTolerance(result, expected)
  {
    if WithinBoundsOfMean(result, expected) {
      assert DeviatesBy(result, expected, result.requeueAfter - expected.requeueAfter);
    }
  }

  /** The window is half-open: its lower end is accepted, its upper end is not. */
  lemma WindowEnds(expected: Result)
    ensures WithinBoundsOfMean(Result(expected.requeue, expected.requeueAfter - Tolerance), expected)
      <==> Tolerance > 0
    ensures !WithinBoundsOfMean(Result(expected.requeue, expected.requeueAfter + Tolerance), expected)
  {
  }

  /** A Requeue flag that differs is rejected whatever the delay. */
  lemma RequeueMismatchRejected(result: Result, expected: Result)
    requires result.requeue != expected.requeue
    ensures !WithinBoundsOfMean(result, expected)
  {
  }

  /** Every expected result accepts itself exactly when M/2 > 0, that is M >= 2. */
  lemma AcceptsItselfIff(expected: Result)
    ensures WithinBoundsOfMean(expected, expected) <==> MeanReconcileReenqueuePeriod >= 2
  {
  }

  /** The successful result accepts exactly the non-requeueing results in [M - M/2, M + M/2). */
  lemma SuccessfulWindow(result: Result)
    ensures WithinBoundsOfMean(result, ExpectedSuccessfulReconcileResult) <==>
      !result.requeue &&
      MeanReconcileReenqueuePeriod - MeanReconcileReenqueuePeriod / 2 <= result.requeueAfter <
      MeanReconcileReenqueuePeriod + MeanReconcileReenqueuePeriod / 2
  {
  }

  /** The unsuccessful result rejects every result that asks for an immediate requeue. */
  lemma UnsuccessfulRejectsRequeue(result: Result)
    requires result.requeue
    ensures !WithinBoundsOfMean(result, ExpectedUnsuccessfulReconcileResult)
  {
  }

  /**
   The three expected results have disjoint windows, so no reconcile result
   can pass as two of them: in particular the successful window starts at
   M - M/2, which is at least the unsuccessful window's end M/2.
   */
  lemma ExpectedWindowsDisjoint(result: Result)
    ensures !(WithinBoundsOfMean(result, ExpectedSuccessfulReconcileResult) &&
              WithinBoundsOfMean(result, ExpectedUnsuccessfulReconcileResult))
    ensures !(WithinBoundsOfMean(result, ExpectedSuccessfulReconcileResult) &&
              WithinBoundsOfMean(result, ExpectedRequeueReconcileStruct))
    ensures !(WithinBoundsOfMean(result, ExpectedUnsuccessfulReconcileResult) &&
              WithinBoundsOfMean(result, ExpectedRequeueReconcileStruct))
  {
    assert MeanReconcileReenqueuePeriod - Tolerance >= Tolerance;
  }
}
