/**
 The test driver that runs a reconciler, retries it while it reports a
 transient error (up to a fixed number of calls), and then judges the last
 (result, error) pair against an expected error pattern and the acceptance
 window of the expected result.
 */
module AssertResults {
  import opened Wrappers
  import opened ReconcileResult
  import opened TransientErrors

  /** transientErrorsMaxRetries: the attempt counter's bound. */
  const TransientErrorsMaxRetries: nat := 5

  /** What one Reconcile call returns: a result and a possibly nil error message. */
  datatype Outcome = Outcome(result: Result, err: Option<string>)

  /**
   The verdict of RunReconcilerAssertResults: Pass, or the first t.Fatalf
   the run reaches (which ends the test, so later checks do not run).
   */
  datatype Verdict =
    | Pass
    | UnexpectedError(message: string)   // no error was expected, one was returned
    | ErrorMismatch(err: Option<string>)  // an error was expected; none came, or it does not match
    | ResultMismatch(got: Result)         // the result lies outside the acceptance window

  /** The error check passes: no error when none is expected, a matching one otherwise. */
  predicate ErrorAsExpected(err: Option<string>, expectedErrorRegex: Option<string -> bool>)
  {
    match expectedErrorRegex
    case None => err.None?
    case Some(matches) => err.Some? && matches(err.value)
  }

  /**
   The assertions made on the final outcome. The regular expression is an
   uninterpreted predicate on messages.
   */
  function AssertOutcome(outcome: Outcome, expectedResult: Result,
                         expectedErrorRegex: Option<string -> bool>): (v: Verdict)
    ensures v == Pass <==>
      ErrorAsExpected(outcome.err, expectedErrorRegex) && WithinBoundsOfMean(outcome.result, expectedResult)
    ensures v.UnexpectedError? <==> expectedErrorRegex.None? && outcome.err.Some?
    ensures v.ErrorMismatch? <==> expectedErrorRegex.Some? && !ErrorAsExpected(outcome.err, expectedErrorRegex)
    ensures v.ResultMismatch? <==>
      ErrorAsExpected(outcome.err, expectedErrorRegex) && !WithinBoundsOfMean(outcome.result, expectedResult)
    ensures v.UnexpectedError? ==> v.message == outcome.err.value
    ensures v.ErrorMismatch? ==> v.err == outcome.err
    ensures v.ResultMismatch? ==> v.got == outcome.result
  {
    if expectedErrorRegex.None? && outcome.err.Some? then
      UnexpectedError(outcome.err.value)
    else if expectedErrorRegex.Some? &&
            (outcome.err.None? || !expectedErrorRegex.value(outcome.err.value)) then
      ErrorMismatch(outcome.err)
    else if !WithinBoundsOfMean(outcome.result, expectedResult) then
      ResultMismatch(outcome.result)
    else
      Pass
  }

  /**
   RunReconcilerAssertResults. The reconciler is modelled by the outcome of
   each successive call (`reconciler(k)` is what call k+1 returns). It
   returns how many times Reconcile was called and the verdict.

   The run makes at most TransientErrorsMaxRetries calls; every call but the
   last returned a transient error; the last one returned a nil or
   non-transient error, or was the final permitted call; only the last
   outcome is judged.
   */
  method RunReconcilerAssertResults(reconciler: nat -> Outcome, expectedResult: Result,
                                    expectedErrorRegex: Option<string -> bool>)
    returns (calls: nat, verdict: Verdict)
    ensures 1 <= calls <= TransientErrorsMaxRetries
    ensures forall k :: 0 <= k < calls - 1 ==> IsTransientError(reconciler(k).err)
    ensures calls < TransientErrorsMaxRetries ==> !IsTransientError(reconciler(calls - 1).err)
    ensures verdict == AssertOutcome(reconciler(calls - 1), expectedResult, expectedErrorRegex)
    ensures calls == LastCall(reconciler, 0) + 1
  {
    var attempt := 0;
    var outcome: Outcome;
    while true
      invariant 0 <= attempt < TransientErrorsMaxRetries
      invariant forall k :: 0 <= k < attempt ==> IsTransientError(reconciler(k).err)
      decreases TransientErrorsMaxRetries - attempt
    {
      attempt := attempt + 1;
      outcome := reconciler(attempt - 1);
      if outcome.err.Some? {
        if IsTransientError(outcome.err) {
          if attempt < TransientErrorsMaxRetries {
            continue;
          }
        }
      }
      break;
    }
    calls := attempt;
    verdict := AssertOutcome(outcome, expectedResult, expectedErrorRegex);
    CallsDetermined(reconciler, calls);
  }

  /**
   The call count and the judged outcome as a function of the reconciler:
   the index of the last call a run starting at call `k` makes.
   */
  function LastCall(reconciler: nat -> Outcome, k: nat): (last: nat)
    requires k < TransientErrorsMaxRetries
    ensures k <= last < TransientErrorsMaxRetries
    ensures forall j :: k <= j < last ==> IsTransientError(reconciler(j).err)
    ensures last < TransientErrorsMaxRetries - 1 ==> !IsTransientError(reconciler(last).err)
    decreases TransientErrorsMaxRetries - k
  {
    if IsTransientError(reconciler(k).err) && k + 1 < TransientErrorsMaxRetries then
      LastCall(reconciler, k + 1)
    else
      k
  }

  /** The method's contract pins the call count down uniquely: it is LastCall from the first call, plus one. */
  lemma {:induction false} CallsDetermined(reconciler: nat -> Outcome, calls: nat)
    requires 1 <= calls <= TransientErrorsMaxRetries
    requires forall k :: 0 <= k < calls - 1 ==> IsTransientError(reconciler(k).err)
    requires calls < TransientErrorsMaxRetries ==> !IsTransientError(reconciler(calls - 1).err)
    ensures calls == LastCall(reconciler, 0) + 1
  {
  }

  /** A reconciler that succeeds at once is called exactly once, and the run judges that first outcome. */
  lemma FirstNilErrorStops(reconciler: nat -> Outcome)
    requires reconciler(0).err.None?
    ensures LastCall(reconciler, 0) == 0
  {
  }

  /**
   A reconciler whose error is transient on every call is called five
   times and its fifth error is the one judged: a test that expects no
   error fails with that error, whatever result it expects.
   */
  lemma PersistentTransientErrorSurfaces(reconciler: nat -> Outcome, expectedResult: Result)
    requires forall k :: IsTransientError(reconciler(k).err)
    ensures LastCall(reconciler, 0) == TransientErrorsMaxRetries - 1
    ensures AssertOutcome(reconciler(TransientErrorsMaxRetries - 1), expectedResult, None)
      == UnexpectedError(reconciler(TransientErrorsMaxRetries - 1).err.value)
  {
  }
}
