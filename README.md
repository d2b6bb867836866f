# Reconcile test helpers of the Config Connector controller tests, in Dafny

This project models the sequential logic in `pkg/test/controller/reconcile.go`,
the helpers the controller integration tests use to drive a reconciler and to
prepare namespaces:

- **Acceptance window** (`ReconcileResult`): a reconcile result passes for an
  expected one when the `Requeue` flags agree and `RequeueAfter` lies in the
  half-open window `[expected - M/2, expected + M/2)`, where M is the mean
  re-enqueue period. The expected-result constants (successful, unsuccessful,
  requeue) are modelled beside it.
- **Transient-error classifier** (`TransientErrors`, with `Strings` for the
  substring test): nil is not transient; any other error is transient exactly
  when its message contains "The caller does not have permission".
- **Bounded retry driver** (`AssertResults`): `RunReconcilerAssertResults`
  calls the reconciler again while the error is transient and fewer than five
  calls were made, then judges only the last outcome against an optional
  expected-error pattern and the acceptance window.
- **Namespace setup** (`Namespaces`): `EnsureNamespaceExists` (Create, with
  AlreadyExists counted as success) and `createNamespaceProjectIdAnnotation`,
  an optimistic read-modify-write of the namespace's project-id annotation
  against an API server. The server is a `Client` class whose fields are the
  namespaces plus oracles for the outcomes of the upcoming calls. Each
  imperative method is proved equal to a specification function on the
  `Store` value (`EnsureExists`, `Annotate`, `AnnotateBounded`), and the lemmas
  are about those functions.

Modelling choices:

- A Go `error` from the reconciler is represented by its message
  (`Option<string>`; `None` is nil). API errors carry the status reason the
  code checks (`AlreadyExists`, `Conflict`) and a message.
- The reconciler is a total function from the call index to the outcome of
  that call. The expected-error regular expression is an uninterpreted
  predicate on messages (`Option<string -> bool>`).
- `k8s.MeanReconcileReenqueuePeriod` and `k8s.ProjectIDAnnotation` are defined
  outside this model. They are declared as constants without a value: M is
  only known to be positive, and the annotation key is an arbitrary string.
- The API server oracles: `faults` gives the outcomes of the upcoming Get and
  Create calls, and `updateReplies` gives the replies to the upcoming Update
  calls. A reply is `Accepted`, `Rejected(err)`, or `Overtaken(winner)`. That
  last one is a concurrent writer whose update lands first, which makes this
  write fail with a Conflict. An exhausted oracle lets every call through, so
  every run of the step terminates.
- The comment on `transientErrorsMaxRetries` (reconcile.go:56) calls it the
  maximum number of retries, 5. The code counts the first call as attempt 1
  and retries only while `attempt < transientErrorsMaxRetries` (:170). So it
  makes at most five calls in all, which is four retries. The model follows
  the code.

## Model

| member | source | states |
|---|---|---|
| `ReconcileResult.WithinBoundsOfMean` | pkg/test/controller/reconcile.go:271-276 | The acceptance predicate: Requeue flags equal and RequeueAfter in [expected - M/2, expected + M/2); its meaning is stated by the lemmas below |
| `ReconcileResult.WithinBoundsIffDeviation` | pkg/test/controller/reconcile.go:271-276 | The predicate holds iff the Requeue flags match and the result's delay is the expected delay shifted by some offset in [-M/2, M/2) |
| `ReconcileResult.WindowEnds` | pkg/test/controller/reconcile.go:273-275 | The lower end expected - M/2 is accepted (when M/2 > 0); the upper end expected + M/2 is always rejected |
| `ReconcileResult.RequeueMismatchRejected` | pkg/test/controller/reconcile.go:272-275 | A result whose Requeue flag differs is rejected whatever its delay |
| `ReconcileResult.AcceptsItselfIff` | pkg/test/controller/reconcile.go:271-276 | Every expected result accepts itself exactly when M >= 2, i.e. M/2 > 0 |
| `ReconcileResult.SuccessfulWindow` | pkg/test/controller/reconcile.go:50 | The successful result {false, M} accepts exactly the non-requeueing results with delay in [M - M/2, M + M/2) |
| `ReconcileResult.UnsuccessfulRejectsRequeue` | pkg/test/controller/reconcile.go:51 | The unsuccessful result {false, 0} rejects every result with Requeue set |
| `ReconcileResult.ExpectedWindowsDisjoint` | pkg/test/controller/reconcile.go:50-52 | No result is accepted by two of the successful, unsuccessful and requeue results |
| `Strings.Contains` | pkg/test/controller/reconcile.go:148 | strings.Contains as a left-to-right scan; proved equal to the positional definition by ContainsIffOccurs |
| `Strings.ContainsSound` | pkg/test/controller/reconcile.go:148 | If the recursive substring scan finds `sub`, it occurs at some index of `s` |
| `Strings.ContainsComplete` | pkg/test/controller/reconcile.go:148 | If `sub` occurs at an index of `s`, the scan finds it |
| `Strings.ContainsIffOccurs` | pkg/test/controller/reconcile.go:148 | The scan and the positional reference definition agree in both directions |
| `Strings.ContainsInfix` | pkg/test/controller/reconcile.go:148 | `before + sub + after` contains `sub` |
| `Strings.ContainsNeedsRoom` | pkg/test/controller/reconcile.go:148 | A string shorter than `sub` does not contain it |
| `TransientErrors.IsTransientError` | pkg/test/controller/reconcile.go:122-155 | The classifier: nil is not transient, otherwise transient iff the message contains the permission-denied text; stated by the lemmas below |
| `TransientErrors.NilIsNotTransient` | pkg/test/controller/reconcile.go:122-125 | The nil error is not transient |
| `TransientErrors.TransientIffMessageHasPermissionDenied` | pkg/test/controller/reconcile.go:138-154 | A non-nil error is transient iff "The caller does not have permission" occurs at some index of its message |
| `TransientErrors.PermissionDeniedIsTransient` | pkg/test/controller/reconcile.go:148-151 | Any message with the permission-denied text spliced in is transient |
| `TransientErrors.ShortMessageIsTerminal` | pkg/test/controller/reconcile.go:148-154 | A message shorter than the permission-denied text is not transient |
| `TransientErrors.ForbiddenUpdateIsTransient` | pkg/test/controller/reconcile.go:145-148 | The HTTP 403 Update error quoted beside the classifier is transient |
| `AssertResults.AssertOutcome` | pkg/test/controller/reconcile.go:180-191 | Passes iff the error is as expected (nil when no pattern is given; non-nil and matching otherwise) and the result is in the window; otherwise names the first failed check, the error check before the result check |
| `AssertResults.RunReconcilerAssertResults` | pkg/test/controller/reconcile.go:158-192 | Makes 1 to 5 calls; every call but the last returned a transient error; a last call before the fifth returned a nil or non-transient error; the verdict judges only the last outcome |
| `AssertResults.LastCall` | pkg/test/controller/reconcile.go:160-178 | The index of the last call is the first non-transient call, or the fifth call if all earlier ones are transient |
| `AssertResults.CallsDetermined` | pkg/test/controller/reconcile.go:160-178 | The driver's contract fixes the call count uniquely, as LastCall + 1 |
| `AssertResults.FirstNilErrorStops` | pkg/test/controller/reconcile.go:165-178 | A nil error on the first call ends the retries after one call |
| `AssertResults.PersistentTransientErrorSurfaces` | pkg/test/controller/reconcile.go:168-182 | An always-transient reconciler is called five times, and its fifth error fails any test that expects no error, whatever result it expects |
| `Namespaces.GetStep` | pkg/test/controller/reconcile.go:243 | Get returns the stored annotations iff no fault is injected and the namespace exists |
| `Namespaces.UpdateStep` | pkg/test/controller/reconcile.go:256 | Update consumes one reply and counts one Update. It succeeds iff the reply is Accepted and the namespace exists, and then stores the written annotations. A Rejected(e) reply returns e and changes no namespace. An Overtaken(winner) reply stores winner and returns a conflict |
| `Namespaces.CreateStep` | pkg/test/controller/reconcile.go:216 | Create succeeds iff no fault is injected and the namespace is absent, and then adds it with no annotations |
| `Namespaces.Client.Get` | pkg/test/controller/reconcile.go:243 | The client's Get changes its state and answers exactly as GetStep |
| `Namespaces.Client.Update` | pkg/test/controller/reconcile.go:256 | The client's Update changes its state and answers exactly as UpdateStep |
| `Namespaces.Client.Create` | pkg/test/controller/reconcile.go:216 | The client's Create changes its state and answers exactly as CreateStep |
| `Namespaces.EnsureExists` | pkg/test/controller/reconcile.go:213-222 | EnsureNamespaceExists as a function of the store; its outcome, effect and idempotence are stated by the lemmas below |
| `Namespaces.EnsureNamespaceExists` | pkg/test/controller/reconcile.go:213-222 | The method's result and new store are those of EnsureExists |
| `Namespaces.EnsureExistsOutcome` | pkg/test/controller/reconcile.go:216-221 | Returns nil iff Create succeeded or failed with AlreadyExists; any other error becomes a CreateFailed carrying the namespace name and the cause (Go formats the cause's text with %v) |
| `Namespaces.EnsureExistsEstablishes` | pkg/test/controller/reconcile.go:213-222 | With no injected fault the namespace exists afterwards, and an existing namespace keeps its annotations |
| `Namespaces.EnsureExistsIdempotent` | pkg/test/controller/reconcile.go:213-222 | A second call succeeds and changes no namespace |
| `Namespaces.Annotate` | pkg/test/controller/reconcile.go:239-269 | createNamespaceProjectIdAnnotation as written, as a function of the store, restarting from the Get on every conflict; stated by the lemmas below |
| `Namespaces.CreateNamespaceProjectIdAnnotation` | pkg/test/controller/reconcile.go:239-269 | The method, with its counter reset on every pass, yields exactly the error and store of Annotate |
| `Namespaces.AnnotateAlreadySet` | pkg/test/controller/reconcile.go:246-249 | An annotation already equal to the project id gives success, with no Update and no namespace changed |
| `Namespaces.AnnotateMismatch` | pkg/test/controller/reconcile.go:250-253 | An annotation with another value gives an error naming both values, with no Update and no retry |
| `Namespaces.AnnotateGetFails` | pkg/test/controller/reconcile.go:243-245 | A failed Get (injected, or the namespace is missing) is returned at once with nothing else changed |
| `Namespaces.AnnotateWrites` | pkg/test/controller/reconcile.go:255-268 | An absent annotation with an accepted Update gives success after one Update; the store holds the namespace with only the project id added |
| `Namespaces.AnnotateUpdateFails` | pkg/test/controller/reconcile.go:256-266 | A non-conflict Update error is returned wrapped, with no retry and no change |
| `Namespaces.AnnotateRestartsOnConflict` | pkg/test/controller/reconcile.go:258-263 | A conflicting Update restarts the whole read-modify-write from the Get, in the state the conflict left |
| `Namespaces.AnnotateSuccessEstablishes` | pkg/test/controller/reconcile.go:239-269 | After every successful run the namespace exists and its annotation equals the project id |
| `Namespaces.AnnotateWritesOnlyTheAnnotation` | pkg/test/controller/reconcile.go:246-268 | Without concurrent writers, a run leaves the namespaces unchanged or adds exactly the project-id annotation to a namespace that lacked it, and a run that returns an error changes no namespace |
| `Namespaces.RaceForSameValueSucceeds` | pkg/test/controller/reconcile.go:240-263 | When a rival writes the same value first, the conflict, re-read and match give success with no second Update |
| `Namespaces.RaceForOtherValueFails` | pkg/test/controller/reconcile.go:240-253 | When a rival writes another value first, the run fails with an error naming both values, and the rival's value stays |
| `Namespaces.NeverGivesUpOnConflict` | pkg/test/controller/reconcile.go:240-266 | As written, for every sequence of replies, the step never returns an Update error whose cause is a conflict |
| `Namespaces.ConflictsRetriedIndefinitely` | pkg/test/controller/reconcile.go:240-263 | As written, any number n of conflicts, even beyond 10, is retried, and the run succeeds with the (n+1)-th Update |
| `Namespaces.AnnotateBounded` | pkg/test/controller/reconcile.go:239-269 | The corrected step with the attempt counter kept across restarts; its bound is stated by the lemmas below |
| `Namespaces.CreateNamespaceProjectIdAnnotationBounded` | pkg/test/controller/reconcile.go:239-269 | The corrected method, with its counter before the loop, yields exactly the error and store of AnnotateBounded |
| `Namespaces.AnnotateBoundedIssuesAtMost` | pkg/test/controller/reconcile.go:258-264 | The corrected step issues at most 10 Updates |
| `Namespaces.AnnotateBoundedGivesUp` | pkg/test/controller/reconcile.go:258-266 | The corrected step gives up after 10 conflicting Updates, returning the conflict and leaving the namespaces unchanged |
| `Namespaces.AnnotateBoundedGivesUpOnlyAtLimit` | pkg/test/controller/reconcile.go:258-266 | The corrected step returns a conflict error only after exactly 10 - attempt Updates |
| `Namespaces.AnnotateBoundedAgrees` | pkg/test/controller/reconcile.go:239-269 | The corrected step returns what the as-written one does, or gives up earlier with a conflict error |

## Findings

| source | as written | input that shows it | evidently intended | confidence | as-written member | corrected member |
|---|---|---|---|---|---|---|
| pkg/test/controller/reconcile.go:240-264 | `attempt := 0` follows the `tryAgain:` label, so every restart resets the counter. `attempt < 10` is then always true, and conflicts are retried without bound | a namespace without the annotation whose Update conflicts 10 or more times in a row: the loop keeps retrying and never returns the conflict | the counter is declared before the label, so the `attempt++` / `attempt < 10` bound at :259-260 takes effect and the write is given up with the conflict error after 10 conflicting Updates | not executed; high | `Namespaces.NeverGivesUpOnConflict` and `Namespaces.ConflictsRetriedIndefinitely` (with `Namespaces.CreateNamespaceProjectIdAnnotation`) | `Namespaces.AnnotateBoundedGivesUp` (with `Namespaces.CreateNamespaceProjectIdAnnotationBounded`, `Namespaces.AnnotateBoundedIssuesAtMost`, `Namespaces.AnnotateBoundedGivesUpOnlyAtLimit`) |

## Left out

- `StartTestManagerInstance`, `startTestManager`, `StartMgr` and `startMgr` (lines 64-119) are left out. They build the manager, register webhooks, and run and stop it on a goroutine with a WaitGroup. That is concurrency and library plumbing.
- `GetCRDForKind` reads resource definitions from disk. `SetupNamespaceForDefaultProject` looks the project up in the environment. Both are left out.
- `EnsureNamespaceExistsT` and `EnsureNamespaceHasProjectIDAnnotation` only turn an error into `t.Fatal`; the model returns the error or a `Verdict` instead. `SetupNamespaceForProject` chains those two fatal wrappers (reconcile.go:208-211); the model has no member for that sequence.
- The error-chain loop in `isTransientError` (lines 128-136) is left out, together with the `%T`/`%+v` formatting, because it only feeds a log line.
- `time.Sleep` (the 5 s retry interval and the random conflict back-off) is not modelled. Neither are `rand.Intn` and `klog`/`t.Logf` logging. None of them affects a result.
- `regexp.MatchString` is an uninterpreted predicate on messages.
- The Kubernetes client's Get, Update and Create are abstract steps over a store and oracles. Real resource versions are not modelled. A concurrent write appears as an `Overtaken` reply, which stores the rival's annotations. A `Rejected` reply with a Conflict reason is also a concurrent write, but one that changes nothing the model tracks.
- The reconciler is an oracle. Its code is not part of this model.
- The concrete values of `k8s.MeanReconcileReenqueuePeriod` and `k8s.ProjectIDAnnotation` are not part of this model.
- `ReconcileResult.WithinBoundsOfMean`: durations are unbounded integers. Go's int64 overflow of `expected ± M/2` near the ends of the int64 range is not modelled.
- The generated type files for the networkconnectivity, sourcerepo and monitoring resource kinds are left out, because they hold data definitions and scheme registration and no behaviour.
- The reconciler's own error handling and requeue scheduling are outside reconcile.go, so they are not part of this model.
