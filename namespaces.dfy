/**
 Namespace setup against the cluster's API server: making sure a namespace
 exists, and binding it to a project through its project-id annotation with
 an optimistic read-modify-write that restarts when a concurrent writer
 gets in first.

 The API server is a store of namespaces (each an annotation map) plus
 oracles that decide how each upcoming call turns out. An exhausted oracle
 lets every call through.
 */
module Namespaces {
  import opened Wrappers

  /** k8s.ProjectIDAnnotation. Its text is defined outside this model; no proof depends on it. */
  const ProjectIdAnnotation: string

  /** The attempt bound of the conflict retry (`attempt < 10`). */
  const MaxConflictAttempts: nat := 10

  type Annotations = map<string, string>

  /** The API status reasons the code tells apart (apierrors.IsAlreadyExists, apierrors.IsConflict). */
  datatype Reason = AlreadyExists | Conflict | NotFound | Other

  datatype ApiError = ApiError(reason: Reason, message: string)

  const NotFoundError := ApiError(NotFound, "not found")
  const AlreadyExistsError := ApiError(AlreadyExists, "already exists")
  const ConflictError := ApiError(Conflict, "the object has been modified")

  /** How the API server answers one Update call. */
  datatype UpdateReply =
    | Accepted                        // the write is applied (NotFound if the namespace is gone)
    | Rejected(err: ApiError)         // the write fails with `err`; nothing changes
    | Overtaken(winner: Annotations)  // a concurrent writer's update lands first: its annotations
                                      // are stored and this write fails with a Conflict

  /**
   The abstract state of the API server: the namespaces, the outcomes of the
   upcoming Get and Create calls (Some(e) makes that call fail with e), the
   replies to the upcoming Update calls, and how many Updates were issued.
   */
  datatype Store = Store(
    namespaces: map<string, Annotations>,
    faults: seq<Option<ApiError>>,
    updateReplies: seq<UpdateReply>,
    updatesIssued: nat)

  /**
   The errors the setup functions return (their fmt.Errorf wrappings).
   GetFailed and UpdateFailed wrap the cause (%w); for CreateFailed the Go
   error keeps only the cause's message text (%v), while the model keeps the
   cause as a value that no member inspects.
   */
  datatype SetupError =
    | CreateFailed(namespace: string, cause: ApiError)       // "error creating namespace ..."
    | GetFailed(namespace: string, cause: ApiError)          // "error getting namespace ..."
    | AnnotationMismatch(wanted: string, found: string)      // "cannot set project id annotation value ..."
    | UpdateFailed(namespace: string, cause: ApiError)       // "error setting project id on namespace ..."

  /** The outcome of a Get: the namespace's annotations, or an error. */
  datatype Fetched = Fetched(annotations: Annotations) | FetchFailed(err: ApiError)

  function NextFault(s: Store): Option<ApiError>
  {
    if s.faults == [] then None else s.faults[0]
  }

  function ConsumeFault(s: Store): Store
  {
    s.(faults := if s.faults == [] then [] else s.faults[1..])
  }

  function NextUpdateReply(s: Store): UpdateReply
  {
    if s.updateReplies == [] then Accepted else s.updateReplies[0]
  }

  /** Get: reads the namespace, unless the oracle injects a failure or the namespace does not exist. */
  function GetStep(s: Store, name: string): (r: (Fetched, Store))
    ensures r.1 == ConsumeFault(s)
    ensures r.0.Fetched? <==> NextFault(s).None? && name in s.namespaces
    ensures r.0.Fetched? ==> r.0.annotations == s.namespaces[name]
  {
    match NextFault(s)
    case Some(e) => (FetchFailed(e), ConsumeFault(s))
    case None =>
      if name in s.namespaces then (Fetched(s.namespaces[name]), ConsumeFault(s))
      else (FetchFailed(NotFoundError), ConsumeFault(s))
  }

  /** Update: writes the namespace's whole annotation map back, as the oracle's next reply allows. */
  function UpdateStep(s: Store, name: string, annotations: Annotations): (r: (Option<ApiError>, Store))
    ensures r.1.faults == s.faults && r.1.updatesIssued == s.updatesIssued + 1
    ensures r.1.updateReplies == if s.updateReplies == [] then [] else s.updateReplies[1..]
    ensures r.0.None? <==> NextUpdateReply(s) == Accepted && name in s.namespaces
    ensures r.0.None? ==> r.1.namespaces == s.namespaces[name := annotations]
    ensures s.updateReplies == [] ==> r.0.None? || r.0.value.reason == NotFound
    ensures NextUpdateReply(s).Rejected? ==>
      r.0 == Some(NextUpdateReply(s).err) && r.1.namespaces == s.namespaces
    ensures NextUpdateReply(s).Overtaken? ==>
      r.0 == Some(ConflictError) && r.1.namespaces == s.namespaces[name := NextUpdateReply(s).winner]
  {
    var s' := s.(updateReplies := if s.updateReplies == [] then [] else s.updateReplies[1..],
                 updatesIssued := s.updatesIssued + 1);
    match NextUpdateReply(s)
    case Accepted =>
      if name in s.namespaces then (None, s'.(namespaces := s.namespaces[name := annotations]))
      else (Some(NotFoundError), s')
    case Rejected(e) => (Some(e), s')
    case Overtaken(winner) => (Some(ConflictError), s'.(namespaces := s.namespaces[name := winner]))
  }

  /** Create: adds an empty namespace; AlreadyExists when it is there. */
  function CreateStep(s: Store, name: string): (r: (Option<ApiError>, Store))
    ensures r.1.faults == ConsumeFault(s).faults
    ensures r.1.updateReplies == s.updateReplies && r.1.updatesIssued == s.updatesIssued
    ensures r.0.None? <==> NextFault(s).None? && name !in s.namespaces
    ensures r.0.None? ==> r.1.namespaces == s.namespaces[name := map[]]
    ensures r.0.Some? ==> r.1.namespaces == s.namespaces
  {
    match NextFault(s)
    case Some(e) => (Some(e), ConsumeFault(s))
    case None =>
      if name in s.namespaces then (Some(AlreadyExistsError), ConsumeFault(s))
      else (None, ConsumeFault(s).(namespaces := s.namespaces[name := map[]]))
  }

  /** The API server client. */
  class Client {
    var namespaces: map<string, Annotations>
    var faults: seq<Option<ApiError>>
    var updateReplies: seq<UpdateReply>
    var updatesIssued: nat

    function State(): Store
      reads this
    {
      Store(namespaces, faults, updateReplies, updatesIssued)
    }

    constructor (initial: Store)
      ensures State() == initial
    {
      namespaces, faults := initial.namespaces, initial.faults;
      updateReplies, updatesIssued := initial.updateReplies, initial.updatesIssued;
    }

    method Get(name: string) returns (r: Fetched)
      modifies this
      ensures (r, State()) == GetStep(old(State()), name)
    {
      var fault := None;
      if faults != [] {
        fault := faults[0];
        faults := faults[1..];
      }
      if fault.Some? {
        r := FetchFailed(fault.value);
      } else if name in namespaces {
        r := Fetched(namespaces[name]);
      } else {
        r := FetchFailed(NotFoundError);
      }
    }

    method Update(name: string, annotations: Annotations) returns (err: Option<ApiError>)
      modifies this
      ensures (err, State()) == UpdateStep(old(State()), name, annotations)
    {
      var reply := Accepted;
      if updateReplies != [] {
        reply := updateReplies[0];
        updateReplies := updateReplies[1..];
      }
      updatesIssued := updatesIssued + 1;
      match reply
      case Accepted =>
        if name in namespaces {
          namespaces := namespaces[name := annotations];
          err := None;
        } else {
          err := Some(NotFoundError);
        }
      case Rejected(e) =>
        err := Some(e);
      case Overtaken(winner) =>
        namespaces := namespaces[name := winner];
        err := Some(ConflictError);
    }

    method Create(name: string) returns (err: Option<ApiError>)
      modifies this
      ensures (err, State()) == CreateStep(old(State()), name)
    {
      var fault := None;
      if faults != [] {
        fault := faults[0];
        faults := faults[1..];
      }
      if fault.Some? {
        err := fault;
      } else if name in namespaces {
        err := Some(AlreadyExistsError);
      } else {
        namespaces := namespaces[name := map[]];
        err := None;
      }
    }
  }

  // ---------------------------------------------------------------------
  // EnsureNamespaceExists

  /** EnsureNamespaceExists as a function of the store. */
  function EnsureExists(s: Store, name: string): (r: (Option<SetupError>, Store))
  {
    var (err, s1) := CreateStep(s, name);
    if err.Some? && err.value.reason != AlreadyExists then (Some(CreateFailed(name, err.value)), s1)
    else (None, s1)
  }

  method EnsureNamespaceExists(c: Client, name: string) returns (err: Option<SetupError>)
    modifies c
    ensures (err, c.State()) == EnsureExists(old(c.State()), name)
  {
    var createErr := c.Create(name);
    if createErr.Some? {
      if createErr.value.reason != AlreadyExists {
        return Some(CreateFailed(name, createErr.value));
      }
    }
    return None;
  }

  /** It succeeds exactly when Create succeeds or fails with AlreadyExists, and wraps any other error. */
  lemma EnsureExistsOutcome(s: Store, name: string)
    ensures var r := EnsureExists(s, name);
      (r.0.None? <==> CreateStep(s, name).0.None? || CreateStep(s, name).0.value.reason == AlreadyExists) &&
      (r.0.Some? ==> r.0 == Some(CreateFailed(name, CreateStep(s, name).0.value))) &&
      r.1 == CreateStep(s, name).1
  {
  }

  /**
   Without an injected failure the namespace exists afterwards, and an
   existing namespace keeps its annotations.
   */
  lemma EnsureExistsEstablishes(s: Store, name: string)
    requires NextFault(s).None?
    ensures var r := EnsureExists(s, name);
      r.0.None? && name in r.1.namespaces &&
      (name in s.namespaces ==> r.1.namespaces == s.namespaces) &&
      (name !in s.namespaces ==> r.1.namespaces[name] == map[])
  {
  }

  /** Calling it a second time succeeds and changes no namespace. */
  lemma EnsureExistsIdempotent(s: Store, name: string)
    requires NextFault(s).None?
    requires NextFault(EnsureExists(s, name).1).None?
    ensures var s1 := EnsureExists(s, name).1;
      EnsureExists(s1, name).0.None? && EnsureExists(s1, name).1.namespaces == s1.namespaces
  {
  }

  // ---------------------------------------------------------------------
  // createNamespaceProjectIdAnnotation, as written

  /**
   createNamespaceProjectIdAnnotation as a function of the store. The
   attempt counter is reset on every pass, so a conflict always restarts
   the read-modify-write from the Get; the recursion ends because each
   conflict consumes an Update reply.
   */
  function Annotate(s: Store, name: string, projectId: string): (r: (Option<SetupError>, Store))
    decreases |s.updateReplies|
  {
    var (fetched, s1) := GetStep(s, name);
    match fetched
    case FetchFailed(e) => (Some(GetFailed(name, e)), s1)
    case Fetched(annotations) =>
      if ProjectIdAnnotation in annotations then
        if annotations[ProjectIdAnnotation] == projectId then (None, s1)
        else (Some(AnnotationMismatch(projectId, annotations[ProjectIdAnnotation])), s1)
      else
        var (err, s2) := UpdateStep(s1, name, annotations[ProjectIdAnnotation := projectId]);
        match err
        case None => (None, s2)
        case Some(e) =>
          if e.reason == Conflict then Annotate(s2, name, projectId)
          else (Some(UpdateFailed(name, e)), s2)
  }

  method CreateNamespaceProjectIdAnnotation(c: Client, namespaceName: string, projectId: string)
    returns (err: Option<SetupError>)
    modifies c
    ensures (err, c.State()) == Annotate(old(c.State()), namespaceName, projectId)
  {
    while true
      invariant Annotate(c.State(), namespaceName, projectId) == Annotate(old(c.State()), namespaceName, projectId)
      decreases |c.updateReplies|
    {
      var attempt := 0;
      var fetched := c.Get(namespaceName);
      if fetched.FetchFailed? {
        return Some(GetFailed(namespaceName, fetched.err));
      }
      var annotations := fetched.annotations;
      if ProjectIdAnnotation in annotations {
        if annotations[ProjectIdAnnotation] == projectId {
          return None;
        } else {
          return Some(AnnotationMismatch(projectId, annotations[ProjectIdAnnotation]));
        }
      }
      annotations := annotations[ProjectIdAnnotation := projectId];
      var updateErr := c.Update(namespaceName, annotations);
      if updateErr.Some? {
        if updateErr.value.reason == Conflict {
          attempt := attempt + 1;
          if attempt < MaxConflictAttempts {
            continue;
          }
        }
        return Some(UpdateFailed(namespaceName, updateErr.value));
      }
      return None;
    }
  }

  /** The annotation already holds `projectId`: success, with no Update and no namespace changed. */
  lemma AnnotateAlreadySet(s: Store, name: string, projectId: string)
    requires NextFault(s).None? && name in s.namespaces
    requires ProjectIdAnnotation in s.namespaces[name]
    requires s.namespaces[name][ProjectIdAnnotation] == projectId
    ensures Annotate(s, name, projectId) == (None, ConsumeFault(s))
  {
  }

  /**
   The annotation holds another value: the error names both values, and
   nothing is written or retried.
   */
  lemma AnnotateMismatch(s: Store, name: string, projectId: string)
    requires NextFault(s).None? && name in s.namespaces
    requires ProjectIdAnnotation in s.namespaces[name]
    requires s.namespaces[name][ProjectIdAnnotation] != projectId
    ensures Annotate(s, name, projectId) ==
      (Some(AnnotationMismatch(projectId, s.namespaces[name][ProjectIdAnnotation])), ConsumeFault(s))
  {
  }

  /** A failed Get is returned at once, without an Update. */
  lemma AnnotateGetFails(s: Store, name: string, projectId: string)
    requires NextFault(s).Some? || name !in s.namespaces
    ensures Annotate(s, name, projectId).1 == ConsumeFault(s)
    ensures Annotate(s, name, projectId).0 ==
      Some(GetFailed(name, if NextFault(s).Some? then NextFault(s).value else NotFoundError))
  {
  }

  /**
   The annotation is absent and the Update goes through: success, the
   namespace's annotation is `projectId`, its other annotations and every
   other namespace are unchanged, and exactly one Update was issued.
   */
  lemma AnnotateWrites(s: Store, name: string, projectId: string)
    requires NextFault(s).None? && name in s.namespaces
    requires ProjectIdAnnotation !in s.namespaces[name]
    requires NextUpdateReply(s) == Accepted
    ensures var r := Annotate(s, name, projectId);
      r.0.None? &&
      r.1.namespaces == s.namespaces[name := s.namespaces[name][ProjectIdAnnotation := projectId]] &&
      r.1.updatesIssued == s.updatesIssued + 1
  {
  }

  /** An Update error other than a conflict is returned at once, with no retry and nothing written. */
  lemma AnnotateUpdateFails(s: Store, name: string, projectId: string, e: ApiError)
    requires NextFault(s).None? && name in s.namespaces
    requires ProjectIdAnnotation !in s.namespaces[name]
    requires NextUpdateReply(s) == Rejected(e) && e.reason != Conflict
    ensures var r := Annotate(s, name, projectId);
      r.0 == Some(UpdateFailed(name, e)) && r.1.namespaces == s.namespaces &&
      r.1.updatesIssued == s.updatesIssued + 1
  {
  }

  /** The Update that found the annotation absent, in state `s`. */
  function AnnotationWrite(s: Store, name: string, projectId: string): (r: (Option<ApiError>, Store))
    requires name in s.namespaces
  {
    UpdateStep(ConsumeFault(s), name, s.namespaces[name][ProjectIdAnnotation := projectId])
  }

  /** A conflict on the Update restarts the whole read-modify-write from the Get. */
  lemma AnnotateRestartsOnConflict(s: Store, name: string, projectId: string)
    requires NextFault(s).None? && name in s.namespaces
    requires ProjectIdAnnotation !in s.namespaces[name]
    requires var err := AnnotationWrite(s, name, projectId).0; err.Some? && err.value.reason == Conflict
    ensures Annotate(s, name, projectId) == Annotate(AnnotationWrite(s, name, projectId).1, name, projectId)
  {
  }

  /** Whenever the step succeeds, the namespace exists and its annotation is `projectId`. */
  lemma {:induction false} AnnotateSuccessEstablishes(s: Store, name: string, projectId: string)
    ensures var r := Annotate(s, name, projectId);
      r.0.None? ==>
        name in r.1.namespaces && ProjectIdAnnotation in r.1.namespaces[name] &&
        r.1.namespaces[name][ProjectIdAnnotation] == projectId
    decreases |s.updateReplies|
  {
    var (fetched, s1) := GetStep(s, name);
    if fetched.Fetched? && ProjectIdAnnotation !in fetched.annotations {
      var (err, s2) := UpdateStep(s1, name, fetched.annotations[ProjectIdAnnotation := projectId]);
      if err.Some? && err.value.reason == Conflict {
        AnnotateSuccessEstablishes(s2, name, projectId);
      }
    }
  }

  /** None of the upcoming Update replies is a concurrent writer landing first. */
  predicate NoRivals(s: Store)
  {
    forall k :: 0 <= k < |s.updateReplies| ==> !s.updateReplies[k].Overtaken?
  }

  /**
   Without concurrent writers the step changes at most the one annotation:
   every other annotation of the namespace and every other namespace keep
   their values, whatever the result.
   */
  lemma {:induction false} AnnotateWritesOnlyTheAnnotation(s: Store, name: string, projectId: string)
    requires NoRivals(s)
    ensures var r := Annotate(s, name, projectId);
      r.1.namespaces == s.namespaces ||
      (name in s.namespaces && ProjectIdAnnotation !in s.namespaces[name] &&
       r.1.namespaces == s.namespaces[name := s.namespaces[name][ProjectIdAnnotation := projectId]])
    ensures var r := Annotate(s, name, projectId);
      r.0.Some? ==> r.1.namespaces == s.namespaces
    decreases |s.updateReplies|
  {
    var (fetched, s1) := GetStep(s, name);
    if fetched.Fetched? && ProjectIdAnnotation !in fetched.annotations {
      var (err, s2) := UpdateStep(s1, name, fetched.annotations[ProjectIdAnnotation := projectId]);
      if err.Some? && err.value.reason == Conflict {
        assert s2.namespaces == s.namespaces;
        assert NoRivals(s2) by {
          forall k | 0 <= k < |s2.updateReplies| ensures !s2.updateReplies[k].Overtaken? {
            assert s2.updateReplies[k] == s.updateReplies[k + 1];
          }
        }
        AnnotateWritesOnlyTheAnnotation(s2, name, projectId);
      }
    }
  }

  /**
   Two writers racing to set the same value: the other writer's update lands
   first, this one conflicts, re-reads, finds the value and succeeds without
   writing again.
   */
  lemma RaceForSameValueSucceeds(s: Store, name: string, projectId: string)
    requires s.faults == [] && name in s.namespaces
    requires ProjectIdAnnotation !in s.namespaces[name]
    requires s.updateReplies == [Overtaken(s.namespaces[name][ProjectIdAnnotation := projectId])]
    ensures var r := Annotate(s, name, projectId);
      r.0.None? && r.1.namespaces == s.namespaces[name := s.namespaces[name][ProjectIdAnnotation := projectId]] &&
      r.1.updatesIssued == s.updatesIssued + 1
  {
    var s2 := AnnotationWrite(s, name, projectId).1;
    assert NextFault(s2).None?;
    AnnotateAlreadySet(s2, name, projectId);
  }

  /**
   Two writers racing to set different values: the one that lands first
   wins, and this one fails with an error naming both values.
   */
  lemma RaceForOtherValueFails(s: Store, name: string, projectId: string, other: string)
    requires s.faults == [] && name in s.namespaces
    requires ProjectIdAnnotation !in s.namespaces[name] && other != projectId
    requires s.updateReplies == [Overtaken(s.namespaces[name][ProjectIdAnnotation := other])]
    ensures var r := Annotate(s, name, projectId);
      r.0 == Some(AnnotationMismatch(projectId, other)) &&
      r.1.namespaces == s.namespaces[name := s.namespaces[name][ProjectIdAnnotation := other]]
  {
    var s2 := AnnotationWrite(s, name, projectId).1;
    assert NextFault(s2).None?;
    AnnotateMismatch(s2, name, projectId);
  }

  /** `n` replies that refuse the write with a conflict. */
  function Conflicts(n: nat): seq<UpdateReply>
  {
    seq(n, _ => Rejected(ConflictError))
  }

  /**
   As written, the attempt bound never stops the loop: after any number of
   conflicts, however many more than MaxConflictAttempts, the step keeps
   retrying and succeeds with the (n + 1)-th Update.
   */
  lemma {:induction false} ConflictsRetriedIndefinitely(s: Store, name: string, projectId: string, n: nat)
    requires s.faults == [] && name in s.namespaces
    requires ProjectIdAnnotation !in s.namespaces[name]
    requires s.updateReplies == Conflicts(n)
    ensures var r := Annotate(s, name, projectId);
      r.0.None? && r.1.updatesIssued == s.updatesIssued + n + 1 &&
      r.1.namespaces == s.namespaces[name := s.namespaces[name][ProjectIdAnnotation := projectId]]
    decreases n
  {
    if n > 0 {
      var s2 := AnnotationWrite(s, name, projectId).1;
      assert s2 == s.(updateReplies := Conflicts(n - 1), updatesIssued := s.updatesIssued + 1);
      AnnotateRestartsOnConflict(s, name, projectId);
      ConflictsRetriedIndefinitely(s2, name, projectId, n - 1);
    }
  }

  /**
   As written, the step never gives up on a conflict, whatever the replies:
   it never returns a conflict error, because every conflict leads back to
   the Get.
   */
  lemma {:induction false} NeverGivesUpOnConflict(s: Store, name: string, projectId: string)
    ensures var r := Annotate(s, name, projectId);
      !(r.0.Some? && r.0.value.UpdateFailed? && r.0.value.cause.reason == Conflict)
    decreases |s.updateReplies|
  {
    var (fetched, s1) := GetStep(s, name);
    if fetched.Fetched? && ProjectIdAnnotation !in fetched.annotations {
      var (err, s2) := UpdateStep(s1, name, fetched.annotations[ProjectIdAnnotation := projectId]);
      if err.Some? && err.value.reason == Conflict {
        NeverGivesUpOnConflict(s2, name, projectId);
      }
    }
  }

  // ---------------------------------------------------------------------
  // createNamespaceProjectIdAnnotation, with the counter outside the retry loop

  /**
   The evidently intended step: the attempt counter survives restarts, so
   the write is given up with the conflict error once MaxConflictAttempts
   Updates have conflicted.
   */
  function AnnotateBounded(s: Store, name: string, projectId: string, attempt: nat): (r: (Option<SetupError>, Store))
    decreases |s.updateReplies|
  {
    var (fetched, s1) := GetStep(s, name);
    match fetched
    case FetchFailed(e) => (Some(GetFailed(name, e)), s1)
    case Fetched(annotations) =>
      if ProjectIdAnnotation in annotations then
        if annotations[ProjectIdAnnotation] == projectId then (None, s1)
        else (Some(AnnotationMismatch(projectId, annotations[ProjectIdAnnotation])), s1)
      else
        var (err, s2) := UpdateStep(s1, name, annotations[ProjectIdAnnotation := projectId]);
        match err
        case None => (None, s2)
        case Some(e) =>
          if e.reason == Conflict && attempt + 1 < MaxConflictAttempts then
            AnnotateBounded(s2, name, projectId, attempt + 1)
          else (Some(UpdateFailed(name, e)), s2)
  }

  method CreateNamespaceProjectIdAnnotationBounded(c: Client, namespaceName: string, projectId: string)
    returns (err: Option<SetupError>)
    modifies c
    ensures (err, c.State()) == AnnotateBounded(old(c.State()), namespaceName, projectId, 0)
  {
    var attempt := 0;
    while true
      invariant AnnotateBounded(c.State(), namespaceName, projectId, attempt) ==
        AnnotateBounded(old(c.State()), namespaceName, projectId, 0)
      decreases |c.updateReplies|
    {
      var fetched := c.Get(namespaceName);
      if fetched.FetchFailed? {
        return Some(GetFailed(namespaceName, fetched.err));
      }
      var annotations := fetched.annotations;
      if ProjectIdAnnotation in annotations {
        if annotations[ProjectIdAnnotation] == projectId {
          return None;
        } else {
          return Some(AnnotationMismatch(projectId, annotations[ProjectIdAnnotation]));
        }
      }
      annotations := annotations[ProjectIdAnnotation := projectId];
      var updateErr := c.Update(namespaceName, annotations);
      if updateErr.Some? {
        if updateErr.value.reason == Conflict {
          if attempt + 1 < MaxConflictAttempts {
            attempt := attempt + 1;
            continue;
          }
        }
        return Some(UpdateFailed(namespaceName, updateErr.value));
      }
      return None;
    }
  }

  /** The bounded step issues at most MaxConflictAttempts - attempt Updates. */
  lemma {:induction false} AnnotateBoundedIssuesAtMost(s: Store, name: string, projectId: string, attempt: nat)
    requires attempt < MaxConflictAttempts
    ensures AnnotateBounded(s, name, projectId, attempt).1.updatesIssued <=
      s.updatesIssued + MaxConflictAttempts - attempt
    decreases |s.updateReplies|
  {
    var (fetched, s1) := GetStep(s, name);
    if fetched.Fetched? && ProjectIdAnnotation !in fetched.annotations {
      var (err, s2) := UpdateStep(s1, name, fetched.annotations[ProjectIdAnnotation := projectId]);
      if err.Some? && err.value.reason == Conflict && attempt + 1 < MaxConflictAttempts {
        AnnotateBoundedIssuesAtMost(s2, name, projectId, attempt + 1);
      }
    }
  }

  /**
   The bounded step gives up once the conflicts outnumber the attempts left:
   after MaxConflictAttempts - attempt conflicting Updates it returns the
   conflict, leaving the namespaces as they were.
   */
  lemma {:induction false} AnnotateBoundedGivesUp(s: Store, name: string, projectId: string, attempt: nat, n: nat)
    requires attempt < MaxConflictAttempts <= attempt + n
    requires s.faults == [] && name in s.namespaces
    requires ProjectIdAnnotation !in s.namespaces[name]
    requires s.updateReplies == Conflicts(n)
    ensures var r := AnnotateBounded(s, name, projectId, attempt);
      r.0 == Some(UpdateFailed(name, ConflictError)) && r.1.namespaces == s.namespaces &&
      r.1.updatesIssued == s.updatesIssued + MaxConflictAttempts - attempt
    decreases MaxConflictAttempts - attempt
  {
    var s2 := AnnotationWrite(s, name, projectId).1;
    assert s2 == s.(updateReplies := Conflicts(n - 1), updatesIssued := s.updatesIssued + 1);
    if attempt + 1 < MaxConflictAttempts {
      AnnotateBoundedGivesUp(s2, name, projectId, attempt + 1, n - 1);
    }
  }

  /**
   The bounded step gives up with a conflict only at the limit: when it
   returns a conflict error, exactly MaxConflictAttempts - attempt Updates
   were issued.
   */
  lemma {:induction false} AnnotateBoundedGivesUpOnlyAtLimit(s: Store, name: string, projectId: string, attempt: nat)
    requires attempt < MaxConflictAttempts
    ensures var r := AnnotateBounded(s, name, projectId, attempt);
      r.0.Some? && r.0.value.UpdateFailed? && r.0.value.cause.reason == Conflict ==>
        r.1.updatesIssued == s.updatesIssued + MaxConflictAttempts - attempt
    decreases |s.updateReplies|
  {
    var (fetched, s1) := GetStep(s, name);
    if fetched.Fetched? && ProjectIdAnnotation !in fetched.annotations {
      var (err, s2) := UpdateStep(s1, name, fetched.annotations[ProjectIdAnnotation := projectId]);
      if err.Some? && err.value.reason == Conflict && attempt + 1 < MaxConflictAttempts {
        AnnotateBoundedGivesUpOnlyAtLimit(s2, name, projectId, attempt + 1);
      }
    }
  }

  /**
   The bounded step returns what the unbounded one does, except that it may
   give up earlier with a conflict error.
   */
  lemma {:induction false} AnnotateBoundedAgrees(s: Store, name: string, projectId: string, attempt: nat)
    ensures var r := AnnotateBounded(s, name, projectId, attempt);
      r == Annotate(s, name, projectId) ||
      (r.0.Some? && r.0.value.UpdateFailed? && r.0.value.cause.reason == Conflict)
    decreases |s.updateReplies|
  {
    var (fetched, s1) := GetStep(s, name);
    if fetched.Fetched? && ProjectIdAnnotation !in fetched.annotations {
      var (err, s2) := UpdateStep(s1, name, fetched.annotations[ProjectIdAnnotation := projectId]);
      if err.Some? && err.value.reason == Conflict && attempt + 1 < MaxConflictAttempts {
        AnnotateBoundedAgrees(s2, name, projectId, attempt + 1);
      }
    }
  }
}
