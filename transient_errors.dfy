/**
 The classifier that decides whether a reconciler error is a transient
 "flake" worth retrying. An error is represented by its message
 (err.Error()); None is the nil error.
 */
module TransientErrors {
  import opened Wrappers
  import opened Strings

  /** The message fragment of a permission-denied reply, treated as transient. */
  const PermissionDeniedMessage := "The caller does not have permission"

  /**
   isTransientError: a nil error is not transient; any other error is
   transient exactly when its message contains the permission-denied text.
   */
  predicate IsTransientError(err: Option<string>)
  {
    match err
    case None => false
    case Some(message) => Contains(message, PermissionDeniedMessage)
  }

  lemma NilIsNotTransient()
    ensures !IsTransientError(None)
  {
  }

  /** A non-nil error is transient iff the permission-denied text occurs somewhere in its message. */
  lemma TransientIffMessageHasPermissionDenied(message: string)
    ensures IsTransientError(Some(message)) <==>
      exists i :: OccursAt(message, PermissionDeniedMessage, i)
  {
    ContainsIffOccurs(message, PermissionDeniedMessage);
  }

  /** Any message with the permission-denied text spliced in is transient. */
  lemma PermissionDeniedIsTransient(before: string, after: string)
    ensures IsTransientError(Some(before + PermissionDeniedMessage + after))
  {
    ContainsInfix(before, PermissionDeniedMessage, after);
  }

  /** A message shorter than the permission-denied text is never transient. */
  lemma ShortMessageIsTerminal(message: string)
    requires |message| < |PermissionDeniedMessage|
    ensures !IsTransientError(Some(message))
  {
    ContainsNeedsRoom(message, PermissionDeniedMessage);
  }

  /**
   The error an Update refused with HTTP 403 produced in the integration
   tests (quoted in the comment above the classifier).
   */
  const ForbiddenUpdateError := "Update call failed: error applying desired state: googleapi: Error 403: "
    + PermissionDeniedMessage

  lemma ForbiddenUpdateIsTransient()
    ensures IsTransientError(Some(ForbiddenUpdateError))
  {
    PermissionDeniedIsTransient("Update call failed: error applying desired state: googleapi: Error 403: ", "");
    assert ForbiddenUpdateError + "" == ForbiddenUpdateError;
  }
}
