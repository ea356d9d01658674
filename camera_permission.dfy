/**
 * The camera-authorization decision of `checkCameraPermission`
 * (RecordViewController.swift, lines 82-95).
 *
 * The platform reports one of four authorization statuses. An authorized
 * status answers the completion at once with `true`; a status that has not
 * been determined yet shows the system prompt and answers later with the
 * user's choice; every other status answers at once with `false`.
 */
module CameraPermission {

  datatype AuthorizationStatus = Authorized | NotDetermined | Denied | Restricted

  /** What `checkCameraPermission` does before returning to its caller. */
  datatype PermissionCheck =
    | Answered(granted: bool)   // completion invoked synchronously
    | Prompting                 // `requestAccess` issued; completion comes later

  function CheckCameraPermission(status: AuthorizationStatus): (check: PermissionCheck)
    ensures check.Prompting? <==> status == NotDetermined
    ensures check.Answered? ==> (check.granted <==> status == Authorized)
  {
    match status
    case Authorized => Answered(true)
    case NotDetermined => Prompting
    case _ => Answered(false)
  }

  /**
   * The values the completion receives over the whole exchange, given the
   * answer the user would give to the prompt.
   */
  function CompletionCalls(status: AuthorizationStatus, userAnswer: bool): seq<bool>
  {
    match CheckCameraPermission(status)
    case Answered(granted) => [granted]
    case Prompting => [userAnswer]
  }

  /**
   * Each query hands the completion a single value, `true` only for an
   * authorized status or a granted prompt. That each query is answered
   * exactly once across a whole run is the invariant `Valid` keeps.
   */
  lemma CompletionCalledOnce(status: AuthorizationStatus, userAnswer: bool)
    ensures |CompletionCalls(status, userAnswer)| == 1
    ensures CompletionCalls(status, userAnswer)[0]
            <==> status == Authorized || (status == NotDetermined && userAnswer)
  {
  }

  /** Denied and restricted statuses never grant, whatever the user would answer. */
  lemma RefusingStatusNeverGrants(status: AuthorizationStatus, userAnswer: bool)
    requires status == Denied || status == Restricted
    ensures CompletionCalls(status, userAnswer) == [false]
    ensures CheckCameraPermission(status) == Answered(false)
  {
  }
}
