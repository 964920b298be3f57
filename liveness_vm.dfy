/** The single liveness challenge screen's view model (presentation/liveness/ui/viewmodels/
    LivenessViewModel.kt): a camera-permission handshake, the create / execute / validate calls and
    the mapping of the face-liveness vendor's errors. Emissions go to a ghost log; permission checks
    and use-case results are parameters. */
module LivenessRunner {
  import opened Wrappers
  import opened Errors
  import opened Models

  /** LivenessUiState. */
  datatype UiState =
    | Initial(document: Document)
    | Loading
    | ChallengeCreated(challengeId: string)
    | ChallengeExecuted(challengeId: string, sessionId: string)
    | ChallengeCompleted(challengeId: string)
    | Success(challengeId: string)
    | Error(error: IDDigitalError)

  /** The collaborators the view model calls. */
  datatype Call =
    | RequestCameraPermission
    | CreateChallenge(document: Document)
    | ExecuteChallenge(challengeId: string)
    | ValidateChallenge(challengeId: string)

  /** FaceLivenessDetectionException, by subclass, with its optional underlying throwable. */
  datatype DetectionFailure =
    | UserCancelled(throwable: Option<Throwable>)
    | CameraPermissionDenied(throwable: Option<Throwable>)
    | SessionTimedOut(throwable: Option<Throwable>)
    | OtherDetectionFailure(throwable: Option<Throwable>)

  /** What reading the `lateinit` document throws before `setInitialState`. */
  const DocumentNotInitialized: Throwable :=
    Runtime(UninitializedPropertyAccessException, Some("lateinit property document has not been initialized"))

  /** The `when` of `onLivenessError`. A cancellation drops the vendor's throwable; the others keep
      it as the cause. */
  function DetectionError(f: DetectionFailure): (e: IDDigitalError)
    ensures e.UserCancelledError? <==> f.UserCancelled?
    ensures e.CameraPermissionError? <==> f.CameraPermissionDenied?
    ensures e.TimeoutError? <==> f.SessionTimedOut?
    ensures e.UnknownError? <==> f.OtherDetectionFailure?
    ensures f.UserCancelled? ==> e.cause.None?
    ensures !f.UserCancelled? ==> e.cause == f.throwable
  {
    match f
    case UserCancelled(_) => UserCancelledError("User cancelled the validation process", None)
    case CameraPermissionDenied(t) => CameraPermissionError("Camera permission denied", t)
    case SessionTimedOut(t) => TimeoutError("Session timed out", t)
    case OtherDetectionFailure(t) => UnknownError("An unexpected error occurred", t)
  }

  /** No vendor error is reported as a network or server error, and distinct vendor classes give
      distinct SDK errors. */
  lemma DetectionErrorClasses(f: DetectionFailure, g: DetectionFailure)
    ensures !IsNetworkError(DetectionError(f))
    ensures DetectionError(f) == DetectionError(g) && !f.UserCancelled? ==> f == g
    ensures f.UserCancelled? && g.UserCancelled? ==> DetectionError(f) == DetectionError(g)
  {
  }

  /** The fixed text of each vendor class, whatever the underlying throwable. */
  lemma DetectionErrorMessages(f: DetectionFailure)
    ensures f.UserCancelled? ==> DetectionError(f).msg == "User cancelled the validation process"
    ensures f.CameraPermissionDenied? ==> DetectionError(f).msg == "Camera permission denied"
    ensures f.SessionTimedOut? ==> DetectionError(f).msg == "Session timed out"
    ensures f.OtherDetectionFailure? ==> DetectionError(f).msg == "An unexpected error occurred"
  {
  }

  /** The state `createChallenge` emits: the created id, or the classified failure. */
  function CreationState(document: Option<Document>, creation: Result<string, Throwable>): (s: UiState)
    ensures document.None? ==> s == Error(UnknownError("Error creating challenge", Some(DocumentNotInitialized)))
    ensures document.Some? && creation.Ok? ==> s == ChallengeCreated(creation.value)
    ensures document.Some? && creation.Err? ==> s == Error(ToIDDigitalError(creation.error, "Error creating challenge"))
  {
    if document.None? then Error(ToIDDigitalError(DocumentNotInitialized, "Error creating challenge"))
    else if creation.Ok? then ChallengeCreated(creation.value)
    else Error(ToIDDigitalError(creation.error, "Error creating challenge"))
  }

  /** The state `validateChallenge` emits. The Boolean verdict is discarded: any return is
      Success; a throw becomes an UnknownError quoting the message, never a classified error. */
  function ValidationState(challengeId: string, outcome: Result<bool, Throwable>): (s: UiState)
    ensures s.Success? <==> outcome.Ok?
    ensures s.Success? ==> s.challengeId == challengeId
    ensures outcome.Err? ==>
              s == Error(UnknownError("Error validating challenge: " + Interpolated(ThrowableMessage(outcome.error)), None))
  {
    match outcome
    case Ok(_) => Success(challengeId)
    case Err(t) => Error(UnknownError("Error validating challenge: " + Interpolated(ThrowableMessage(t)), None))
  }

  /** A rejected liveness check is shown as a success, exactly like an accepted one. */
  lemma RejectedLivenessSucceeds(challengeId: string)
    ensures ValidationState(challengeId, Ok(false)) == ValidationState(challengeId, Ok(true)) == Success(challengeId)
  {
  }

  /** Even a network failure during validation is reported unclassified. */
  lemma ValidationFailureUnclassified(challengeId: string, t: Throwable)
    ensures ValidationState(challengeId, Err(t)).Error? && ValidationState(challengeId, Err(t)).error.UnknownError?
    ensures ValidationState(challengeId, Err(t)).error.cause.None?
  {
  }

  /** What `onPermissionResult` does. */
  datatype PermissionAction = Ignore | Deny | Create

  function PermissionDecision(requested: bool, isGranted: bool): (a: PermissionAction)
    ensures a == Ignore <==> !requested
    ensures a == Deny <==> requested && !isGranted
    ensures a == Create <==> requested && isGranted
  {
    if !requested then Ignore else if !isGranted then Deny else Create
  }

  /** LivenessViewModel. */
  class LivenessViewModel {
    var document: Option<Document>
    var cameraPermissionRequested: bool
    ghost var emitted: seq<UiState>
    ghost var calls: seq<Call>
    /** The values sent on the permission-result channel. */
    ghost var permissionResults: seq<bool>

    constructor()
      ensures document.None? && !cameraPermissionRequested
      ensures emitted == [] && calls == [] && permissionResults == []
    {
      document := None;
      cameraPermissionRequested := false;
      emitted := [];
      calls := [];
      permissionResults := [];
    }

    /** `setInitialState`. */
    method SetInitialState(d: Document)
      modifies this`document, this`emitted
      ensures document == Some(d)
      ensures emitted == old(emitted) + [Initial(d)]
    {
      document := Some(d);
      emitted := emitted + [Initial(d)];
    }

    /** `createChallenge`, with `creation` the use case's result. */
    method CreateLivenessChallenge(creation: Result<string, Throwable>)
      modifies this`emitted, this`calls
      ensures emitted == old(emitted) + [CreationState(document, creation)]
      ensures calls == old(calls) + (if document.Some? then [CreateChallenge(document.value)] else [])
    {
      if document.None? {
        emitted := emitted + [Error(ToIDDigitalError(DocumentNotInitialized, "Error creating challenge"))];
        return;
      }
      calls := calls + [CreateChallenge(document.value)];
      if creation.Err? {
        emitted := emitted + [Error(ToIDDigitalError(creation.error, "Error creating challenge"))];
        return;
      }
      emitted := emitted + [ChallengeCreated(creation.value)];
    }

    /** `startLiveness`: `hasPermission` is the camera-permission check and `isGranted` what the
        permission request answers. Without permission no challenge is created in this call. */
    method StartLiveness(hasPermission: bool, isGranted: bool, creation: Result<string, Throwable>)
      modifies this`emitted, this`calls, this`cameraPermissionRequested, this`permissionResults
      ensures !hasPermission ==>
                cameraPermissionRequested && emitted == old(emitted) + [Loading] &&
                calls == old(calls) + [RequestCameraPermission] && permissionResults == old(permissionResults) + [isGranted]
      ensures hasPermission ==>
                cameraPermissionRequested == old(cameraPermissionRequested) &&
                emitted == old(emitted) + [Loading, CreationState(document, creation)] &&
                calls == old(calls) + (if document.Some? then [CreateChallenge(document.value)] else []) &&
                permissionResults == old(permissionResults)
    {
      emitted := emitted + [Loading];
      if !hasPermission {
        cameraPermissionRequested := true;
        calls := calls + [RequestCameraPermission];
        permissionResults := permissionResults + [isGranted];
        return;
      }
      CreateLivenessChallenge(creation);
    }

    /** `onPermissionResult`: acts only on a pending request, and clears it. */
    method OnPermissionResult(isGranted: bool, creation: Result<string, Throwable>)
      modifies this`emitted, this`calls, this`cameraPermissionRequested
      ensures !cameraPermissionRequested
      ensures PermissionDecision(old(cameraPermissionRequested), isGranted) == Ignore ==>
                emitted == old(emitted) && calls == old(calls)
      ensures PermissionDecision(old(cameraPermissionRequested), isGranted) == Deny ==>
                emitted == old(emitted) + [Error(CameraPermissionError("Camera permission denied", None))] &&
                calls == old(calls)
      ensures PermissionDecision(old(cameraPermissionRequested), isGranted) == Create ==>
                emitted == old(emitted) + [CreationState(document, creation)] &&
                calls == old(calls) + (if document.Some? then [CreateChallenge(document.value)] else [])
    {
      if !cameraPermissionRequested {
        return;
      }
      cameraPermissionRequested := false;
      if !isGranted {
        emitted := emitted + [Error(CameraPermissionError("Camera permission denied", None))];
        return;
      }
      CreateLivenessChallenge(creation);
    }

    /** `executeChallenge(challengeId)`. */
    method ExecuteLivenessChallenge(challengeId: string, execution: Result<string, Throwable>)
      modifies this`emitted, this`calls
      ensures calls == old(calls) + [ExecuteChallenge(challengeId)]
      ensures execution.Ok? ==> emitted == old(emitted) + [ChallengeExecuted(challengeId, execution.value)]
      ensures execution.Err? ==>
                emitted == old(emitted) + [Error(ToIDDigitalError(execution.error, "Error executing challenge"))]
    {
      calls := calls + [ExecuteChallenge(challengeId)];
      if execution.Ok? {
        emitted := emitted + [ChallengeExecuted(challengeId, execution.value)];
      } else {
        emitted := emitted + [Error(ToIDDigitalError(execution.error, "Error executing challenge"))];
      }
    }

    /** `validateChallenge(challengeId)`. */
    method ValidateLivenessChallenge(challengeId: string, outcome: Result<bool, Throwable>)
      modifies this`emitted, this`calls
      ensures calls == old(calls) + [ValidateChallenge(challengeId)]
      ensures emitted == old(emitted) + [ValidationState(challengeId, outcome)]
    {
      calls := calls + [ValidateChallenge(challengeId)];
      if outcome.Ok? {
        emitted := emitted + [Success(challengeId)];
      } else {
        emitted := emitted + [Error(UnknownError("Error validating challenge: " + Interpolated(ThrowableMessage(outcome.error)), None))];
      }
    }

    /** `onLivenessCompleted`. */
    method OnLivenessCompleted(challengeId: string)
      modifies this`emitted
      ensures emitted == old(emitted) + [ChallengeCompleted(challengeId)]
    {
      emitted := emitted + [ChallengeCompleted(challengeId)];
    }

    /** `onLivenessError`. */
    method OnLivenessError(f: DetectionFailure)
      modifies this`emitted
      ensures emitted == old(emitted) + [Error(DetectionError(f))]
    {
      emitted := emitted + [Error(DetectionError(f))];
    }
  }
}
