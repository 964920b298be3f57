/** The single PIN challenge screen's view model (presentation/pin/ui/viewmodels/PinViewModel.kt):
    execute the challenge, then turn the validation outcome into a state. Emissions go to a ghost
    log; use-case results are parameters. */
module PinRunner {
  import opened Wrappers
  import opened Errors

  /** PinUiState. */
  datatype UiState =
    | Initial
    | Loading
    | ChallengeExecuted(challengeId: string)
    | ChallengeValidationError(challengeId: string)
    | Success(challengeId: string)
    | Error(error: IDDigitalError)

  datatype Call = ExecuteChallenge(challengeId: string) | ValidateChallenge(challengeId: string, pin: string)

  /** What reading the `lateinit` challenge id throws before `setInitialState`. */
  const ChallengeIdNotInitialized: Throwable :=
    Runtime(UninitializedPropertyAccessException, Some("lateinit property challengeId has not been initialized"))

  /** The state `executeChallenge` emits. */
  function ExecutionState(challengeId: Option<string>, execution: Result<(), Throwable>): (s: UiState)
    ensures s.ChallengeExecuted? <==> challengeId.Some? && execution.Ok?
    ensures s.ChallengeExecuted? ==> s.challengeId == challengeId.value
    ensures challengeId.Some? && execution.Err? ==> s == Error(ToIDDigitalError(execution.error, "Error executing challenge"))
    ensures challengeId.None? ==> s == Error(UnknownError("Error executing challenge", Some(ChallengeIdNotInitialized)))
  {
    if challengeId.None? then Error(ToIDDigitalError(ChallengeIdNotInitialized, "Error executing challenge"))
    else if execution.Ok? then ChallengeExecuted(challengeId.value)
    else Error(ToIDDigitalError(execution.error, "Error executing challenge"))
  }

  /** The one state `validateChallenge` emits. The inner catch handles every throw of the use case
      (and of the `lateinit` read), so the outer catch is never reached. */
  function ValidationState(challengeId: Option<string>, outcome: Result<bool, Throwable>): (s: UiState)
    ensures s.Success? <==> challengeId.Some? && outcome == Ok(true)
    ensures s.ChallengeValidationError? <==> challengeId.Some? && outcome == Ok(false)
    ensures s.Error? <==> challengeId.None? || outcome.Err?
    ensures s.Success? || s.ChallengeValidationError? ==> s.challengeId == challengeId.value
    ensures challengeId.Some? && outcome.Err? ==> s == Error(ToIDDigitalError(outcome.error, "Error validating challenge"))
  {
    if challengeId.None? then Error(ToIDDigitalError(ChallengeIdNotInitialized, "Error validating challenge"))
    else match outcome
      case Err(t) => Error(ToIDDigitalError(t, "Error validating challenge"))
      case Ok(isValid) => if !isValid then UiState.ChallengeValidationError(challengeId.value) else Success(challengeId.value)
  }

  /** A rejected PIN is never reported as an error, and a failing call never as a verdict; a network
      failure keeps its classification. */
  lemma ValidationVerdicts(id: string, t: Throwable)
    ensures !ValidationState(Some(id), Ok(false)).Error?
    ensures ValidationState(Some(id), Err(t)).Error?
    ensures IsSocketLevel(t) ==> IsNetworkError(ValidationState(Some(id), Err(t)).error)
  {
  }

  /** PinViewModel. */
  class PinViewModel {
    var challengeId: Option<string>
    ghost var emitted: seq<UiState>
    ghost var calls: seq<Call>

    constructor()
      ensures challengeId.None? && emitted == [] && calls == []
    {
      challengeId := None;
      emitted := [];
      calls := [];
    }

    /** `setInitialState`: the id is stored before `Initial` is emitted. */
    method SetInitialState(id: string)
      modifies this`challengeId, this`emitted
      ensures challengeId == Some(id)
      ensures emitted == old(emitted) + [Initial]
    {
      challengeId := Some(id);
      emitted := emitted + [Initial];
    }

    /** `executeChallenge`, with `execution` the use case's result. */
    method ExecutePinChallenge(execution: Result<(), Throwable>)
      modifies this`emitted, this`calls
      ensures emitted == old(emitted) + [ExecutionState(challengeId, execution)]
      ensures calls == old(calls) + (if challengeId.Some? then [ExecuteChallenge(challengeId.value)] else [])
    {
      if challengeId.None? {
        emitted := emitted + [Error(ToIDDigitalError(ChallengeIdNotInitialized, "Error executing challenge"))];
        return;
      }
      calls := calls + [ExecuteChallenge(challengeId.value)];
      if execution.Ok? {
        emitted := emitted + [ChallengeExecuted(challengeId.value)];
      } else {
        emitted := emitted + [Error(ToIDDigitalError(execution.error, "Error executing challenge"))];
      }
    }

    /** `requestPin`: Loading, then the execution. */
    method RequestPin(execution: Result<(), Throwable>)
      modifies this`emitted, this`calls
      ensures emitted == old(emitted) + [Loading, ExecutionState(challengeId, execution)]
      ensures calls == old(calls) + (if challengeId.Some? then [ExecuteChallenge(challengeId.value)] else [])
    {
      emitted := emitted + [Loading];
      ExecutePinChallenge(execution);
    }

    /** `validateChallenge(pin)`, with `outcome` the use case's result. */
    method ValidatePinChallenge(pin: string, outcome: Result<bool, Throwable>)
      modifies this`emitted, this`calls
      ensures emitted == old(emitted) + [ValidationState(challengeId, outcome)]
      ensures calls == old(calls) + (if challengeId.Some? then [ValidateChallenge(challengeId.value, pin)] else [])
    {
      if challengeId.None? {
        emitted := emitted + [Error(ToIDDigitalError(ChallengeIdNotInitialized, "Error validating challenge"))];
        return;
      }
      calls := calls + [ValidateChallenge(challengeId.value, pin)];
      if outcome.Err? {
        emitted := emitted + [Error(ToIDDigitalError(outcome.error, "Error validating challenge"))];
        return;
      }
      if !outcome.value {
        emitted := emitted + [UiState.ChallengeValidationError(challengeId.value)];
      } else {
        emitted := emitted + [Success(challengeId.value)];
      }
    }
  }
}
