/** The device-association runner (presentation/device_association/ui/viewmodels/
    DeviceAssociationViewModel.kt). It checks that the user may associate this device, creates an
    association session, walks its challenges with the shared cursor-and-counter policy and, once
    every challenge is passed, completes the association with the backend and persists it.
    Emissions go to a ghost log, use-case calls to a ghost call log; use-case results are
    parameters. */
module DeviceAssociationRunner {
  import opened Wrappers
  import opened Errors
  import opened Models
  import opened SessionPolicy
  import opened PinStore
  import opened AssociationStore

  /** DeviceAssociationUiState. */
  datatype UiState =
    | Initial
    | Loading
    | LaunchChallenge(challenge: Challenge, isRetry: bool)
    | Success
    | Error(error: IDDigitalError)

  /** The use cases the runner calls. */
  datatype Call =
    | CheckCanAssociate(document: Document)
    | CreateAssociation(document: Document)
    | CompleteAssociation(sessionId: string)
    | ExecuteLiveness(challengeId: string)
    | ExecutePin(challengeId: string)
    | ValidateLiveness(challengeId: string)
    | ValidatePin(challengeId: string, pin: string)

  const IndexOutOfBounds: Throwable := Runtime(IndexOutOfBoundsException, None)

  /** What `finishDeviceAssociation` throws when no session was ever created. */
  const SessionNotInitialized: Throwable :=
    Runtime(IllegalStateException, Some("deviceAssociationSession is not initialized"))

  /** What reading the `lateinit` document throws before `setDocument`. */
  const DocumentNotInitialized: Throwable :=
    Runtime(UninitializedPropertyAccessException, Some("lateinit property document has not been initialized"))

  /** What `data as String` throws when the PIN screen hands back something else. */
  const PinCastFailure: Throwable := Runtime(ClassCastException, None)

  const StartErrorPrefix: string := "Error starting association: "

  /** The `catch (e: Exception)` of `startDeviceAssociation`: the states it emits and what escapes.
      An IDDigitalError extends Throwable and not Exception, so it is not caught. */
  function CatchException(t: Throwable): (r: (seq<UiState>, Option<Throwable>))
    ensures r.1.Some? <==> !IsException(t)
    ensures r.1.Some? ==> r == ([], Some(t))
    ensures r.1.None? ==> |r.0| == 1 && r.0[0].Error? && r.0[0].error.UnknownError? && r.0[0].error.cause.None?
    ensures r.1.None? ==> var m := r.0[0].error.msg;
              |StartErrorPrefix| <= |m| && m[..|StartErrorPrefix|] == StartErrorPrefix &&
              m[|StartErrorPrefix|..] == Interpolated(ThrowableMessage(t))
  {
    if IsException(t) then ([Error(UnknownError(StartErrorPrefix + Interpolated(ThrowableMessage(t)), None))], None)
    else ([], Some(t))
  }

  /** Every failure of the network layer reaches the runner as an IDDigitalError, and none of them
      gets an error state out of `startDeviceAssociation`: each escapes the coroutine. */
  lemma SdkErrorsEscapeStart(e: IDDigitalError)
    ensures CatchException(Digital(e)) == ([], Some(Digital(e)))
  {
  }

  /** A missing document is reported with the `lateinit` message in the error text. */
  lemma MissingDocumentReported()
    ensures CatchException(DocumentNotInitialized) ==
              ([Error(UnknownError(StartErrorPrefix + "lateinit property document has not been initialized", None))], None)
  {
  }

  /** `finishDeviceAssociation`: the record saved, or the throw. */
  function FinishResult(session: Option<ValidationSession>, completion: Result<DeviceAssociation, Throwable>,
                        record: AssociationProto): (r: Result<AssociationProto, Throwable>)
    ensures session.None? ==> r == Err(SessionNotInitialized)
    ensures session.Some? && completion.Err? ==> r == Err(completion.error)
    ensures session.Some? && completion.Ok? ==> r == SaveUpdate(record, completion.value)
    ensures r.Ok? ==>
              ToAssociation(r.value) ==
                Some(DeviceAssociation(completion.value.token, completion.value.document,
                                       completion.value.createdAt, record.idToken))
  {
    match session
    case None => Err(SessionNotInitialized)
    case Some(_) =>
      match completion
      case Err(t) => Err(t)
      case Ok(association) =>
        var saved := SaveUpdate(record, association);
        if saved.Ok? then SaveThenGet(record, association); saved else saved
  }

  /** The effect of a stretch of the runner: states emitted, calls made, the cursor and the stored
      record afterwards, and what it throws. */
  datatype Effect = Effect(emitted: seq<UiState>, calls: seq<Call>, cursor: Cursor, record: AssociationProto,
                           thrown: Option<Throwable>)

  /** The state the launch decision emits; `Finish` does not reach here. */
  function DecisionState(d: LaunchDecision): UiState {
    match d
    case Finish => Success
    case GiveUp => Error(ChallengeValidationError)
    case InvalidType => Error(UnknownError("Invalid challenge type", None))
    case Launch(challenge, isRetry) => LaunchChallenge(challenge, isRetry)
  }

  /** `launchNextChallenge`: past the last challenge it finishes the association, which may throw. */
  function LaunchEffect(cs: seq<Challenge>, c: Cursor, session: Option<ValidationSession>,
                        completion: Result<DeviceAssociation, Throwable>, record: AssociationProto): Effect
  {
    if c.index < |cs| then Effect([DecisionState(NextLaunch(cs, c))], [], c, record, None)
    else
      var calls := if session.Some? then [CompleteAssociation(session.value.id)] else [];
      match FinishResult(session, completion, record)
      case Ok(saved) => Effect([Success], calls, c, saved, None)
      case Err(t) => Effect([], calls, c, record, Some(t))
  }

  /** The try block of `validateChallenge` up to its `launchNextChallenge`: the cursor it leaves, or
      `None` when it throws before. A liveness verdict moves the cursor as the shared policy says;
      a PIN that is not a string, or a throwing use case, never reaches the launch. */
  function TryBlock(cs: seq<Challenge>, c: Cursor, outcome: Result<bool, Throwable>, data: Option<string>): (r: Option<Cursor>)
    requires c.index < |cs|
    ensures r.Some? && FromString(cs[c.index].challengeType).Some? ==> r.value == Step(cs, c, outcome)
  {
    match FromString(cs[c.index].challengeType)
    case Some(Liveness) => if outcome.Ok? then Some(LivenessStep(c, outcome)) else None
    case Some(Pin) => if data.Some? && outcome.Ok? then Some(PinStep(c, outcome)) else None
    case None => Some(c)
  }

  /** The try and the catch of `validateChallenge` from cursor `c`: when the try reaches the launch
      and the launch throws, the catch counts a failure and launches again with the second completion
      result, whose throw escapes. */
  function LaunchChain(cs: seq<Challenge>, c: Cursor, reached: bool, session: Option<ValidationSession>,
                       completion: Result<DeviceAssociation, Throwable>, retryCompletion: Result<DeviceAssociation, Throwable>,
                       record: AssociationProto): Effect
  {
    if reached then
      var first := LaunchEffect(cs, c, session, completion, record);
      if first.thrown.None? then first
      else
        var second := LaunchEffect(cs, Cursor(c.index, c.errors + 1), session, retryCompletion, first.record);
        Effect(first.emitted + second.emitted, first.calls + second.calls, second.cursor, second.record, second.thrown)
    else LaunchEffect(cs, Cursor(c.index, c.errors + 1), session, completion, record)
  }

  /** The effect of validating the current challenge, after its `Loading` state and use-case call. */
  function ValidateEffect(cs: seq<Challenge>, c: Cursor, outcome: Result<bool, Throwable>, data: Option<string>,
                          session: Option<ValidationSession>, completion: Result<DeviceAssociation, Throwable>,
                          retryCompletion: Result<DeviceAssociation, Throwable>, record: AssociationProto): Effect
    requires c.index < |cs|
  {
    var reached := TryBlock(cs, c, outcome, data);
    LaunchChain(cs, reached.GetOr(c), reached.Some?, session, completion, retryCompletion, record)
  }

  /** Short of the last challenge the validation moves the cursor exactly as the shared policy
      does (a PIN that is not a string counting as a failure), emits that cursor's decision, makes no
      further call and throws nothing. */
  lemma ValidateFollowsPolicy(cs: seq<Challenge>, c: Cursor, outcome: Result<bool, Throwable>, data: Option<string>,
                              session: Option<ValidationSession>, completion: Result<DeviceAssociation, Throwable>,
                              retryCompletion: Result<DeviceAssociation, Throwable>, record: AssociationProto)
    requires c.index < |cs| && FromString(cs[c.index].challengeType).Some?
    ensures var policy := if FromString(cs[c.index].challengeType) == Some(Pin) && data.None?
                          then Step(cs, c, Err(PinCastFailure)) else Step(cs, c, outcome);
            var e := ValidateEffect(cs, c, outcome, data, session, completion, retryCompletion, record);
            policy.index < |cs| ==>
              e == Effect([DecisionState(NextLaunch(cs, policy))], [], policy, record, None)
  {
    var t := FromString(cs[c.index].challengeType);
    var reached := TryBlock(cs, c, outcome, data);
    if reached.None? {
      if t == Some(Liveness) {
        assert outcome.Err? && Step(cs, c, outcome) == Cursor(c.index, c.errors + 1);
      } else {
        assert Step(cs, c, if data.None? then Err(PinCastFailure) else outcome) == Cursor(c.index, c.errors + 1);
      }
    }
  }

  /** Passing the last challenge with a completion that fails costs one attempt and calls completion
      a second time; if that one succeeds the association is stored and Success is the only state. */
  lemma CompletionFailureRetried(cs: seq<Challenge>, c: Cursor, outcome: Result<bool, Throwable>, data: Option<string>,
                                 s: ValidationSession, failure: Throwable, retryCompletion: Result<DeviceAssociation, Throwable>,
                                 record: AssociationProto)
    requires c.index == |cs| - 1 && FromString(cs[c.index].challengeType).Some?
    requires TryBlock(cs, c, outcome, data).Some? && TryBlock(cs, c, outcome, data).value.index == |cs|
    ensures var e := ValidateEffect(cs, c, outcome, data, Some(s), Err(failure), retryCompletion, record);
            var step := TryBlock(cs, c, outcome, data).value;
            e.calls == [CompleteAssociation(s.id), CompleteAssociation(s.id)] &&
            e.cursor == Cursor(step.index, step.errors + 1) &&
            (FinishResult(Some(s), retryCompletion, record).Ok? ==>
               e.emitted == [Success] && e.thrown.None? &&
               ToAssociation(e.record) == Some(DeviceAssociation(retryCompletion.value.token, retryCompletion.value.document,
                                                                 retryCompletion.value.createdAt, record.idToken))) &&
            (FinishResult(Some(s), retryCompletion, record).Err? ==>
               e.emitted == [] && e.record == record && e.thrown == Some(FinishResult(Some(s), retryCompletion, record).error))
  {
  }

  /** A completion that fails twice escapes `validateChallenge` with the second failure; the error
      states of the flow are never reached. */
  lemma CompletionFailingTwiceEscapes(cs: seq<Challenge>, c: Cursor, s: ValidationSession,
                                      f1: Throwable, f2: Throwable, record: AssociationProto)
    requires c.index == |cs|
    ensures LaunchChain(cs, c, true, Some(s), Err(f1), Err(f2), record) ==
              Effect([], [CompleteAssociation(s.id), CompleteAssociation(s.id)], Cursor(c.index, c.errors + 1), record, Some(f2))
  {
  }

  /** The state after `launchNextChallenge` when the session has no challenges at all: the
      association is completed at once. */
  lemma EmptySessionCompletesAtOnce(s: ValidationSession, errors: nat, association: DeviceAssociation, record: AssociationProto)
    requires s.challenges == [] && association.document.docType.Some? && association.document.country.Some?
    ensures var e := LaunchEffect(s.challenges, Cursor(0, errors), Some(s), Ok(association), record);
            e.emitted == [Success] && e.calls == [CompleteAssociation(s.id)] && e.thrown.None? &&
            ToAssociation(e.record) == Some(DeviceAssociation(association.token, association.document, association.createdAt, record.idToken))
  {
  }

  /** DeviceAssociationViewModel. */
  class DeviceAssociationViewModel {
    var document: Option<Document>
    var deviceAssociationSession: Option<ValidationSession>
    var challenges: seq<Challenge>
    var currentChallengeIndex: nat
    var currentChallengeValidationErrors: nat
    const pinStore: PinDataStore
    const associations: DeviceAssociationStore
    ghost var emitted: seq<UiState>
    ghost var calls: seq<Call>

    ghost predicate Valid()
      reads this
    {
      currentChallengeIndex <= |challenges| &&
      (deviceAssociationSession.Some? ==> challenges == deviceAssociationSession.value.challenges) &&
      (deviceAssociationSession.None? ==> challenges == [])
    }

    function Position(): Cursor
      reads this
    {
      Cursor(currentChallengeIndex, currentChallengeValidationErrors)
    }

    constructor(pinStore: PinDataStore, associations: DeviceAssociationStore)
      ensures Valid()
      ensures document.None? && deviceAssociationSession.None? && challenges == [] && Position() == Cursor(0, 0)
      ensures this.pinStore == pinStore && this.associations == associations
      ensures emitted == [] && calls == []
    {
      document := None;
      deviceAssociationSession := None;
      challenges := [];
      currentChallengeIndex := 0;
      currentChallengeValidationErrors := 0;
      this.pinStore := pinStore;
      this.associations := associations;
      emitted := [];
      calls := [];
    }

    /** `setDocument`. */
    method SetDocument(d: Document)
      modifies this`document, this`emitted
      ensures document == Some(d)
      ensures emitted == old(emitted) + [Initial]
    {
      document := Some(d);
      emitted := emitted + [Initial];
    }

    /** `finishDeviceAssociation`. */
    method FinishDeviceAssociation(completion: Result<DeviceAssociation, Throwable>) returns (thrown: Option<Throwable>)
      modifies this`emitted, this`calls, associations
      ensures var e := LaunchEffect(challenges, Cursor(|challenges|, 0), deviceAssociationSession, completion, old(associations.record));
              emitted == old(emitted) + e.emitted && calls == old(calls) + e.calls &&
              associations.record == e.record && thrown == e.thrown
    {
      if deviceAssociationSession.None? {
        return Some(SessionNotInitialized);
      }
      calls := calls + [CompleteAssociation(deviceAssociationSession.value.id)];
      if completion.Err? {
        return Some(completion.error);
      }
      var saved := associations.Save(completion.value);
      if saved.Err? {
        return Some(saved.error);
      }
      emitted := emitted + [Success];
      thrown := None;
    }

    /** `launchNextChallenge`, with `completion` the completion use case's result should it finish. */
    method LaunchNextChallenge(completion: Result<DeviceAssociation, Throwable>) returns (thrown: Option<Throwable>)
      modifies this`emitted, this`calls, associations
      ensures var e := LaunchEffect(challenges, Position(), deviceAssociationSession, completion, old(associations.record));
              emitted == old(emitted) + e.emitted && calls == old(calls) + e.calls &&
              associations.record == e.record && thrown == e.thrown
    {
      if currentChallengeIndex >= |challenges| {
        thrown := FinishDeviceAssociation(completion);
        return;
      }
      thrown := None;
      if currentChallengeValidationErrors >= MaxValidationAttempts {
        emitted := emitted + [Error(ChallengeValidationError)];
        return;
      }
      var challenge := challenges[currentChallengeIndex];
      if FromString(challenge.challengeType).None? {
        emitted := emitted + [Error(UnknownError("Invalid challenge type", None))];
        return;
      }
      emitted := emitted + [LaunchChallenge(challenge, currentChallengeValidationErrors > 0)];
    }

    /** The end of the try block of `startDeviceAssociation`: the created session's challenges are
        installed, the cursor goes back to the first one and the next challenge is launched. */
    method BeginSession(session: ValidationSession, completion: Result<DeviceAssociation, Throwable>)
      returns (failure: Option<Throwable>)
      modifies this`emitted, this`calls, this`challenges, this`deviceAssociationSession, this`currentChallengeIndex, associations
      ensures Valid()
      ensures deviceAssociationSession == Some(session) && challenges == session.challenges && currentChallengeIndex == 0
      ensures var e := LaunchEffect(session.challenges, Cursor(0, currentChallengeValidationErrors), Some(session),
                                    completion, old(associations.record));
              emitted == old(emitted) + e.emitted && calls == old(calls) + e.calls &&
              associations.record == e.record && failure == e.thrown
    {
      challenges := session.challenges;
      deviceAssociationSession := Some(session);
      currentChallengeIndex := 0;
      failure := LaunchNextChallenge(completion);
    }

    /** The try block of `startDeviceAssociation`: what it emits and calls, and the throwable it
        leaves for the catch. The `lateinit` document read throws before anything is called. */
    method StartTryBlock(canAssociate: Result<bool, Throwable>, creation: Result<ValidationSession, Throwable>,
                         completion: Result<DeviceAssociation, Throwable>) returns (failure: Option<Throwable>)
      requires Valid()
      modifies this`emitted, this`calls, this`challenges, this`deviceAssociationSession, this`currentChallengeIndex, associations
      ensures Valid()
      ensures !(document.Some? && canAssociate == Ok(true) && creation.Ok?) ==>
                challenges == old(challenges) && deviceAssociationSession == old(deviceAssociationSession) &&
                currentChallengeIndex == old(currentChallengeIndex) && associations.record == old(associations.record)
      ensures document.None? ==>
                failure == Some(DocumentNotInitialized) && emitted == old(emitted) + [Loading] && calls == old(calls)
      ensures document.Some? && canAssociate.Err? ==>
                failure == Some(canAssociate.error) && emitted == old(emitted) + [Loading] &&
                calls == old(calls) + [CheckCanAssociate(document.value)]
      ensures document.Some? && canAssociate == Ok(false) ==>
                failure.None? && emitted == old(emitted) + [Loading, Error(UserCannotBeAssociatedError)] &&
                calls == old(calls) + [CheckCanAssociate(document.value)]
      ensures document.Some? && canAssociate == Ok(true) && creation.Err? ==>
                failure == Some(creation.error) && emitted == old(emitted) + [Loading] &&
                calls == old(calls) + [CheckCanAssociate(document.value), CreateAssociation(document.value)]
      ensures document.Some? && canAssociate == Ok(true) && creation.Ok? ==>
                var e := LaunchEffect(creation.value.challenges, Cursor(0, currentChallengeValidationErrors),
                                      Some(creation.value), completion, old(associations.record));
                deviceAssociationSession == Some(creation.value) && challenges == creation.value.challenges &&
                currentChallengeIndex == 0 && failure == e.thrown &&
                emitted == old(emitted) + [Loading] + e.emitted &&
                calls == old(calls) + [CheckCanAssociate(document.value), CreateAssociation(document.value)] + e.calls &&
                associations.record == e.record
    {
      emitted := emitted + [Loading];
      if document.None? {
        return Some(DocumentNotInitialized);
      }
      calls := calls + [CheckCanAssociate(document.value)];
      if canAssociate.Err? {
        return Some(canAssociate.error);
      }
      if !canAssociate.value {
        emitted := emitted + [Error(UserCannotBeAssociatedError)];
        return None;
      }
      calls := calls + [CreateAssociation(document.value)];
      if creation.Err? {
        return Some(creation.error);
      }
      failure := BeginSession(creation.value, completion);
    }

    /** `startDeviceAssociation`, with the results of the check, creation and (for a session without
        challenges) completion use cases. The failure counter is not reset. */
    method StartDeviceAssociation(canAssociate: Result<bool, Throwable>, creation: Result<ValidationSession, Throwable>,
                                  completion: Result<DeviceAssociation, Throwable>) returns (escaped: Option<Throwable>)
      requires Valid()
      modifies this`emitted, this`calls, this`challenges, this`deviceAssociationSession, this`currentChallengeIndex, associations
      ensures Valid()
      ensures !(document.Some? && canAssociate == Ok(true) && creation.Ok?) ==>
                challenges == old(challenges) && deviceAssociationSession == old(deviceAssociationSession) &&
                currentChallengeIndex == old(currentChallengeIndex) && associations.record == old(associations.record)
      ensures document.None? ==>
                var (states, out) := CatchException(DocumentNotInitialized);
                emitted == old(emitted) + [Loading] + states && escaped == out && calls == old(calls)
      ensures document.Some? && canAssociate.Err? ==>
                var (states, out) := CatchException(canAssociate.error);
                emitted == old(emitted) + [Loading] + states && escaped == out &&
                calls == old(calls) + [CheckCanAssociate(document.value)]
      ensures document.Some? && canAssociate == Ok(false) ==>
                emitted == old(emitted) + [Loading, Error(UserCannotBeAssociatedError)] && escaped.None? &&
                calls == old(calls) + [CheckCanAssociate(document.value)]
      ensures document.Some? && canAssociate == Ok(true) && creation.Err? ==>
                var (states, out) := CatchException(creation.error);
                emitted == old(emitted) + [Loading] + states && escaped == out &&
                calls == old(calls) + [CheckCanAssociate(document.value), CreateAssociation(document.value)]
      ensures document.Some? && canAssociate == Ok(true) && creation.Ok? ==>
                var e := LaunchEffect(creation.value.challenges, Cursor(0, currentChallengeValidationErrors),
                                      Some(creation.value), completion, old(associations.record));
                var (states, out) := if e.thrown.Some? then CatchException(e.thrown.value) else ([], None);
                deviceAssociationSession == Some(creation.value) && challenges == creation.value.challenges &&
                currentChallengeIndex == 0 &&
                emitted == old(emitted) + [Loading] + e.emitted + states && escaped == out &&
                calls == old(calls) + [CheckCanAssociate(document.value), CreateAssociation(document.value)] + e.calls &&
                associations.record == e.record
    {
      var failure := StartTryBlock(canAssociate, creation, completion);
      escaped := None;
      if failure.Some? {
        var handled := CatchException(failure.value);
        emitted := emitted + handled.0;
        escaped := handled.1;
      }
    }

    /** `executeChallenge`: the liveness session id, or null. `liveness` and `pin` are the execute use
        cases' results; only the one for the current challenge's type is used. */
    method ExecuteChallenge(liveness: Result<string, Throwable>, pin: Result<(), Throwable>)
      returns (r: Result<Option<string>, Throwable>)
      requires Valid()
      modifies this`emitted, this`calls
      ensures currentChallengeIndex >= |challenges| ==>
                r == Err(IndexOutOfBounds) && emitted == old(emitted) && calls == old(calls)
      ensures currentChallengeIndex < |challenges| && FromString(challenges[currentChallengeIndex].challengeType).None? ==>
                r == Ok(None) && emitted == old(emitted) && calls == old(calls)
      ensures currentChallengeIndex < |challenges| && FromString(challenges[currentChallengeIndex].challengeType) == Some(Liveness) ==>
                calls == old(calls) + [ExecuteLiveness(challenges[currentChallengeIndex].id)] &&
                (liveness.Ok? ==> r == Ok(Some(liveness.value)) && emitted == old(emitted) + [Loading]) &&
                (liveness.Err? ==>
                   r == Ok(None) &&
                   emitted == old(emitted) + [Loading, Error(ToIDDigitalError(liveness.error, "Error executing challenge"))])
      ensures currentChallengeIndex < |challenges| && FromString(challenges[currentChallengeIndex].challengeType) == Some(Pin) ==>
                calls == old(calls) + [ExecutePin(challenges[currentChallengeIndex].id)] && r == Ok(None) &&
                (pin.Ok? ==> emitted == old(emitted) + [Loading]) &&
                (pin.Err? ==>
                   emitted == old(emitted) + [Loading, Error(ToIDDigitalError(pin.error, "Error executing challenge"))])
    {
      if currentChallengeIndex >= |challenges| {
        return Err(IndexOutOfBounds);
      }
      var currentChallenge := challenges[currentChallengeIndex];
      var currentChallengeName := FromString(currentChallenge.challengeType);
      r := Ok(None);
      if currentChallengeName == Some(Liveness) {
        emitted := emitted + [Loading];
        calls := calls + [ExecuteLiveness(currentChallenge.id)];
        if liveness.Ok? {
          return Ok(Some(liveness.value));
        }
        emitted := emitted + [Error(ToIDDigitalError(liveness.error, "Error executing challenge"))];
      }
      if currentChallengeName == Some(Pin) {
        emitted := emitted + [Loading];
        calls := calls + [ExecutePin(currentChallenge.id)];
        if pin.Err? {
          emitted := emitted + [Error(ToIDDigitalError(pin.error, "Error executing challenge"))];
        }
      }
    }

    /** The launch of the try block, and the catch's one when the try's launch throws. */
    method LaunchWithRecovery(reached: bool, completion: Result<DeviceAssociation, Throwable>,
                              retryCompletion: Result<DeviceAssociation, Throwable>) returns (thrown: Option<Throwable>)
      requires Valid()
      modifies this`emitted, this`calls, this`currentChallengeValidationErrors, associations
      ensures Valid()
      ensures var e := LaunchChain(challenges, old(Position()), reached, deviceAssociationSession, completion, retryCompletion,
                                   old(associations.record));
              emitted == old(emitted) + e.emitted && calls == old(calls) + e.calls && Position() == e.cursor &&
              associations.record == e.record && thrown == e.thrown
    {
      if reached {
        var first := LaunchNextChallenge(completion);
        if first.None? {
          return None;
        }
      }
      currentChallengeValidationErrors := currentChallengeValidationErrors + 1;
      thrown := LaunchNextChallenge(if reached then retryCompletion else completion);
    }

    /** `validateChallenge(data, options)`. `outcome` is the validating use case's result for the
        current challenge's type, `data` the PIN when `data` is a String (`None` when the cast
        throws), `saveBiometricPin` whether `options["saveBiometricPin"] == true`, and `completion`
        and `retryCompletion` the results of the first and second completion call, should the
        launches finish. */
    method ValidateChallenge(outcome: Result<bool, Throwable>, data: Option<string>, saveBiometricPin: bool,
                             completion: Result<DeviceAssociation, Throwable>,
                             retryCompletion: Result<DeviceAssociation, Throwable>) returns (thrown: Option<Throwable>)
      requires Valid()
      modifies this`emitted, this`calls, this`currentChallengeIndex, this`currentChallengeValidationErrors, associations, pinStore
      ensures Valid()
      ensures old(currentChallengeIndex) >= |challenges| ==>
                thrown == Some(IndexOutOfBounds) && emitted == old(emitted) && calls == old(calls) &&
                Position() == old(Position()) && associations.record == old(associations.record) &&
                pinStore.prefs == old(pinStore.prefs)
      ensures old(currentChallengeIndex) < |challenges| && FromString(challenges[old(currentChallengeIndex)].challengeType).None? ==>
                thrown.None? && emitted == old(emitted) && calls == old(calls) &&
                Position() == old(Position()) && associations.record == old(associations.record) &&
                pinStore.prefs == old(pinStore.prefs)
      ensures old(currentChallengeIndex) < |challenges| && FromString(challenges[old(currentChallengeIndex)].challengeType).Some? ==>
                var challenge := challenges[old(currentChallengeIndex)];
                var t := FromString(challenge.challengeType).value;
                var e := ValidateEffect(challenges, old(Position()), outcome, data, deviceAssociationSession,
                                        completion, retryCompletion, old(associations.record));
                var validation := if t == Liveness then [ValidateLiveness(challenge.id)]
                                  else if data.Some? then [ValidatePin(challenge.id, data.value)] else [];
                emitted == old(emitted) + [Loading] + e.emitted && calls == old(calls) + validation + e.calls &&
                Position() == e.cursor && associations.record == e.record && thrown == e.thrown &&
                pinStore.prefs == (if t == Pin && data.Some? && outcome.Ok? && saveBiometricPin
                                   then SaveEdit(old(pinStore.prefs), data.value, true, pinStore.encrypt)
                                   else old(pinStore.prefs))
    {
      if currentChallengeIndex >= |challenges| {
        return Some(IndexOutOfBounds);
      }
      var currentChallenge := challenges[currentChallengeIndex];
      var currentChallengeName := FromString(currentChallenge.challengeType);
      thrown := None;
      if currentChallengeName == Some(Liveness) {
        thrown := ValidateLivenessChallenge(outcome, completion, retryCompletion);
      }
      if currentChallengeName == Some(Pin) {
        thrown := ValidatePinChallenge(outcome, data, saveBiometricPin, completion, retryCompletion);
      }
    }

    /** The liveness branch of `validateChallenge`. */
    method ValidateLivenessChallenge(outcome: Result<bool, Throwable>, completion: Result<DeviceAssociation, Throwable>,
                                     retryCompletion: Result<DeviceAssociation, Throwable>) returns (thrown: Option<Throwable>)
      requires Valid() && currentChallengeIndex < |challenges|
      requires FromString(challenges[currentChallengeIndex].challengeType) == Some(Liveness)
      modifies this`emitted, this`calls, this`currentChallengeIndex, this`currentChallengeValidationErrors, associations
      ensures Valid()
      ensures var e := ValidateEffect(challenges, old(Position()), outcome, None, deviceAssociationSession,
                                      completion, retryCompletion, old(associations.record));
              emitted == old(emitted) + [Loading] + e.emitted &&
              calls == old(calls) + [ValidateLiveness(challenges[old(currentChallengeIndex)].id)] + e.calls &&
              Position() == e.cursor && associations.record == e.record && thrown == e.thrown
    {
      ghost var before := Position();
      emitted := emitted + [Loading];
      calls := calls + [ValidateLiveness(challenges[currentChallengeIndex].id)];
      if outcome.Ok? {
        if outcome.value {
          currentChallengeIndex := currentChallengeIndex + 1;
          currentChallengeValidationErrors := 0;
        } else {
          currentChallengeValidationErrors := currentChallengeValidationErrors + 1;
        }
      }
      assert TryBlock(challenges, before, outcome, None) == if outcome.Ok? then Some(Position()) else None;
      thrown := LaunchWithRecovery(outcome.Ok?, completion, retryCompletion);
    }

    /** The PIN branch of `validateChallenge`. */
    method ValidatePinChallenge(outcome: Result<bool, Throwable>, data: Option<string>, saveBiometricPin: bool,
                                completion: Result<DeviceAssociation, Throwable>,
                                retryCompletion: Result<DeviceAssociation, Throwable>) returns (thrown: Option<Throwable>)
      requires Valid() && currentChallengeIndex < |challenges|
      requires FromString(challenges[currentChallengeIndex].challengeType) == Some(Pin)
      modifies this`emitted, this`calls, this`currentChallengeIndex, this`currentChallengeValidationErrors, associations, pinStore
      ensures Valid()
      ensures var e := ValidateEffect(challenges, old(Position()), outcome, data, deviceAssociationSession,
                                      completion, retryCompletion, old(associations.record));
              emitted == old(emitted) + [Loading] + e.emitted &&
              calls == old(calls) + (if data.Some? then [ValidatePin(challenges[old(currentChallengeIndex)].id, data.value)] else []) + e.calls &&
              Position() == e.cursor && associations.record == e.record && thrown == e.thrown &&
              pinStore.prefs == (if data.Some? && outcome.Ok? && saveBiometricPin
                                 then SaveEdit(old(pinStore.prefs), data.value, true, pinStore.encrypt)
                                 else old(pinStore.prefs))
    {
      ghost var before := Position();
      ghost var e := ValidateEffect(challenges, before, outcome, data, deviceAssociationSession,
                                    completion, retryCompletion, associations.record);
      assert e == LaunchChain(challenges, if data.Some? && outcome.Ok? then PinStep(before, outcome) else before,
                              data.Some? && outcome.Ok?, deviceAssociationSession, completion, retryCompletion,
                              associations.record);
      emitted := emitted + [Loading];
      var reached := false;
      if data.Some? {
        calls := calls + [ValidatePin(challenges[currentChallengeIndex].id, data.value)];
        if outcome.Ok? {
          AcceptPin(data.value, saveBiometricPin);
          reached := true;
        }
      }
      assert Position() == if reached then PinStep(before, outcome) else before;
      assert associations.record == old(associations.record);
      thrown := LaunchWithRecovery(reached, completion, retryCompletion);
    }

    /** A PIN validation that returned: the PIN is cached when asked to, and the cursor advances
        without resetting the counter. */
    method AcceptPin(pin: string, saveBiometricPin: bool)
      requires Valid() && currentChallengeIndex < |challenges|
      modifies this`currentChallengeIndex, pinStore
      ensures Valid()
      ensures currentChallengeIndex == old(currentChallengeIndex) + 1
      ensures pinStore.prefs == if saveBiometricPin then SaveEdit(old(pinStore.prefs), pin, true, pinStore.encrypt)
                                else old(pinStore.prefs)
    {
      if saveBiometricPin {
        pinStore.SavePinAndBiometricPreference(pin, true);
      }
      currentChallengeIndex := currentChallengeIndex + 1;
    }
  }
}
