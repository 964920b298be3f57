/** The validation-session runner (presentation/validation_session/ui/viewmodels/
    ValidationSessionViewModel.kt). It asks the backend for a session, then walks its challenges
    with the shared cursor-and-counter policy, emitting UI states. Every emission is appended to a
    ghost log and every use-case call to a ghost call log; a use case's result is a parameter of the
    method that calls it. */
module ValidationSessionRunner {
  import opened Wrappers
  import opened Errors
  import opened Models
  import opened SessionPolicy
  import opened PinStore
  import opened AssociationStore

  /** ValidationSessionUiState. */
  datatype UiState =
    | Initial
    | Loading
    | LaunchChallenge(challenge: Challenge, isRetry: bool, pinRecentlyChanged: bool)
    | Success
    | Error(error: IDDigitalError)

  /** The use cases the runner calls. */
  datatype Call =
    | CreateSession(sessionType: ChallengeType)
    | ExecuteLiveness(challengeId: string)
    | ExecutePin(challengeId: string)
    | ValidateLiveness(challengeId: string)
    | ValidatePin(challengeId: string, pin: string)

  /** A value of the `Map<String, Any?>` handed to `validateChallenge`. */
  datatype AnyValue = Text(text: string) | Flag(flag: bool) | OtherValue

  /** `data[key] as? String`. */
  function StringEntry(data: map<string, AnyValue>, key: string): Option<string> {
    if key in data && data[key].Text? then Some(data[key].text) else None
  }

  /** `data[key] as? Boolean ?: false`. */
  function FlagEntry(data: map<string, AnyValue>, key: string): bool {
    key in data && data[key].Flag? && data[key].flag
  }

  /** The IndexOutOfBoundsException of `challenges[currentChallengeIndex]` past the end. */
  const IndexOutOfBounds: Throwable := Runtime(IndexOutOfBoundsException, None)

  /** The DateTimeParseException of `Instant.parse` on a malformed stored timestamp. */
  const TimestampParseFailure: Throwable := Runtime(DateTimeParseException, None)

  /** The state `launchNextChallenge` emits for a cursor. */
  function LaunchState(cs: seq<Challenge>, c: Cursor, pinRecentlyChanged: bool): (s: UiState)
  {
    match NextLaunch(cs, c)
    case Finish => Success
    case GiveUp => Error(ChallengeValidationError)
    case InvalidType => Error(UnknownError("Invalid challenge type", None))
    case Launch(challenge, isRetry) => LaunchChallenge(challenge, isRetry, pinRecentlyChanged)
  }

  /** The terminal states and the launch, by the policy's decision: an exhausted list succeeds even
      with the counter used up, and a launch carries the retry flag and `pinRecentlyChanged`. */
  lemma LaunchStateCases(cs: seq<Challenge>, c: Cursor, pinRecentlyChanged: bool)
    ensures LaunchState(cs, c, pinRecentlyChanged) == Success <==> c.index >= |cs|
    ensures LaunchState(cs, c, pinRecentlyChanged) == Error(ChallengeValidationError) <==>
              c.index < |cs| && c.errors >= MaxValidationAttempts
    ensures LaunchState(cs, c, pinRecentlyChanged) == Error(UnknownError("Invalid challenge type", None)) <==>
              c.index < |cs| && c.errors < MaxValidationAttempts && FromString(cs[c.index].challengeType).None?
    ensures LaunchState(cs, c, pinRecentlyChanged).LaunchChallenge? ==>
              LaunchState(cs, c, pinRecentlyChanged) == LaunchChallenge(cs[c.index], c.errors > 0, pinRecentlyChanged)
  {
  }

  /** The PIN branch of `executeChallenge` after the use case: the stored last-use timestamp is
      parsed (a malformed one throws) and compared with the backend's last PIN update. */
  function PinExecution(backend: Result<Option<int>, Throwable>, storedUsage: Option<string>,
                        parseInstant: string -> Option<int>): (r: Result<bool, Throwable>)
    ensures backend.Err? ==> r == Err(backend.error)
    ensures backend.Ok? && storedUsage.Some? && parseInstant(storedUsage.value).None? ==> r == Err(TimestampParseFailure)
    ensures r == Ok(true) <==>
              backend.Ok? && backend.value.Some? && storedUsage.Some? && parseInstant(storedUsage.value).Some? &&
              backend.value.value > parseInstant(storedUsage.value).value
  {
    match backend
    case Err(e) => Err(e)
    case Ok(backendLastUpdated) =>
      match storedUsage
      case None => Ok(PinRecentlyChanged(backendLastUpdated, None))
      case Some(s) =>
        match parseInstant(s)
        case None => Err(TimestampParseFailure)
        case Some(local) => Ok(PinRecentlyChanged(backendLastUpdated, Some(local)))
  }

  /** The PIN-store edits of a PIN validation that returned: the PIN is cached when asked to and
      present, and the last-use time is written when the biometric was used or is being set up. */
  function PinValidationEdit(p: Preferences, data: map<string, AnyValue>, now: string,
                             encrypt: string -> Option<string>): Preferences
  {
    var pin := StringEntry(data, "pin");
    var usedBiometric := FlagEntry(data, "usedBiometric");
    var savePinToBiometrics := FlagEntry(data, "savePinToBiometrics");
    var cached := if savePinToBiometrics && pin.Some? then SaveEdit(p, pin.value, true, encrypt) else p;
    if usedBiometric || savePinToBiometrics then UsageEdit(cached, now) else cached
  }

  /** The PIN is cached exactly when `savePinToBiometrics` holds and a PIN is present, and the
      last-use time is written exactly when `usedBiometric || savePinToBiometrics`. The backend's
      verdict plays no part, so a PIN it rejected is cached all the same. */
  lemma PinValidationEffects(p: Preferences, data: map<string, AnyValue>, now: string,
                             encrypt: string -> Option<string>, decrypt: string -> Option<string>)
    ensures var r := PinValidationEdit(p, data, now, encrypt);
            var pin := StringEntry(data, "pin");
            var save := FlagEntry(data, "savePinToBiometrics");
            (save && pin.Some? && encrypt(pin.value).Some? && decrypt(encrypt(pin.value).value) == pin ==>
               DecryptedPin(r, decrypt) == pin && BiometricEnabled(r)) &&
            (!(save && pin.Some?) ==> StoredCipher(r) == StoredCipher(p) && BiometricEnabled(r) == BiometricEnabled(p)) &&
            LastUsage(r) == (if FlagEntry(data, "usedBiometric") || save then Some(now) else LastUsage(p))
  {
    var pin := StringEntry(data, "pin");
    var save := FlagEntry(data, "savePinToBiometrics");
    if save && pin.Some? {
      OnlyUsageEditWritesUsage(p, pin.value, true, encrypt, now);
      if encrypt(pin.value).Some? && decrypt(encrypt(pin.value).value) == pin {
        SaveThenDecrypt(p, pin.value, encrypt, decrypt);
      }
    }
  }

  /** What `executeChallenge` hands back to the screen. */
  datatype Executed = NoValue | LivenessSession(sessionId: string) | PinChanged(recentlyChanged: bool)

  /** ValidationSessionViewModel. The PIN store and the association store are the ones the view
      model reaches through its context; `parseInstant` is `Instant.parse`, `None` for a malformed
      timestamp. */
  class ValidationSessionViewModel {
    var sessionType: Option<ChallengeType>
    var validationSession: Option<ValidationSession>
    var challenges: seq<Challenge>
    var currentChallengeIndex: nat
    var currentChallengeValidationErrors: nat
    var pinRecentlyChanged: bool
    const pinStore: PinDataStore
    const associations: DeviceAssociationStore
    const parseInstant: string -> Option<int>
    ghost var emitted: seq<UiState>
    ghost var calls: seq<Call>

    /** The cursor never passes the end of the list, and the list is the session's. */
    ghost predicate Valid()
      reads this
    {
      currentChallengeIndex <= |challenges| &&
      (validationSession.Some? ==> challenges == validationSession.value.challenges) &&
      (validationSession.None? ==> challenges == [])
    }

    function Position(): Cursor
      reads this
    {
      Cursor(currentChallengeIndex, currentChallengeValidationErrors)
    }

    constructor(pinStore: PinDataStore, associations: DeviceAssociationStore, parseInstant: string -> Option<int>)
      ensures Valid()
      ensures sessionType.None? && validationSession.None? && challenges == []
      ensures Position() == Cursor(0, 0) && !pinRecentlyChanged
      ensures this.pinStore == pinStore && this.associations == associations && this.parseInstant == parseInstant
      ensures emitted == [] && calls == []
    {
      sessionType := None;
      validationSession := None;
      challenges := [];
      currentChallengeIndex := 0;
      currentChallengeValidationErrors := 0;
      pinRecentlyChanged := false;
      this.pinStore := pinStore;
      this.associations := associations;
      this.parseInstant := parseInstant;
      emitted := [];
      calls := [];
    }

    /** `setType`. */
    method SetType(t: ChallengeType)
      modifies this`sessionType, this`emitted
      ensures sessionType == Some(t)
      ensures emitted == old(emitted) + [Initial]
    {
      sessionType := Some(t);
      emitted := emitted + [Initial];
    }

    /** `isAssociated`: the store holds an association. */
    method IsAssociated() returns (associated: bool)
      ensures associated <==> ToAssociation(associations.record).Some?
    {
      var retrieved := associations.Get();
      associated := retrieved.Some?;
    }

    /** `createValidationSession`, with `creation` the result of the use case. The failure counter is
        not reset. */
    method CreateValidationSession(t: ChallengeType, creation: Result<ValidationSession, Throwable>)
      requires Valid()
      modifies this`emitted, this`calls, this`challenges, this`validationSession, this`currentChallengeIndex
      ensures Valid()
      ensures ToAssociation(associations.record).None? ==>
                emitted == old(emitted) + [Error(DeviceNotAssociatedError)] && calls == old(calls) &&
                challenges == old(challenges) && validationSession == old(validationSession) &&
                currentChallengeIndex == old(currentChallengeIndex)
      ensures ToAssociation(associations.record).Some? ==> calls == old(calls) + [CreateSession(t)]
      ensures ToAssociation(associations.record).Some? && creation.Err? ==>
                emitted == old(emitted) + [Loading, Error(ToIDDigitalError(creation.error, "Error creating validation session"))] &&
                challenges == old(challenges) && validationSession == old(validationSession) &&
                currentChallengeIndex == old(currentChallengeIndex)
      ensures ToAssociation(associations.record).Some? && creation.Ok? ==>
                validationSession == Some(creation.value) && challenges == creation.value.challenges &&
                currentChallengeIndex == 0 &&
                emitted == old(emitted) + [Loading, LaunchState(challenges, Cursor(0, currentChallengeValidationErrors), pinRecentlyChanged)]
    {
      var associated := IsAssociated();
      if !associated {
        emitted := emitted + [Error(DeviceNotAssociatedError)];
        return;
      }
      emitted := emitted + [Loading];
      calls := calls + [CreateSession(t)];
      if creation.Err? {
        emitted := emitted + [Error(ToIDDigitalError(creation.error, "Error creating validation session"))];
        return;
      }
      challenges := creation.value.challenges;
      validationSession := Some(creation.value);
      currentChallengeIndex := 0;
      LaunchNextChallenge();
    }

    /** `launchNextChallenge`. */
    method LaunchNextChallenge()
      modifies this`emitted
      ensures emitted == old(emitted) + [LaunchState(challenges, Position(), pinRecentlyChanged)]
    {
      if currentChallengeIndex >= |challenges| {
        emitted := emitted + [Success];
        return;
      }
      if currentChallengeValidationErrors >= MaxValidationAttempts {
        emitted := emitted + [Error(ChallengeValidationError)];
        return;
      }
      var challenge := challenges[currentChallengeIndex];
      if FromString(challenge.challengeType).None? {
        emitted := emitted + [Error(UnknownError("Invalid challenge type", None))];
        return;
      }
      emitted := emitted + [LaunchChallenge(challenge, currentChallengeValidationErrors > 0, pinRecentlyChanged)];
    }

    /** `executeChallenge`. `liveness` is the liveness use case's session id or throw, `backend` the
        PIN use case's last PIN update or throw; only the one for the current challenge's type is
        used. Past the end of the list the lookup throws out of the method. */
    method ExecuteChallenge(liveness: Result<string, Throwable>, backend: Result<Option<int>, Throwable>)
      returns (r: Result<Executed, Throwable>)
      requires Valid()
      modifies this`emitted, this`calls, this`pinRecentlyChanged
      ensures Valid()
      ensures currentChallengeIndex >= |challenges| ==>
                r == Err(IndexOutOfBounds) && emitted == old(emitted) && calls == old(calls) &&
                pinRecentlyChanged == old(pinRecentlyChanged)
      ensures currentChallengeIndex < |challenges| && FromString(challenges[currentChallengeIndex].challengeType).None? ==>
                r == Ok(NoValue) && emitted == old(emitted) && calls == old(calls) &&
                pinRecentlyChanged == old(pinRecentlyChanged)
      ensures currentChallengeIndex < |challenges| && FromString(challenges[currentChallengeIndex].challengeType) == Some(Liveness) ==>
                calls == old(calls) + [ExecuteLiveness(challenges[currentChallengeIndex].id)] &&
                pinRecentlyChanged == old(pinRecentlyChanged) &&
                (liveness.Ok? ==> r == Ok(LivenessSession(liveness.value)) && emitted == old(emitted) + [Loading]) &&
                (liveness.Err? ==>
                   r == Ok(NoValue) &&
                   emitted == old(emitted) + [Loading, Error(ToIDDigitalError(liveness.error, "Error executing challenge"))])
      ensures currentChallengeIndex < |challenges| && FromString(challenges[currentChallengeIndex].challengeType) == Some(Pin) ==>
                var e := PinExecution(backend, LastUsage(pinStore.prefs), parseInstant);
                calls == old(calls) + [ExecutePin(challenges[currentChallengeIndex].id)] &&
                (e.Ok? ==> pinRecentlyChanged == e.value && r == Ok(PinChanged(e.value)) && emitted == old(emitted) + [Loading]) &&
                (e.Err? ==>
                   pinRecentlyChanged == old(pinRecentlyChanged) && r == Ok(NoValue) &&
                   emitted == old(emitted) + [Loading, Error(ToIDDigitalError(e.error, "Error executing challenge"))])
    {
      if currentChallengeIndex >= |challenges| {
        return Err(IndexOutOfBounds);
      }
      var currentChallenge := challenges[currentChallengeIndex];
      var currentChallengeName := FromString(currentChallenge.challengeType);
      r := Ok(NoValue);
      if currentChallengeName == Some(Liveness) {
        emitted := emitted + [Loading];
        calls := calls + [ExecuteLiveness(currentChallenge.id)];
        if liveness.Ok? {
          return Ok(LivenessSession(liveness.value));
        }
        emitted := emitted + [Error(ToIDDigitalError(liveness.error, "Error executing challenge"))];
      }
      if currentChallengeName == Some(Pin) {
        emitted := emitted + [Loading];
        calls := calls + [ExecutePin(currentChallenge.id)];
        if backend.Err? {
          emitted := emitted + [Error(ToIDDigitalError(backend.error, "Error executing challenge"))];
          return;
        }
        var localLastBiometricUsageStr := pinStore.GetLastBiometricPinUsage();
        var localLastBiometricUsage: Option<int> := None;
        if localLastBiometricUsageStr.Some? {
          localLastBiometricUsage := parseInstant(localLastBiometricUsageStr.value);
          if localLastBiometricUsage.None? {
            emitted := emitted + [Error(ToIDDigitalError(TimestampParseFailure, "Error executing challenge"))];
            return;
          }
        }
        pinRecentlyChanged := PinRecentlyChanged(backend.value, localLastBiometricUsage);
        return Ok(PinChanged(pinRecentlyChanged));
      }
    }

    /** `validateChallenge(data)`, with `outcome` the validating use case's result or throw for the
        current challenge's type and `now` the rendering of `Instant.now()`. */
    method ValidateChallenge(outcome: Result<bool, Throwable>, data: map<string, AnyValue>, now: string)
      returns (thrown: Option<Throwable>)
      requires Valid()
      modifies this`emitted, this`calls, this`currentChallengeIndex, this`currentChallengeValidationErrors, pinStore
      ensures Valid()
      ensures old(currentChallengeIndex) >= |challenges| ==>
                thrown == Some(IndexOutOfBounds) && emitted == old(emitted) && calls == old(calls) &&
                Position() == old(Position()) && pinStore.prefs == old(pinStore.prefs)
      ensures old(currentChallengeIndex) < |challenges| ==>
                var challenge := challenges[old(currentChallengeIndex)];
                var t := FromString(challenge.challengeType);
                thrown.None? &&
                Position() == Step(challenges, old(Position()), outcome) &&
                (t.None? ==> emitted == old(emitted) && calls == old(calls) && pinStore.prefs == old(pinStore.prefs)) &&
                (t.Some? ==> emitted == old(emitted) + [Loading, LaunchState(challenges, Position(), pinRecentlyChanged)]) &&
                (t == Some(Liveness) ==>
                   calls == old(calls) + [ValidateLiveness(challenge.id)] && pinStore.prefs == old(pinStore.prefs)) &&
                (t == Some(Pin) ==>
                   calls == old(calls) + [ValidatePin(challenge.id, StringEntry(data, "pin").GetOr(""))] &&
                   pinStore.prefs == (if outcome.Ok? then PinValidationEdit(old(pinStore.prefs), data, now, pinStore.encrypt)
                                      else old(pinStore.prefs)))
    {
      if currentChallengeIndex >= |challenges| {
        return Some(IndexOutOfBounds);
      }
      thrown := None;
      var currentChallengeName := FromString(challenges[currentChallengeIndex].challengeType);
      if currentChallengeName == Some(Liveness) {
        ValidateLivenessChallenge(outcome);
      }
      if currentChallengeName == Some(Pin) {
        ValidatePinChallenge(outcome, data, now);
      }
    }

    /** The liveness branch of `validateChallenge`: true advances and resets the counter, anything
        else counts a failure; then the next launch. */
    method ValidateLivenessChallenge(outcome: Result<bool, Throwable>)
      requires Valid() && currentChallengeIndex < |challenges|
      requires FromString(challenges[currentChallengeIndex].challengeType) == Some(Liveness)
      modifies this`emitted, this`calls, this`currentChallengeIndex, this`currentChallengeValidationErrors
      ensures Valid()
      ensures Position() == LivenessStep(old(Position()), outcome)
      ensures calls == old(calls) + [ValidateLiveness(challenges[old(currentChallengeIndex)].id)]
      ensures emitted == old(emitted) + [Loading, LaunchState(challenges, Position(), pinRecentlyChanged)]
    {
      var currentChallenge := challenges[currentChallengeIndex];
      emitted := emitted + [Loading];
      calls := calls + [ValidateLiveness(currentChallenge.id)];
      if outcome == Ok(true) {
        currentChallengeIndex := currentChallengeIndex + 1;
        currentChallengeValidationErrors := 0;
      } else {
        currentChallengeValidationErrors := currentChallengeValidationErrors + 1;
      }
      LaunchNextChallenge();
    }

    /** The PIN branch of `validateChallenge`: the Boolean is discarded, so any return advances
        without resetting the counter and applies the PIN-store edits; a throw counts a failure. */
    method ValidatePinChallenge(outcome: Result<bool, Throwable>, data: map<string, AnyValue>, now: string)
      requires Valid() && currentChallengeIndex < |challenges|
      requires FromString(challenges[currentChallengeIndex].challengeType) == Some(Pin)
      modifies this`emitted, this`calls, this`currentChallengeIndex, this`currentChallengeValidationErrors, pinStore
      ensures Valid()
      ensures Position() == PinStep(old(Position()), outcome)
      ensures calls == old(calls) + [ValidatePin(challenges[old(currentChallengeIndex)].id, StringEntry(data, "pin").GetOr(""))]
      ensures emitted == old(emitted) + [Loading, LaunchState(challenges, Position(), pinRecentlyChanged)]
      ensures pinStore.prefs == (if outcome.Ok? then PinValidationEdit(old(pinStore.prefs), data, now, pinStore.encrypt)
                                 else old(pinStore.prefs))
    {
      var currentChallenge := challenges[currentChallengeIndex];
      emitted := emitted + [Loading];
      calls := calls + [ValidatePin(currentChallenge.id, StringEntry(data, "pin").GetOr(""))];
      if outcome.Ok? {
        StorePinUsage(data, now);
        currentChallengeIndex := currentChallengeIndex + 1;
      } else {
        currentChallengeValidationErrors := currentChallengeValidationErrors + 1;
      }
      LaunchNextChallenge();
    }

    /** The PIN-store writes of a PIN validation that returned. */
    method StorePinUsage(data: map<string, AnyValue>, now: string)
      modifies pinStore
      ensures pinStore.prefs == PinValidationEdit(old(pinStore.prefs), data, now, pinStore.encrypt)
    {
      var enteredPin := StringEntry(data, "pin");
      var usedBiometric := FlagEntry(data, "usedBiometric");
      var savePinToBiometrics := FlagEntry(data, "savePinToBiometrics");
      if savePinToBiometrics && enteredPin.Some? {
        pinStore.SavePinAndBiometricPreference(enteredPin.value, true);
      }
      if usedBiometric || savePinToBiometrics {
        pinStore.SaveLastBiometricPinUsage(now);
      }
    }
  }

  /** PinService's `executeChallenge` returns no value, so through it the PIN use case yields no
      backend timestamp and `pinRecentlyChanged` is never set. */
  lemma NoBackendTimestampNeverRecent(storedUsage: Option<string>, parseInstant: string -> Option<int>)
    ensures PinExecution(Ok(None), storedUsage, parseInstant) != Ok(true)
  {
  }
}
