/** The logic of the PIN entry screen (presentation/pin/ui/screens/PinScreen.kt): the keypad buffer,
    submission, the two biometric gates and the handling of a successful biometric check. The
    composable's remembered state is a class; layout and animation are not modelled. */
module PinScreenLogic {
  import opened Wrappers
  import opened Errors
  import opened PinStore

  /** PIN_LENGTH. */
  const PinLength: nat := 4

  /** The ten digit keys of the keypad. */
  type Digit = c: char | '0' <= c <= '9' witness '0'

  predicate IsDigit(c: char) {
    '0' <= c <= '9'
  }

  /** A well-formed buffer: at most four digits. */
  predicate IsPinBuffer(s: string) {
    |s| <= PinLength && forall i :: 0 <= i < |s| ==> IsDigit(s[i])
  }

  /** `onDigitClick`: a digit is appended only while the buffer is shorter than the PIN. */
  function AfterDigit(pin: string, d: Digit): (r: string)
    ensures IsPinBuffer(pin) ==> IsPinBuffer(r)
    ensures |r| == if |pin| < PinLength then |pin| + 1 else |pin|
  {
    if |pin| < PinLength then pin + [d] else pin
  }

  /** `dropLast(1)`. */
  function DropLast(s: string): (r: string)
    ensures IsPinBuffer(s) ==> IsPinBuffer(r)
    ensures s == [] ==> r == []
    ensures s != [] ==> r + [s[|s| - 1]] == s
  {
    if s == [] then s else s[..|s| - 1]
  }

  /** Typing a run of keys, one `onDigitClick` each. */
  function TypeDigits(pin: string, ds: seq<Digit>): string
    decreases |ds|
  {
    if ds == [] then pin else TypeDigits(AfterDigit(pin, ds[0]), ds[1..])
  }

  function Min(a: int, b: int): int {
    if a <= b then a else b
  }

  /** Whatever is typed, the buffer keeps the first keys up to four and ignores the rest. */
  lemma {:induction false} TypeDigitsKeepsPrefix(pin: string, ds: seq<Digit>)
    requires |pin| <= PinLength
    ensures TypeDigits(pin, ds) == (pin + ds)[..Min(|pin| + |ds|, PinLength)]
    decreases |ds|
  {
    if ds == [] {
      assert (pin + ds) == pin;
    } else {
      var next := AfterDigit(pin, ds[0]);
      TypeDigitsKeepsPrefix(next, ds[1..]);
      if |pin| < PinLength {
        assert next + ds[1..] == pin + ds;
      } else {
        assert (next + ds[1..])[..|pin|] == pin == (pin + ds)[..|pin|];
      }
    }
  }

  /** The arguments of `onCompleted(pin, saveBiometricPin, usedBiometric, savePinToBiometrics)`. */
  datatype Completion = Completion(pin: string, saveBiometricPin: bool, usedBiometric: bool, savePinToBiometrics: bool)

  /** BiometricAuthStatus. */
  datatype BiometricAuthStatus = Idle | Prompting | AuthSucceeded | AuthError(message: string)

  /** `savePinToBiometrics` of a manual submission: the PIN changed on the backend since the last
      biometric use and the user has the biometric PIN enabled. */
  function SavePinToBiometrics(pinRecentlyChanged: Option<bool>, isBiometricEnabledByUser: bool): (b: bool)
    ensures pinRecentlyChanged != Some(true) ==> !b
    ensures !isBiometricEnabledByUser ==> !b
    ensures pinRecentlyChanged == Some(true) && isBiometricEnabledByUser ==> b
  {
    pinRecentlyChanged == Some(true) && isBiometricEnabledByUser
  }

  /** The gate of the auto-prompt effect, before the capability check. A null `hasError` does not
      block it (the test is `hasError == true`). */
  predicate AutoPromptAllowed(isCreatingNewPin: bool, biometricShown: bool, hasError: Option<bool>,
                              isBiometricEnabledByUser: bool, pinRecentlyChanged: Option<bool>)
  {
    !(isCreatingNewPin || biometricShown || hasError == Some(true) || !isBiometricEnabledByUser ||
      pinRecentlyChanged != Some(false))
  }

  /** The gate of the fingerprint key, which replaces backspace. A null `hasError` blocks it (the
      test is `hasError == false`). */
  predicate ShowsFingerprintKey(isCreatingNewPin: bool, hasError: Option<bool>, isBiometricEnabledByUser: bool,
                                pinValue: string, pinRecentlyChanged: Option<bool>)
  {
    !isCreatingNewPin && hasError == Some(false) && isBiometricEnabledByUser && pinValue == [] &&
    pinRecentlyChanged == Some(false)
  }

  /** The two gates agree on every input but `hasError`, the buffer and `biometricShown`: with a
      known `hasError`, an empty buffer and no prompt shown yet they coincide; with a null `hasError`
      the prompt may open on its own while the key to reopen it is hidden. */
  lemma GatesCompared(isCreatingNewPin: bool, hasError: Option<bool>, enabled: bool, prc: Option<bool>)
    ensures hasError.Some? ==>
              (AutoPromptAllowed(isCreatingNewPin, false, hasError, enabled, prc) <==>
               ShowsFingerprintKey(isCreatingNewPin, hasError, enabled, [], prc))
    ensures AutoPromptAllowed(isCreatingNewPin, false, None, enabled, prc) <==> !isCreatingNewPin && enabled && prc == Some(false)
    ensures !ShowsFingerprintKey(isCreatingNewPin, None, enabled, [], prc)
  {
    if hasError.Some? {
      if hasError.value {
        assert hasError == Some(true);
      } else {
        assert hasError == Some(false);
      }
    }
  }

  /** Either gate needs `pinRecentlyChanged == false`: after a PIN change the biometric is offered
      neither way, and the manual submission then asks to save the PIN. */
  lemma RecentChangeDisablesBiometric(isCreatingNewPin: bool, shown: bool, hasError: Option<bool>, enabled: bool, pin: string)
    ensures !AutoPromptAllowed(isCreatingNewPin, shown, hasError, enabled, Some(true))
    ensures !ShowsFingerprintKey(isCreatingNewPin, hasError, enabled, pin, Some(true))
    ensures SavePinToBiometrics(Some(true), enabled) == enabled
  {
  }

  /** The result of the execute effect: false without a callback, else the callback's answer, false
      when it answers null. */
  function ExecutedRecentlyChanged(callbackResult: Option<Option<bool>>): (b: bool)
    ensures callbackResult.None? ==> !b
    ensures callbackResult.Some? ==> b == (callbackResult.value == Some(true))
  {
    match callbackResult
    case None => false
    case Some(result) => result.GetOr(false)
  }

  /** The remembered state of one PinScreen, with its parameters `hasError` and `isCreatingNewPin`.
      The PIN store is PinDataStoreManager. */
  class PinScreenState {
    var pinValue: string
    var biometricShown: bool
    var isBiometricEnabledByUser: bool
    var saveBiometricPinEnabled: bool
    var pinRecentlyChanged: Option<bool>
    var biometricAuthStatus: BiometricAuthStatus
    const hasError: Option<bool>
    const isCreatingNewPin: bool
    const pinStore: PinDataStore
    ghost var completions: seq<Completion>
    /** How many times the auto-prompt effect opened the biometric prompt. */
    ghost var autoPrompts: nat
    /** How many times the biometric prompt was opened, by either path. */
    ghost var prompts: nat

    ghost predicate Valid()
      reads this
    {
      IsPinBuffer(pinValue) && autoPrompts <= (if biometricShown then 1 else 0) && autoPrompts <= prompts
    }

    constructor(hasError: Option<bool>, isCreatingNewPin: bool, pinStore: PinDataStore)
      ensures Valid()
      ensures pinValue == [] && !biometricShown && !isBiometricEnabledByUser && saveBiometricPinEnabled
      ensures pinRecentlyChanged.None? && biometricAuthStatus == Idle
      ensures this.hasError == hasError && this.isCreatingNewPin == isCreatingNewPin && this.pinStore == pinStore
      ensures completions == [] && autoPrompts == 0 && prompts == 0
    {
      pinValue := [];
      biometricShown := false;
      isBiometricEnabledByUser := false;
      saveBiometricPinEnabled := true;
      pinRecentlyChanged := None;
      biometricAuthStatus := Idle;
      this.hasError := hasError;
      this.isCreatingNewPin := isCreatingNewPin;
      this.pinStore := pinStore;
      completions := [];
      autoPrompts := 0;
      prompts := 0;
    }

    /** `onDigitClick`. */
    method OnDigitClick(d: Digit)
      requires Valid()
      modifies this`pinValue
      ensures Valid()
      ensures pinValue == AfterDigit(old(pinValue), d)
    {
      if |pinValue| < PinLength {
        pinValue := pinValue + [d];
      }
    }

    /** `onBackSpaceClick`. */
    method OnBackSpaceClick()
      requires Valid()
      modifies this`pinValue
      ensures Valid()
      ensures pinValue == DropLast(old(pinValue))
    {
      if |pinValue| > 0 {
        pinValue := pinValue[..|pinValue| - 1];
      }
    }

    /** `checkPin`: submits only a complete buffer, once, as a manual entry, and clears it. */
    method CheckPin()
      requires Valid()
      modifies this`pinValue, this`completions
      ensures Valid()
      ensures |old(pinValue)| != PinLength ==> pinValue == old(pinValue) && completions == old(completions)
      ensures |old(pinValue)| == PinLength ==>
                pinValue == [] &&
                completions == old(completions) +
                  [Completion(old(pinValue), saveBiometricPinEnabled, false,
                              SavePinToBiometrics(pinRecentlyChanged, isBiometricEnabledByUser))]
    {
      if |pinValue| != PinLength {
        return;
      }
      var savePinToBiometrics := pinRecentlyChanged == Some(true) && isBiometricEnabledByUser;
      completions := completions + [Completion(pinValue, saveBiometricPinEnabled, false, savePinToBiometrics)];
      pinValue := [];
    }

    /** The "Utilizar biometría" switch, shown while creating a new PIN. */
    method OnSaveBiometricPinChanged(checked: bool)
      modifies this`saveBiometricPinEnabled
      ensures saveBiometricPinEnabled == checked
    {
      saveBiometricPinEnabled := checked;
    }

    /** `startBiometricAuthentication`. */
    method StartBiometricAuthentication()
      requires Valid()
      modifies this`biometricAuthStatus, this`prompts
      ensures Valid()
      ensures biometricAuthStatus == Prompting && prompts == old(prompts) + 1
    {
      biometricAuthStatus := Prompting;
      prompts := prompts + 1;
    }

    /** The fingerprint key, present only behind its gate. */
    method OnFingerprintKey()
      requires Valid()
      requires ShowsFingerprintKey(isCreatingNewPin, hasError, isBiometricEnabledByUser, pinValue, pinRecentlyChanged)
      modifies this`biometricAuthStatus, this`prompts
      ensures Valid()
      ensures biometricAuthStatus == Prompting && prompts == old(prompts) + 1
    {
      StartBiometricAuthentication();
    }

    /** The auto-prompt effect, keyed on `pinRecentlyChanged`; `canAuthenticate` is the platform
        capability check. It opens the prompt at most once over the screen's life. */
    method AutoPromptEffect(canAuthenticate: bool)
      requires Valid()
      modifies this`isBiometricEnabledByUser, this`biometricShown, this`biometricAuthStatus, this`autoPrompts, this`prompts
      ensures Valid()
      ensures isBiometricEnabledByUser == BiometricEnabled(pinStore.prefs)
      ensures var opens := canAuthenticate &&
                AutoPromptAllowed(isCreatingNewPin, old(biometricShown), hasError, isBiometricEnabledByUser, pinRecentlyChanged);
              (opens ==> biometricShown && biometricAuthStatus == Prompting &&
                         autoPrompts == old(autoPrompts) + 1 && prompts == old(prompts) + 1) &&
              (!opens ==> biometricShown == old(biometricShown) && biometricAuthStatus == old(biometricAuthStatus) &&
                          autoPrompts == old(autoPrompts) && prompts == old(prompts))
    {
      isBiometricEnabledByUser := pinStore.IsBiometricPinEnabled();
      if isCreatingNewPin || biometricShown || hasError == Some(true) || !isBiometricEnabledByUser ||
         pinRecentlyChanged != Some(false) {
        return;
      }
      if canAuthenticate {
        biometricShown := true;
        StartBiometricAuthentication();
        autoPrompts := autoPrompts + 1;
      }
    }

    /** The execute effect, run once: `callbackResult` is `None` without an `executeChallenge`
        callback, else what it returns. */
    method ExecuteEffect(callbackResult: Option<Option<bool>>)
      modifies this`pinRecentlyChanged
      ensures callbackResult.None? ==> pinRecentlyChanged == Some(false)
      ensures callbackResult.Some? && old(pinRecentlyChanged).None? ==>
                pinRecentlyChanged == Some(ExecutedRecentlyChanged(callbackResult))
      ensures callbackResult.Some? && old(pinRecentlyChanged).Some? ==> pinRecentlyChanged == old(pinRecentlyChanged)
    {
      if callbackResult.None? {
        pinRecentlyChanged := Some(false);
      } else if pinRecentlyChanged.None? {
        pinRecentlyChanged := Some(callbackResult.value.GetOr(false));
      }
    }

    /** `onAuthenticationSucceeded`: a readable cached PIN is submitted as a biometric entry; otherwise
        the cache is cleared. The store itself turns a SecurityException into a missing PIN, so the
        screen's own catches are not reached. */
    method OnAuthenticationSucceeded()
      requires Valid()
      modifies this`biometricAuthStatus, this`completions, this`pinValue, pinStore
      ensures Valid()
      ensures DecryptedPin(old(pinStore.prefs), pinStore.decrypt).Some? ==>
                biometricAuthStatus == AuthSucceeded && pinValue == [] && pinStore.prefs == old(pinStore.prefs) &&
                completions == old(completions) +
                  [Completion(DecryptedPin(old(pinStore.prefs), pinStore.decrypt).value, false, true, false)]
      ensures DecryptedPin(old(pinStore.prefs), pinStore.decrypt).None? ==>
                biometricAuthStatus == AuthError("PIN biométrico no encontrado o corrupto.") &&
                pinValue == old(pinValue) && completions == old(completions) &&
                pinStore.prefs == ClearEdit(old(pinStore.prefs))
    {
      var decryptedPin := pinStore.GetDecryptedPin();
      if decryptedPin.Some? {
        biometricAuthStatus := AuthSucceeded;
        completions := completions + [Completion(decryptedPin.value, false, true, false)];
        pinValue := [];
      } else {
        biometricAuthStatus := AuthError("PIN biométrico no encontrado o corrupto.");
        pinStore.ClearPinAndBiometricPreference();
      }
    }

    /** `onAuthenticationError(errorCode, errString)`. */
    method OnAuthenticationError(errorCode: int, errString: string)
      modifies this`biometricAuthStatus
      ensures biometricAuthStatus == AuthError("Error: " + errString + " (" + IntToString(errorCode) + ")")
    {
      biometricAuthStatus := AuthError("Error: " + errString + " (" + IntToString(errorCode) + ")");
    }

    /** `onAuthenticationFailed`. */
    method OnAuthenticationFailed()
      modifies this`biometricAuthStatus
      ensures biometricAuthStatus == AuthError("Autenticación biométrica fallida.")
    {
      biometricAuthStatus := AuthError("Autenticación biométrica fallida.");
    }
  }
}
