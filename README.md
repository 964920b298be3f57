# IDDigital SDK — a Dafny model of its challenge logic

This project models the logic of the IDDigital identity SDK for Android (package
`uy.com.abitab.iddigitalsdk`) and proves properties of that model. The SDK verifies a user
through a backend-driven series of challenges (face liveness, PIN).

The model covers these parts:

- **The two multi-challenge runners.** `ValidationSessionViewModel` and
  `DeviceAssociationViewModel` walk a session's challenge list with a cursor and a failure
  counter capped at three attempts. They emit UI states as they go. The association runner also
  runs an eligibility check first and completes and persists the association last.
- **The challenge-type tag parser and serialiser** (`ChallengeType.fromString` / `toString`).
- **The two stores.** One is the biometric PIN cache (`PinDataStoreManager`). The other is the
  persisted device-association record (`DeviceAssociationDataStoreManager`).
- **Error classification.** `Throwable.toIDDigitalError` maps a throwable into the SDK's closed
  taxonomy. Each network service then decides per response: the status classes of RFC 9110
  sections 15.5 and 15.6 (5xx, and 400 / 404), and the body codes `invalid-pin` and
  `too-many-attempts` on PIN validation.
- **The single-challenge view models and the PIN screen.** `LivenessViewModel` holds a
  camera-permission handshake and maps the vendor's errors. `PinViewModel` turns a validation
  outcome into a state. `PinScreen` holds the keypad buffer, the two biometric gates and the
  handling of a successful biometric check.
- **Helpers.** Environment selection and URL joining (`BaseService`). The device fingerprint: a
  get-or-create installation UUID, hashed and rendered as lowercase hex (`DeviceUtils`).

How the model is built:

- An object whose fields the source updates becomes a Dafny `class` with those fields. This covers
  the view models, the two stores, the installation preferences and the PIN screen's remembered
  state. Each UI-state emission is appended to a ghost `emitted` log. Each use-case call is
  appended to a ghost `calls` log.
- Every method's `ensures` ties the new state to a pure function of the old state:
  `SessionPolicy.NextLaunch` / `Step`, `PinStore.SaveEdit`, `DeviceAssociationRunner.ValidateEffect`
  and so on. The lemmas state the source's promises about those functions.
- The services hold no state. They are pure functions from the connectivity flag, the base URL,
  the arguments and an abstract transport outcome to the request sent and the value returned or
  the error thrown.

Collaborators the model cannot see become parameters:

- each use case's result or throw;
- the camera-permission and biometric-capability checks;
- `Instant.now()`;
- `Instant.parse`, as a function that may fail;
- the key-store cipher, as two functions that may fail;
- the SHA-256 digest, as a function that may fail;
- `UUID.randomUUID()`.

Where the code departs from the documented behaviour, the model follows the code, with one
exception: the services' identity comparison, modelled as intended and as written (see Findings).

- **The PIN Boolean is discarded.** In both runners the PIN branch of `validateChallenge` ignores
  the Boolean returned by validation and never resets the failure counter. A PIN the backend
  rejects therefore advances the cursor like a correct one (`SessionPolicy.WrongPinAdvances`). A
  correct PIN after failed attempts launches the next challenge flagged as a retry
  (`SessionPolicy.PinKeepsRetryFlag`). So an invalid-PIN-then-retry scenario cannot produce a retry
  through a `false` verdict.
- **How a wrong PIN is retried in practice.** As written, the identity comparison in the services
  never yields `false` (see Findings). A wrong PIN then throws `BadResponse`, and it is this throw
  that the runners count as a failure.
- **No recent PIN change is ever reported.** `PinService.executeChallenge` returns Unit. The
  validation-session runner reads that result as the backend's last PIN update. Through this
  service it is therefore always absent, and `pinRecentlyChanged` stays false
  (`ValidationSessionRunner.NoBackendTimestampNeverRecent`).
- **IDDigitalErrors escape association start.** `startDeviceAssociation` catches `Exception`, and
  IDDigitalError extends `Throwable` directly. So every classified network error escapes that
  coroutine and leaves no error state (`DeviceAssociationRunner.SdkErrorsEscapeStart`). Only
  other exceptions become `UnknownError("Error starting association: …")`.
- **Completion may run twice.** In the association runner's `validateChallenge`,
  `launchNextChallenge` is called in the try and again in the catch. A completion that fails
  after the last challenge therefore costs one attempt and runs completion once more. A second
  failure escapes (`DeviceAssociationRunner.CompletionFailureRetried`,
  `DeviceAssociationRunner.CompletionFailingTwiceEscapes`).
- **Undeclared error classes.** `ChallengeValidationError`, `DeviceNotAssociatedError`,
  `UserCannotBeAssociatedError` and the runners' one-argument `UnknownError` are imported from
  the `utils` package, but no declaration of them is part of this model. They are modelled as
  members of the IDDigitalError taxonomy: the first three with placeholder messages, the last as
  `UnknownError(message, null)`.

## Model

| member | source | states |
|---|---|---|
| `Errors.Interpolated` | IDDigitalSDK/src/main/java/uy/com/abitab/iddigitalsdk/utils/IDDigitalError.kt:28 | A nullable message in a string template: a present message as it is, null as the text "null". Its uses are stated by `DeviceAssociationRunner.CatchException` and `LivenessRunner.ValidationState`. |
| `Errors.Message` | IDDigitalSDK/src/main/java/uy/com/abitab/iddigitalsdk/utils/IDDigitalError.kt:10-70 | The fixed message of each error class; `Errors.MessageKeepsDetail` states that it keeps the reason or the message the error carries. |
| `Errors.ThrowableMessage` | IDDigitalSDK/src/main/java/uy/com/abitab/iddigitalsdk/utils/IDDigitalError.kt:10-11 | An IDDigitalError always has a message; any other throwable may have none. |
| `Errors.MessageKeepsDetail` | IDDigitalSDK/src/main/java/uy/com/abitab/iddigitalsdk/utils/IDDigitalError.kt:44-70 | An SDK usage error's message ends with its reason, and the four classes built from a message report exactly that message. |
| `Errors.ToIDDigitalError` | IDDigitalSDK/src/main/java/uy/com/abitab/iddigitalsdk/utils/IDDigitalError.kt:73-81 | An IDDigitalError is returned unchanged. A non-SDK throwable gets a network classification exactly when it is one of the four socket-level exceptions: UnknownHost and PortUnreachable give UnknownHost, SocketTimeout gives Timeout, Connect gives NoInternetConnection. Every other throwable gives UnknownError(context, cause = the throwable). |
| `Errors.ToIDDigitalErrorIdempotent` | IDDigitalSDK/src/main/java/uy/com/abitab/iddigitalsdk/utils/IDDigitalError.kt:74 | Classifying an already classified error again, with any context, changes nothing. |
| `Errors.ContextOnlyForUnclassified` | IDDigitalSDK/src/main/java/uy/com/abitab/iddigitalsdk/utils/IDDigitalError.kt:79-80 | When two contexts give different results, the throwable is neither an IDDigitalError nor socket-level: only the fallback branches use the context. |
| `Models.Lowercase` | IDDigitalSDK/src/main/java/uy/com/abitab/iddigitalsdk/domain/models/Challenge.kt:23 | The result has the input's length, with each character lowercased. |
| `Models.LowercaseIdempotent` | IDDigitalSDK/src/main/java/uy/com/abitab/iddigitalsdk/domain/models/Challenge.kt:23 | Lowercasing twice is lowercasing once. |
| `Models.ToString` | IDDigitalSDK/src/main/java/uy/com/abitab/iddigitalsdk/domain/models/Challenge.kt:31-36 | The tag is always "liveness" or "pin", with no upper-case letter. |
| `Models.FromString` | IDDigitalSDK/src/main/java/uy/com/abitab/iddigitalsdk/domain/models/Challenge.kt:22-28 | A recognised tag serialises back to the lowercased input. |
| `Models.FromStringToString` | IDDigitalSDK/src/main/java/uy/com/abitab/iddigitalsdk/domain/models/Challenge.kt:22-36 | Round trip: parsing the serialised type gives the type back, for both types. |
| `Models.FromStringNoneIff` | IDDigitalSDK/src/main/java/uy/com/abitab/iddigitalsdk/domain/models/Challenge.kt:23-27 | A tag is rejected exactly when its lowercase form is neither "liveness" nor "pin". |
| `Models.FromStringIgnoresCase` | IDDigitalSDK/src/main/java/uy/com/abitab/iddigitalsdk/domain/models/Challenge.kt:23 | A tag and its lowercase form parse alike. |
| `Models.ToStringFromString` | IDDigitalSDK/src/main/java/uy/com/abitab/iddigitalsdk/domain/models/Challenge.kt:23-36 | Serialising a parsed tag gives the lowercased tag. |
| `Models.ToStringInjective` | IDDigitalSDK/src/main/java/uy/com/abitab/iddigitalsdk/domain/models/Challenge.kt:31-36 | Distinct types have distinct tags. |
| `BaseService.SelectEnvironment` | IDDigitalSDK/src/main/java/uy/com/abitab/iddigitalsdk/data/network/BaseService.kt:14-19 | The environment the configured name selects. `BaseService.StagingIff` states it: staging exactly for "STAGING", production otherwise. |
| `BaseService.BaseUrl` | IDDigitalSDK/src/main/java/uy/com/abitab/iddigitalsdk/data/network/BaseService.kt:21-24 | The base URL of each environment. `BaseService.BuildUrlIsPlainJoin` states that neither ends in '/'. |
| `BaseService.ValueOf` | IDDigitalSDK/src/main/java/uy/com/abitab/iddigitalsdk/data/network/BaseService.kt:16-18 | `valueOf` accepts exactly the names "STAGING" and "PRODUCTION", case-sensitively. |
| `BaseService.StagingIff` | IDDigitalSDK/src/main/java/uy/com/abitab/iddigitalsdk/data/network/BaseService.kt:14-24 | Staging is selected exactly when the configured name is "STAGING". An absent name or any other name selects production. |
| `BaseService.TrimEnd` | IDDigitalSDK/src/main/java/uy/com/abitab/iddigitalsdk/data/network/BaseService.kt:29 | `trimEnd(c)` gives a prefix of the input that does not end in `c`, and everything it removes is `c`. |
| `BaseService.TrimEndAbsorbsRun` | IDDigitalSDK/src/main/java/uy/com/abitab/iddigitalsdk/data/network/BaseService.kt:29 | Appending any run of `c` to a string changes nothing once `c` is trimmed from the end (proved by induction). |
| `BaseService.TrimEndNoop` | IDDigitalSDK/src/main/java/uy/com/abitab/iddigitalsdk/data/network/BaseService.kt:29 | A string that does not end in `c` is its own trim. |
| `BaseService.JoinUrl` | IDDigitalSDK/src/main/java/uy/com/abitab/iddigitalsdk/data/network/BaseService.kt:29 | The base with its trailing slashes trimmed, one '/', then the path. `BaseService.JoinUrlIgnoresTrailingSlashes` and `BaseService.TrimEnd` state it. |
| `BaseService.BuildUrl` | IDDigitalSDK/src/main/java/uy/com/abitab/iddigitalsdk/data/network/BaseService.kt:28-30 | `buildUrl` for the configured environment, stated by `BaseService.BuildUrlIsPlainJoin`. |
| `BaseService.BuildUrlIsPlainJoin` | IDDigitalSDK/src/main/java/uy/com/abitab/iddigitalsdk/data/network/BaseService.kt:22-29 | Neither base URL ends in '/', so `buildUrl(p)` is the selected base, one '/', then `p`. |
| `BaseService.JoinUrlIgnoresTrailingSlashes` | IDDigitalSDK/src/main/java/uy/com/abitab/iddigitalsdk/data/network/BaseService.kt:29 | Trailing slashes on the base never double the separator. |
| `Http.StatusError` | IDDigitalSDK/src/main/java/uy/com/abitab/iddigitalsdk/data/network/PinService.kt:51-66 | A failed response maps to ServiceUnavailable exactly for 500..599, to BadResponse exactly for 400 and 404, and to UnexpectedResponse otherwise. Each carries the status code and the body. |
| `Http.Recover` | IDDigitalSDK/src/main/java/uy/com/abitab/iddigitalsdk/data/network/PinService.kt:72-74 | The outer catch passes a value through and replaces any throw by its classification with the method's context. |
| `Http.Send` | IDDigitalSDK/src/main/java/uy/com/abitab/iddigitalsdk/data/network/PinService.kt:29-31 | A request is sent exactly when the device is online. Offline, the method throws NoInternetConnection before any request exists. |
| `Http.StatusErrorPassesThrough` | IDDigitalSDK/src/main/java/uy/com/abitab/iddigitalsdk/data/network/PinService.kt:147-168 | A status error thrown in the try leaves the outer catch unchanged. |
| `Http.ReadPayload` | IDDigitalSDK/src/main/java/uy/com/abitab/iddigitalsdk/data/network/PinService.kt:48-71 | A transport throw propagates. A failed status throws its status error. A successful status yields the payload field, or the JSON exception when the field is missing. |
| `Http.CheckStatus` | IDDigitalSDK/src/main/java/uy/com/abitab/iddigitalsdk/data/network/PinService.kt:89-112 | A Unit call succeeds exactly on a delivered 2xx response. Otherwise it throws the transport error or the status error. |
| `Http.ValidateDecision` | IDDigitalSDK/src/main/java/uy/com/abitab/iddigitalsdk/data/network/PinService.kt:133-164 | The intended validation decision, with string equality on the body code. Its outcomes are stated by `Http.ValidateDecisionCases`, `Http.ValidateMissingCodeIsUnknown` and `Http.TransportFailureClassified`. |
| `Http.ValidateDecisionCases` | IDDigitalSDK/src/main/java/uy/com/abitab/iddigitalsdk/data/network/PinService.kt:133-168 | Validation outcomes: true exactly on 2xx; false exactly on a failed response whose body code is "invalid-pin"; TooManyAttempts on "too-many-attempts". Any other code gives the status error. The body code is consulted before the status class. |
| `Http.ValidateMissingCodeIsUnknown` | IDDigitalSDK/src/main/java/uy/com/abitab/iddigitalsdk/data/network/PinService.kt:136-139 | A failed response without a readable "code" skips the status mapping and surfaces as UnknownError with the method's context. |
| `Http.TransportFailureClassified` | IDDigitalSDK/src/main/java/uy/com/abitab/iddigitalsdk/data/network/PinService.kt:166-168 | A transport throw is classified by `toIDDigitalError` with the method's context, in validating and in Unit calls. |
| `Http.ValidateDecisionAsWritten` | IDDigitalSDK/src/main/java/uy/com/abitab/iddigitalsdk/data/network/PinService.kt:139-147 | The decision as written, with `===` as the `interned` parameter. `Http.InvalidPinMissedAsWritten` and `Http.AsWrittenAgreesExactlyWhenInterned` state how it departs from the intended one. |
| `Http.InvalidPinMissedAsWritten` | IDDigitalSDK/src/main/java/uy/com/abitab/iddigitalsdk/data/network/PinService.kt:139-147 | When the parsed code is not the interned literal, as on the JVM, a 400 response with code "invalid-pin" throws BadResponse instead of returning false, while the intended decision returns false. The as-written decision then never returns false. |
| `Http.AsWrittenAgreesExactlyWhenInterned` | IDDigitalSDK/src/main/java/uy/com/abitab/iddigitalsdk/data/network/PinService.kt:141-144 | The identity comparisons decide like string equality on every response if and only if the parsed code is the interned literal. |
| `PinService.CreateChallenge` | IDDigitalSDK/src/main/java/uy/com/abitab/iddigitalsdk/data/network/PinService.kt:27-75 | POSTs the defaulted document to challenges/pin/ only when online. It returns `data.challengeId` exactly on 2xx with that field present. The other outcomes are a status error, UnknownError on a missing field, or the classified transport error. |
| `PinService.ExecuteChallenge` | IDDigitalSDK/src/main/java/uy/com/abitab/iddigitalsdk/data/network/PinService.kt:77-116 | POSTs "{}" to challenges/{id}/execute/ and returns Unit exactly on 2xx. Otherwise it throws the status error or the classified transport error. |
| `PinService.ValidateChallenge` | IDDigitalSDK/src/main/java/uy/com/abitab/iddigitalsdk/data/network/PinService.kt:118-169 | POSTs {"pin"} to challenges/{id}/validate/. It gives true exactly on 2xx and false exactly on "invalid-pin", and throws TooManyAttempts("too many pin attempts") on "too-many-attempts". Any other code gives the status error, and a missing code gives UnknownError. A transport failure is classified with the "Error in validateChallenge" context. Offline it throws NoInternetConnection. |
| `PinService.CreateBody` | IDDigitalSDK/src/main/java/uy/com/abitab/iddigitalsdk/data/network/PinService.kt:33-37 | The create body, stated by `PinService.CreateBodyDefaults`: the document number, with "ci" and "UY" exactly when type or country are absent. |
| `PinService.CreateBodyDefaults` | IDDigitalSDK/src/main/java/uy/com/abitab/iddigitalsdk/data/network/PinService.kt:33-37 | The create body uses "ci" and "UY" exactly when the document has no type or country. |
| `LivenessService.CreateChallenge` | IDDigitalSDK/src/main/java/uy/com/abitab/iddigitalsdk/data/network/LivenessService.kt:29-77 | POSTs the defaulted document to challenges/liveness/. It returns `data.challengeId` exactly on 2xx with that field present. A 2xx without it gives UnknownError("Error in createChallenge") caused by the JSON exception. A failed response throws its status error, a transport failure is classified, and offline it throws NoInternetConnection. |
| `LivenessService.ExecuteChallenge` | IDDigitalSDK/src/main/java/uy/com/abitab/iddigitalsdk/data/network/LivenessService.kt:79-120 | Returns `data.sessionId` exactly on 2xx with that field present. Otherwise it throws the status error, UnknownError or the classified transport error. |
| `LivenessService.ValidateChallenge` | IDDigitalSDK/src/main/java/uy/com/abitab/iddigitalsdk/data/network/LivenessService.kt:122-160 | Has no negative result: Unit exactly on 2xx, and every failed response throws by status class. |
| `LivenessService.ValidateIgnoresErrorCode` | IDDigitalSDK/src/main/java/uy/com/abitab/iddigitalsdk/data/network/LivenessService.kt:134-155 | Two responses that differ only in their body code validate alike. |
| `ValidationSessionService.CreateDeviceAssociation` | IDDigitalSDK/src/main/java/uy/com/abitab/iddigitalsdk/data/network/ValidationSessionService.kt:85-131 | POSTs the snake_case defaulted body to associations/ only when online. It returns Unit exactly on 2xx and parses no session. |
| `ValidationSessionService.ExecuteChallenge` | IDDigitalSDK/src/main/java/uy/com/abitab/iddigitalsdk/data/network/ValidationSessionService.kt:133-172 | POSTs the rendered data to challenges/{id}/execute/. It returns Unit exactly on 2xx; otherwise it throws the status error or the classified transport error. |
| `ValidationSessionService.ValidateChallenge` | IDDigitalSDK/src/main/java/uy/com/abitab/iddigitalsdk/data/network/ValidationSessionService.kt:174-224 | Same decision as PIN validation: true on 2xx, false on "invalid-pin", TooManyAttempts("too many attempts") on "too-many-attempts", the status error for any other code, UnknownError for a missing code, and a classified transport failure. |
| `ValidationSessionService.AssociationBody` | IDDigitalSDK/src/main/java/uy/com/abitab/iddigitalsdk/data/network/ValidationSessionService.kt:92-96 | The association body, stated by `ValidationSessionService.AssociationBodyDefaults`: snake_case keys, with "ci" and "UY" exactly when absent. |
| `ValidationSessionService.AssociationBodyDefaults` | IDDigitalSDK/src/main/java/uy/com/abitab/iddigitalsdk/data/network/ValidationSessionService.kt:92-96 | The keys are document_number, document_type and document_country, with "ci" and "UY" exactly when absent. |
| `AssociationStore.SaveUpdate` | IDDigitalSDK/src/main/java/uy/com/abitab/iddigitalsdk/data/DeviceAssociationDataStoreManager.kt:38-52 | Saving overwrites token, document and creation time and keeps the id token. A null document type or country makes the builder throw, and only then. |
| `AssociationStore.ToAssociation` | IDDigitalSDK/src/main/java/uy/com/abitab/iddigitalsdk/data/DeviceAssociationDataStoreManager.kt:54-71 | Reading gives null exactly for the default instance; otherwise token, creation time and id token are read back. |
| `AssociationStore.SavedRecordIsNotDefault` | IDDigitalSDK/src/main/java/uy/com/abitab/iddigitalsdk/data/DeviceAssociationDataStoreManager.kt:38-58 | A successful save never leaves the default record. |
| `AssociationStore.SaveThenGet` | IDDigitalSDK/src/main/java/uy/com/abitab/iddigitalsdk/data/DeviceAssociationDataStoreManager.kt:38-70 | After a save with type and country present, reading gives exactly the saved token, document and creation time, with the previous id token. |
| `AssociationStore.RemoveUpdate` | IDDigitalSDK/src/main/java/uy/com/abitab/iddigitalsdk/data/DeviceAssociationDataStoreManager.kt:73-77 | The record after a removal, stated by `AssociationStore.RemoveThenGet`: it reads as null and is unchanged by a second removal. |
| `AssociationStore.RemoveThenGet` | IDDigitalSDK/src/main/java/uy/com/abitab/iddigitalsdk/data/DeviceAssociationDataStoreManager.kt:54-77 | After a removal, whatever the record was, reading gives null, and a second removal changes nothing. |
| `AssociationStore.DeviceAssociationStore.Save` | IDDigitalSDK/src/main/java/uy/com/abitab/iddigitalsdk/data/DeviceAssociationDataStoreManager.kt:38-52 | The record becomes the updated one, or stays unchanged while the builder's exception is returned. |
| `AssociationStore.DeviceAssociationStore.Get` | IDDigitalSDK/src/main/java/uy/com/abitab/iddigitalsdk/data/DeviceAssociationDataStoreManager.kt:54-71 | Returns the mapping of the current record. |
| `AssociationStore.DeviceAssociationStore.Remove` | IDDigitalSDK/src/main/java/uy/com/abitab/iddigitalsdk/data/DeviceAssociationDataStoreManager.kt:73-77 | The record becomes the default instance whatever it was, so removal is idempotent. |
| `DeviceUtils.Unsigned` | IDDigitalSDK/src/main/java/uy/com/abitab/iddigitalsdk/utils/DeviceUtils.kt:30 | A signed Byte prints as its value modulo 256 (`b & 0xFF`). |
| `DeviceUtils.Format02x` | IDDigitalSDK/src/main/java/uy/com/abitab/iddigitalsdk/utils/DeviceUtils.kt:30 | `"%02x"` of a byte is two lowercase hex digits whose value is the unsigned byte. |
| `DeviceUtils.HexFold` | IDDigitalSDK/src/main/java/uy/com/abitab/iddigitalsdk/utils/DeviceUtils.kt:30 | The fold is lowercase hex, twice the digest's length, and digits 2i, 2i+1 render byte i. |
| `DeviceUtils.HexRoundTrip` | IDDigitalSDK/src/main/java/uy/com/abitab/iddigitalsdk/utils/DeviceUtils.kt:29-30 | Reading the hex back gives the digest bytes, so the rendering loses nothing (proved by induction). |
| `DeviceUtils.HashString` | IDDigitalSDK/src/main/java/uy/com/abitab/iddigitalsdk/utils/DeviceUtils.kt:26-34 | When the digest throws, the input comes back unchanged. Otherwise the result is lowercase hex of twice the digest's length and decodes to the digest. |
| `DeviceUtils.GetOrCreate` | IDDigitalSDK/src/main/java/uy/com/abitab/iddigitalsdk/utils/DeviceUtils.kt:13-24 | A stored identifier is returned and nothing is written. Without one, the generated identifier is returned and stored. |
| `DeviceUtils.FingerprintStable` | IDDigitalSDK/src/main/java/uy/com/abitab/iddigitalsdk/utils/DeviceUtils.kt:9-24 | After the first call, the identifier and the fingerprint never change, whatever later calls would generate. |
| `DeviceUtils.InstallationPreferences.GetAppSpecificUuid` | IDDigitalSDK/src/main/java/uy/com/abitab/iddigitalsdk/utils/DeviceUtils.kt:13-24 | The identifier returned and the stored value afterwards are those of the get-or-create. |
| `DeviceUtils.InstallationPreferences.GetDeviceFingerprint` | IDDigitalSDK/src/main/java/uy/com/abitab/iddigitalsdk/utils/DeviceUtils.kt:9-11 | The fingerprint is `hashString` of the get-or-create identifier. |
| `PinStore.BiometricEnabled` | IDDigitalSDK/src/main/java/uy/com/abitab/iddigitalsdk/data/PinDataStoreManager.kt:62-66 | The flag is true exactly when it was written as true; a flag never written or removed reads false. |
| `PinStore.DecryptedPin` | IDDigitalSDK/src/main/java/uy/com/abitab/iddigitalsdk/data/PinDataStoreManager.kt:44-60 | Null when no cipher is stored; otherwise the decryption, which is null when it throws SecurityException. |
| `PinStore.DecryptedPinIgnoresFlag` | IDDigitalSDK/src/main/java/uy/com/abitab/iddigitalsdk/data/PinDataStoreManager.kt:44-60 | The decrypted PIN does not depend on the flag or any boolean key. |
| `PinStore.SaveEdit` | IDDigitalSDK/src/main/java/uy/com/abitab/iddigitalsdk/data/PinDataStoreManager.kt:26-42 | Enabling with a working cipher stores the cipher text and sets the flag. Enabling with a failing cipher clears the flag but keeps any old cipher. Disabling removes the cipher and clears the flag. No other key changes. |
| `PinStore.ClearEdit` | IDDigitalSDK/src/main/java/uy/com/abitab/iddigitalsdk/data/PinDataStoreManager.kt:68-73 | Removes the cipher and the flag, and no other key. |
| `PinStore.UsageEdit` | IDDigitalSDK/src/main/java/uy/com/abitab/iddigitalsdk/data/PinDataStoreManager.kt:75-79 | Writes the last-use timestamp and leaves the cipher, the flag and every other key as they were. |
| `PinStore.SaveThenDecrypt` | IDDigitalSDK/src/main/java/uy/com/abitab/iddigitalsdk/data/PinDataStoreManager.kt:26-56 | With decryption inverting encryption, a successful save makes `getDecryptedPin` return the saved PIN, with the flag set. |
| `PinStore.FailedSaveKeepsStaleCipher` | IDDigitalSDK/src/main/java/uy/com/abitab/iddigitalsdk/data/PinDataStoreManager.kt:33-36 | A failed encryption leaves a previously cached PIN readable although the flag is now false. |
| `PinStore.ClearKeepsUsage` | IDDigitalSDK/src/main/java/uy/com/abitab/iddigitalsdk/data/PinDataStoreManager.kt:68-73 | After clearing, no PIN is readable and the flag is false, and the last-use timestamp is kept. |
| `PinStore.OnlyUsageEditWritesUsage` | IDDigitalSDK/src/main/java/uy/com/abitab/iddigitalsdk/data/PinDataStoreManager.kt:26-86 | Saving and clearing never touch the last-use timestamp; saving it makes it read back. |
| `PinStore.PinDataStore.SavePinAndBiometricPreference` | IDDigitalSDK/src/main/java/uy/com/abitab/iddigitalsdk/data/PinDataStoreManager.kt:26-42 | Applies the save edit in place. |
| `PinStore.PinDataStore.GetDecryptedPin` | IDDigitalSDK/src/main/java/uy/com/abitab/iddigitalsdk/data/PinDataStoreManager.kt:44-60 | Returns the decrypted PIN of the current preferences. |
| `PinStore.PinDataStore.IsBiometricPinEnabled` | IDDigitalSDK/src/main/java/uy/com/abitab/iddigitalsdk/data/PinDataStoreManager.kt:62-66 | Returns the flag of the current preferences. |
| `PinStore.PinDataStore.ClearPinAndBiometricPreference` | IDDigitalSDK/src/main/java/uy/com/abitab/iddigitalsdk/data/PinDataStoreManager.kt:68-73 | Applies the clear edit in place. |
| `PinStore.PinDataStore.SaveLastBiometricPinUsage` | IDDigitalSDK/src/main/java/uy/com/abitab/iddigitalsdk/data/PinDataStoreManager.kt:75-79 | Applies the usage edit in place. |
| `PinStore.PinDataStore.GetLastBiometricPinUsage` | IDDigitalSDK/src/main/java/uy/com/abitab/iddigitalsdk/data/PinDataStoreManager.kt:81-86 | Returns the stored last-use timestamp, if any. |
| `SessionPolicy.NextLaunch` | IDDigitalSDK/src/main/java/uy/com/abitab/iddigitalsdk/presentation/validation_session/ui/viewmodels/ValidationSessionViewModel.kt:86-118 | The decision of `launchNextChallenge`, each case an if-and-only-if. It finishes exactly when the cursor is past the end; it gives up exactly when a challenge remains and the counter is at least 3. An unknown type is reported only below the cap. Otherwise it launches the current challenge with `isRetry == (counter > 0)`. |
| `SessionPolicy.LivenessStep` | IDDigitalSDK/src/main/java/uy/com/abitab/iddigitalsdk/presentation/validation_session/ui/viewmodels/ValidationSessionViewModel.kt:156-171 | The liveness branch of the cursor update, stated by `SessionPolicy.StepCases`: true advances and resets, anything else counts a failure. |
| `SessionPolicy.PinStep` | IDDigitalSDK/src/main/java/uy/com/abitab/iddigitalsdk/presentation/validation_session/ui/viewmodels/ValidationSessionViewModel.kt:172-193 | The PIN branch of the cursor update, stated by `SessionPolicy.StepCases` and `SessionPolicy.WrongPinAdvances`: any return advances without a reset, a throw counts a failure. |
| `SessionPolicy.Step` | IDDigitalSDK/src/main/java/uy/com/abitab/iddigitalsdk/presentation/validation_session/ui/viewmodels/ValidationSessionViewModel.kt:153-194 | The cursor update after one validation, by type, stated by `SessionPolicy.StepCases` and `SessionPolicy.FailureCounts`. |
| `SessionPolicy.StepCases` | IDDigitalSDK/src/main/java/uy/com/abitab/iddigitalsdk/presentation/validation_session/ui/viewmodels/ValidationSessionViewModel.kt:153-194 | Liveness true advances and resets the counter; liveness false or a throw counts one failure. A returning PIN validation advances without resetting, and a throwing one counts one failure. |
| `SessionPolicy.FailureCounts` | IDDigitalSDK/src/main/java/uy/com/abitab/iddigitalsdk/presentation/validation_session/ui/viewmodels/ValidationSessionViewModel.kt:163-192 | A failure for the challenge's type leaves the cursor and adds one to the counter. |
| `SessionPolicy.Drive` | IDDigitalSDK/src/main/java/uy/com/abitab/iddigitalsdk/presentation/validation_session/ui/viewmodels/ValidationSessionViewModel.kt:86-194 | A run of launches and validations starts with the current decision and makes at most one decision more than there are outcomes. |
| `SessionPolicy.DriveTerminalOnlyLast` | IDDigitalSDK/src/main/java/uy/com/abitab/iddigitalsdk/presentation/validation_session/ui/viewmodels/ValidationSessionViewModel.kt:86-118 | In any run, every decision but the last launches a challenge: a terminal decision ends the run (proved by induction). |
| `SessionPolicy.ThreeFailuresGiveUp` | IDDigitalSDK/src/main/java/uy/com/abitab/iddigitalsdk/presentation/validation_session/ui/viewmodels/ValidationSessionViewModel.kt:94-97 | From a fresh counter, three failures of one challenge give exactly: a first try, two retries, then the terminal ChallengeValidationError. |
| `SessionPolicy.FirstTries` | IDDigitalSDK/src/main/java/uy/com/abitab/iddigitalsdk/presentation/validation_session/ui/viewmodels/ValidationSessionViewModel.kt:113-117 | One first-try launch per challenge, in order. |
| `SessionPolicy.HappyPath` | IDDigitalSDK/src/main/java/uy/com/abitab/iddigitalsdk/presentation/validation_session/ui/viewmodels/ValidationSessionViewModel.kt:86-170 | When every remaining type is known and every validation returns true, each challenge is launched once as a first try and the run then finishes (proved by induction). |
| `SessionPolicy.PinKeepsRetryFlag` | IDDigitalSDK/src/main/java/uy/com/abitab/iddigitalsdk/presentation/validation_session/ui/viewmodels/ValidationSessionViewModel.kt:187-188 | After earlier failures, a correct PIN launches the next challenge flagged as a retry. |
| `SessionPolicy.WrongPinAdvances` | IDDigitalSDK/src/main/java/uy/com/abitab/iddigitalsdk/presentation/validation_session/ui/viewmodels/ValidationSessionViewModel.kt:178-188 | A rejected PIN moves the cursor exactly like an accepted one. |
| `SessionPolicy.PinRecentlyChanged` | IDDigitalSDK/src/main/java/uy/com/abitab/iddigitalsdk/presentation/validation_session/ui/viewmodels/ValidationSessionViewModel.kt:138-143 | True only when both timestamps exist; then exactly when the backend's is strictly later. |
| `ValidationSessionRunner.LaunchState` | IDDigitalSDK/src/main/java/uy/com/abitab/iddigitalsdk/presentation/validation_session/ui/viewmodels/ValidationSessionViewModel.kt:86-118 | The state `launchNextChallenge` emits, stated case by case by `ValidationSessionRunner.LaunchStateCases`. |
| `ValidationSessionRunner.LaunchStateCases` | IDDigitalSDK/src/main/java/uy/com/abitab/iddigitalsdk/presentation/validation_session/ui/viewmodels/ValidationSessionViewModel.kt:86-118 | Success exactly past the end, even with the counter used up. Error(ChallengeValidationError) exactly when a challenge remains and the counter is at least 3. Error("Invalid challenge type") exactly for an unknown tag below the cap. A launch carries the challenge, the retry flag and `pinRecentlyChanged`. |
| `ValidationSessionRunner.PinExecution` | IDDigitalSDK/src/main/java/uy/com/abitab/iddigitalsdk/presentation/validation_session/ui/viewmodels/ValidationSessionViewModel.kt:135-145 | A throwing use case or a malformed stored timestamp throws. The result is true exactly when both timestamps exist and the backend's is strictly later. |
| `ValidationSessionRunner.PinValidationEdit` | IDDigitalSDK/src/main/java/uy/com/abitab/iddigitalsdk/presentation/validation_session/ui/viewmodels/ValidationSessionViewModel.kt:175-186 | The PIN-store edits of a returning PIN validation, stated by `ValidationSessionRunner.PinValidationEffects`. |
| `ValidationSessionRunner.PinValidationEffects` | IDDigitalSDK/src/main/java/uy/com/abitab/iddigitalsdk/presentation/validation_session/ui/viewmodels/ValidationSessionViewModel.kt:175-186 | After a returning PIN validation the PIN is cached (and readable back) exactly when `savePinToBiometrics` holds and a PIN is present. Otherwise cipher and flag are untouched. The last-use time is written exactly when `usedBiometric \|\| savePinToBiometrics`. |
| `ValidationSessionRunner.NoBackendTimestampNeverRecent` | IDDigitalSDK/src/main/java/uy/com/abitab/iddigitalsdk/presentation/validation_session/ui/viewmodels/ValidationSessionViewModel.kt:135-143 | Without a backend timestamp, as through PinService's Unit-returning execute, `pinRecentlyChanged` is never true. |
| `ValidationSessionRunner.ValidationSessionViewModel.constructor` | IDDigitalSDK/src/main/java/uy/com/abitab/iddigitalsdk/presentation/validation_session/ui/viewmodels/ValidationSessionViewModel.kt:44-51 | Empty list, cursor and counter 0, `pinRecentlyChanged` false, nothing emitted. |
| `ValidationSessionRunner.ValidationSessionViewModel.SetType` | IDDigitalSDK/src/main/java/uy/com/abitab/iddigitalsdk/presentation/validation_session/ui/viewmodels/ValidationSessionViewModel.kt:53-58 | Stores the type and emits Initial. |
| `ValidationSessionRunner.ValidationSessionViewModel.IsAssociated` | IDDigitalSDK/src/main/java/uy/com/abitab/iddigitalsdk/presentation/validation_session/ui/viewmodels/ValidationSessionViewModel.kt:60-64 | True exactly when the association store reads non-null. |
| `ValidationSessionRunner.ValidationSessionViewModel.CreateValidationSession` | IDDigitalSDK/src/main/java/uy/com/abitab/iddigitalsdk/presentation/validation_session/ui/viewmodels/ValidationSessionViewModel.kt:66-84 | Not associated: exactly Error(DeviceNotAssociated), with no Loading and no session request. Otherwise it emits Loading and requests a session. A failure emits the classified error. A success installs the session's challenges, sets the cursor to 0 (the counter is not reset) and emits the launch state. |
| `ValidationSessionRunner.ValidationSessionViewModel.LaunchNextChallenge` | IDDigitalSDK/src/main/java/uy/com/abitab/iddigitalsdk/presentation/validation_session/ui/viewmodels/ValidationSessionViewModel.kt:86-118 | Emits the launch state of the current cursor and changes nothing else. |
| `ValidationSessionRunner.ValidationSessionViewModel.ExecuteChallenge` | IDDigitalSDK/src/main/java/uy/com/abitab/iddigitalsdk/presentation/validation_session/ui/viewmodels/ValidationSessionViewModel.kt:120-151 | Past the end it throws IndexOutOfBounds. For an unknown type it does nothing and returns null. Liveness returns the session id, or emits the classified error and returns null. PIN sets and returns `pinRecentlyChanged` per the PIN execution, or emits the error and keeps it. |
| `ValidationSessionRunner.ValidationSessionViewModel.ValidateChallenge` | IDDigitalSDK/src/main/java/uy/com/abitab/iddigitalsdk/presentation/validation_session/ui/viewmodels/ValidationSessionViewModel.kt:153-194 | Past the end it throws IndexOutOfBounds. Otherwise the cursor moves as the policy's `Step` says and Loading plus the new launch state are emitted. The PIN branch calls validation with the PIN (or "") and applies the PIN-store edits only when the call returned. |
| `ValidationSessionRunner.ValidationSessionViewModel.ValidateLivenessChallenge` | IDDigitalSDK/src/main/java/uy/com/abitab/iddigitalsdk/presentation/validation_session/ui/viewmodels/ValidationSessionViewModel.kt:156-171 | Loading, then one liveness validation call. The cursor moves as the policy's liveness step says, and the next launch state is emitted. |
| `ValidationSessionRunner.ValidationSessionViewModel.ValidatePinChallenge` | IDDigitalSDK/src/main/java/uy/com/abitab/iddigitalsdk/presentation/validation_session/ui/viewmodels/ValidationSessionViewModel.kt:172-193 | Loading, then one PIN validation call with the PIN or "". Any return advances the cursor without a reset and applies the PIN-store edits; a throw counts a failure and leaves the store. Then the next launch state. |
| `ValidationSessionRunner.ValidationSessionViewModel.StorePinUsage` | IDDigitalSDK/src/main/java/uy/com/abitab/iddigitalsdk/presentation/validation_session/ui/viewmodels/ValidationSessionViewModel.kt:179-186 | The store ends as `PinValidationEdit` of its old preferences: the lemma `PinValidationEffects` states when the PIN is cached and the last use written. |
| `DeviceAssociationRunner.CatchException` | IDDigitalSDK/src/main/java/uy/com/abitab/iddigitalsdk/presentation/device_association/ui/viewmodels/DeviceAssociationViewModel.kt:78-80 | An Exception becomes one Error state holding an UnknownError with no cause, whose message is "Error starting association: " followed by the exception's message (or "null"). An IDDigitalError is not caught and escapes with no state. |
| `DeviceAssociationRunner.SdkErrorsEscapeStart` | IDDigitalSDK/src/main/java/uy/com/abitab/iddigitalsdk/presentation/device_association/ui/viewmodels/DeviceAssociationViewModel.kt:78-80 | Every classified error escapes the start coroutine without an error state. |
| `DeviceAssociationRunner.MissingDocumentReported` | IDDigitalSDK/src/main/java/uy/com/abitab/iddigitalsdk/presentation/device_association/ui/viewmodels/DeviceAssociationViewModel.kt:68-80 | Starting before `setDocument` reports the `lateinit` message inside the start error. |
| `DeviceAssociationRunner.FinishResult` | IDDigitalSDK/src/main/java/uy/com/abitab/iddigitalsdk/presentation/device_association/ui/viewmodels/DeviceAssociationViewModel.kt:84-96 | Without a session it throws IllegalStateException. A failing completion throws. Otherwise it saves, and the store then reads back the completed association with the old id token. |
| `DeviceAssociationRunner.DecisionState` | IDDigitalSDK/src/main/java/uy/com/abitab/iddigitalsdk/presentation/device_association/ui/viewmodels/DeviceAssociationViewModel.kt:104-129 | The state emitted for each launch decision short of the end, as `DeviceAssociationRunner.ValidateFollowsPolicy` states. |
| `DeviceAssociationRunner.LaunchEffect` | IDDigitalSDK/src/main/java/uy/com/abitab/iddigitalsdk/presentation/device_association/ui/viewmodels/DeviceAssociationViewModel.kt:98-130 | `launchNextChallenge` as an effect: past the end it completes and saves, otherwise it emits the decision. Stated by `DeviceAssociationRunner.ValidateFollowsPolicy` and `DeviceAssociationRunner.EmptySessionCompletesAtOnce`. |
| `DeviceAssociationRunner.TryBlock` | IDDigitalSDK/src/main/java/uy/com/abitab/iddigitalsdk/presentation/device_association/ui/viewmodels/DeviceAssociationViewModel.kt:158-188 | When the try reaches its launch, the cursor it leaves is the shared policy's `Step`. |
| `DeviceAssociationRunner.LaunchChain` | IDDigitalSDK/src/main/java/uy/com/abitab/iddigitalsdk/presentation/device_association/ui/viewmodels/DeviceAssociationViewModel.kt:158-188 | The launch in the try and, when it throws, the catch's counted failure and second launch. Stated by `DeviceAssociationRunner.CompletionFailureRetried` and `DeviceAssociationRunner.CompletionFailingTwiceEscapes`. |
| `DeviceAssociationRunner.ValidateEffect` | IDDigitalSDK/src/main/java/uy/com/abitab/iddigitalsdk/presentation/device_association/ui/viewmodels/DeviceAssociationViewModel.kt:155-189 | The whole effect of one validation, stated by `DeviceAssociationRunner.ValidateFollowsPolicy` and `DeviceAssociationRunner.CompletionFailureRetried`. |
| `DeviceAssociationRunner.ValidateFollowsPolicy` | IDDigitalSDK/src/main/java/uy/com/abitab/iddigitalsdk/presentation/device_association/ui/viewmodels/DeviceAssociationViewModel.kt:155-189 | Short of the last challenge, a validation moves the cursor as the policy does, a non-string PIN counting as a failure. It emits that cursor's decision, makes no further call and throws nothing. |
| `DeviceAssociationRunner.CompletionFailureRetried` | IDDigitalSDK/src/main/java/uy/com/abitab/iddigitalsdk/presentation/device_association/ui/viewmodels/DeviceAssociationViewModel.kt:155-189 | Passing the last challenge with a failing completion calls completion twice and costs one attempt. A second success saves and emits only Success; a second failure escapes with nothing emitted. |
| `DeviceAssociationRunner.CompletionFailingTwiceEscapes` | IDDigitalSDK/src/main/java/uy/com/abitab/iddigitalsdk/presentation/device_association/ui/viewmodels/DeviceAssociationViewModel.kt:168-187 | Two failing completions escape with the second failure, record unchanged and no state emitted. |
| `DeviceAssociationRunner.EmptySessionCompletesAtOnce` | IDDigitalSDK/src/main/java/uy/com/abitab/iddigitalsdk/presentation/device_association/ui/viewmodels/DeviceAssociationViewModel.kt:98-101 | A session with no challenges completes at once: one completion call, the association saved, then Success. |
| `DeviceAssociationRunner.DeviceAssociationViewModel.constructor` | IDDigitalSDK/src/main/java/uy/com/abitab/iddigitalsdk/presentation/device_association/ui/viewmodels/DeviceAssociationViewModel.kt:47-51 | No document or session, empty list, cursor and counter 0, nothing emitted. |
| `DeviceAssociationRunner.DeviceAssociationViewModel.SetDocument` | IDDigitalSDK/src/main/java/uy/com/abitab/iddigitalsdk/presentation/device_association/ui/viewmodels/DeviceAssociationViewModel.kt:56-61 | Stores the document and emits Initial. |
| `DeviceAssociationRunner.DeviceAssociationViewModel.FinishDeviceAssociation` | IDDigitalSDK/src/main/java/uy/com/abitab/iddigitalsdk/presentation/device_association/ui/viewmodels/DeviceAssociationViewModel.kt:84-96 | Calls completion with the session id, persists the result before emitting Success, or throws. |
| `DeviceAssociationRunner.DeviceAssociationViewModel.LaunchNextChallenge` | IDDigitalSDK/src/main/java/uy/com/abitab/iddigitalsdk/presentation/device_association/ui/viewmodels/DeviceAssociationViewModel.kt:98-130 | Past the end it finishes the association. Otherwise it emits the policy decision: give up at 3 failures, an invalid-type error, or a launch with `isRetry == (counter > 0)`. |
| `DeviceAssociationRunner.DeviceAssociationViewModel.StartDeviceAssociation` | IDDigitalSDK/src/main/java/uy/com/abitab/iddigitalsdk/presentation/device_association/ui/viewmodels/DeviceAssociationViewModel.kt:64-82 | Emits Loading and checks eligibility. If ineligible, it emits Error(UserCannotBeAssociated) and never creates an association. A created session sets the cursor to 0 and launches. Throws go through `catch (e: Exception)`, and IDDigitalErrors escape. |
| `DeviceAssociationRunner.DeviceAssociationViewModel.StartTryBlock` | IDDigitalSDK/src/main/java/uy/com/abitab/iddigitalsdk/presentation/device_association/ui/viewmodels/DeviceAssociationViewModel.kt:66-77 | The try block by case: a missing document throws before any call. A failed check or creation throws with the calls made so far. An ineligible user gets exactly Error(UserCannotBeAssociated) and nothing is thrown. Only a created session changes the list, the session and the cursor. |
| `DeviceAssociationRunner.DeviceAssociationViewModel.BeginSession` | IDDigitalSDK/src/main/java/uy/com/abitab/iddigitalsdk/presentation/device_association/ui/viewmodels/DeviceAssociationViewModel.kt:73-77 | Installs the session's challenges, sets the cursor to 0 with the counter kept, and has the launch effect of that cursor. |
| `DeviceAssociationRunner.DeviceAssociationViewModel.ExecuteChallenge` | IDDigitalSDK/src/main/java/uy/com/abitab/iddigitalsdk/presentation/device_association/ui/viewmodels/DeviceAssociationViewModel.kt:132-153 | Liveness returns the session id. PIN always returns null. A failure emits the classified error and returns null. Past the end it throws. |
| `DeviceAssociationRunner.DeviceAssociationViewModel.LaunchWithRecovery` | IDDigitalSDK/src/main/java/uy/com/abitab/iddigitalsdk/presentation/device_association/ui/viewmodels/DeviceAssociationViewModel.kt:168-171 | The try's launch and, when it throws, the catch's failure count and second launch. |
| `DeviceAssociationRunner.DeviceAssociationViewModel.ValidateChallenge` | IDDigitalSDK/src/main/java/uy/com/abitab/iddigitalsdk/presentation/device_association/ui/viewmodels/DeviceAssociationViewModel.kt:155-189 | Emits Loading, then the validation effect. The PIN is cached only when the validation returned and `saveBiometricPin` is true; a non-string PIN is never sent. Past the end it throws. |
| `DeviceAssociationRunner.DeviceAssociationViewModel.ValidateLivenessChallenge` | IDDigitalSDK/src/main/java/uy/com/abitab/iddigitalsdk/presentation/device_association/ui/viewmodels/DeviceAssociationViewModel.kt:158-173 | The liveness branch: Loading, the validation call, then the validation effect. |
| `DeviceAssociationRunner.DeviceAssociationViewModel.ValidatePinChallenge` | IDDigitalSDK/src/main/java/uy/com/abitab/iddigitalsdk/presentation/device_association/ui/viewmodels/DeviceAssociationViewModel.kt:174-188 | The PIN branch: the Boolean is discarded, and a returning call with `saveBiometricPin` caches the PIN. |
| `DeviceAssociationRunner.DeviceAssociationViewModel.AcceptPin` | IDDigitalSDK/src/main/java/uy/com/abitab/iddigitalsdk/presentation/device_association/ui/viewmodels/DeviceAssociationViewModel.kt:179-182 | The PIN is cached exactly when `saveBiometricPin` holds, then the cursor advances by one. |
| `LivenessRunner.DetectionError` | IDDigitalSDK/src/main/java/uy/com/abitab/iddigitalsdk/presentation/liveness/ui/viewmodels/LivenessViewModel.kt:120-144 | Each vendor class maps to exactly one SDK class: a cancellation to UserCancelledError, a denied camera to CameraPermissionError, a timeout to TimeoutError, and anything else to UnknownError. A cancellation drops the vendor throwable; the others keep it as cause. |
| `LivenessRunner.DetectionErrorMessages` | IDDigitalSDK/src/main/java/uy/com/abitab/iddigitalsdk/presentation/liveness/ui/viewmodels/LivenessViewModel.kt:120-144 | The message of each vendor class is a fixed text, whatever the underlying throwable. |
| `LivenessRunner.DetectionErrorClasses` | IDDigitalSDK/src/main/java/uy/com/abitab/iddigitalsdk/presentation/liveness/ui/viewmodels/LivenessViewModel.kt:121-144 | No vendor error becomes a network error. Distinct non-cancellation failures map to distinct errors, and all cancellations map alike. |
| `LivenessRunner.CreationState` | IDDigitalSDK/src/main/java/uy/com/abitab/iddigitalsdk/presentation/liveness/ui/viewmodels/LivenessViewModel.kt:61-74 | ChallengeCreated(id) on success. Otherwise the classified error, including the lateinit failure when no document was set. |
| `LivenessRunner.ValidationState` | IDDigitalSDK/src/main/java/uy/com/abitab/iddigitalsdk/presentation/liveness/ui/viewmodels/LivenessViewModel.kt:88-99 | Success exactly when the call returns, whatever the Boolean. A throw becomes an unclassified UnknownError quoting the message. |
| `LivenessRunner.RejectedLivenessSucceeds` | IDDigitalSDK/src/main/java/uy/com/abitab/iddigitalsdk/presentation/liveness/ui/viewmodels/LivenessViewModel.kt:91-92 | A rejected liveness check is shown as Success, like an accepted one. |
| `LivenessRunner.ValidationFailureUnclassified` | IDDigitalSDK/src/main/java/uy/com/abitab/iddigitalsdk/presentation/liveness/ui/viewmodels/LivenessViewModel.kt:93-95 | Any validation throw, a network failure included, is reported as UnknownError without a cause. |
| `LivenessRunner.PermissionDecision` | IDDigitalSDK/src/main/java/uy/com/abitab/iddigitalsdk/presentation/liveness/ui/viewmodels/LivenessViewModel.kt:101-112 | It ignores the result exactly without a pending request. It denies exactly when pending and refused, and creates exactly when pending and granted. |
| `LivenessRunner.LivenessViewModel.constructor` | IDDigitalSDK/src/main/java/uy/com/abitab/iddigitalsdk/presentation/liveness/ui/viewmodels/LivenessViewModel.kt:39-40 | No document, no pending request. |
| `LivenessRunner.LivenessViewModel.SetInitialState` | IDDigitalSDK/src/main/java/uy/com/abitab/iddigitalsdk/presentation/liveness/ui/viewmodels/LivenessViewModel.kt:150-155 | Stores the document and emits Initial(document). |
| `LivenessRunner.LivenessViewModel.CreateLivenessChallenge` | IDDigitalSDK/src/main/java/uy/com/abitab/iddigitalsdk/presentation/liveness/ui/viewmodels/LivenessViewModel.kt:61-74 | Emits the creation state and calls creation only when a document is set. |
| `LivenessRunner.LivenessViewModel.StartLiveness` | IDDigitalSDK/src/main/java/uy/com/abitab/iddigitalsdk/presentation/liveness/ui/viewmodels/LivenessViewModel.kt:43-59 | Emits Loading first. Without permission it sets the pending flag, requests permission and sends the answer, creating nothing. With permission it creates the challenge. |
| `LivenessRunner.LivenessViewModel.OnPermissionResult` | IDDigitalSDK/src/main/java/uy/com/abitab/iddigitalsdk/presentation/liveness/ui/viewmodels/LivenessViewModel.kt:101-112 | It does nothing without a pending request and always leaves none pending. A denial emits CameraPermissionError; a grant creates the challenge. |
| `LivenessRunner.LivenessViewModel.ExecuteLivenessChallenge` | IDDigitalSDK/src/main/java/uy/com/abitab/iddigitalsdk/presentation/liveness/ui/viewmodels/LivenessViewModel.kt:76-86 | ChallengeExecuted(challengeId, sessionId) on success, or the classified error. |
| `LivenessRunner.LivenessViewModel.ValidateLivenessChallenge` | IDDigitalSDK/src/main/java/uy/com/abitab/iddigitalsdk/presentation/liveness/ui/viewmodels/LivenessViewModel.kt:88-99 | Emits the validation state. |
| `LivenessRunner.LivenessViewModel.OnLivenessCompleted` | IDDigitalSDK/src/main/java/uy/com/abitab/iddigitalsdk/presentation/liveness/ui/viewmodels/LivenessViewModel.kt:114-118 | Emits ChallengeCompleted(challengeId). |
| `LivenessRunner.LivenessViewModel.OnLivenessError` | IDDigitalSDK/src/main/java/uy/com/abitab/iddigitalsdk/presentation/liveness/ui/viewmodels/LivenessViewModel.kt:120-148 | Emits the mapped vendor error. |
| `PinRunner.ExecutionState` | IDDigitalSDK/src/main/java/uy/com/abitab/iddigitalsdk/presentation/pin/ui/viewmodels/PinViewModel.kt:35-45 | ChallengeExecuted(id) exactly when the id is set and the call returns. Otherwise the classified error, including the lateinit failure. |
| `PinRunner.ValidationState` | IDDigitalSDK/src/main/java/uy/com/abitab/iddigitalsdk/presentation/pin/ui/viewmodels/PinViewModel.kt:47-75 | Success exactly on true and ChallengeValidationError exactly on false, each with the id. Error exactly on a throw (or an unset id), classified with "Error validating challenge". |
| `PinRunner.ValidationVerdicts` | IDDigitalSDK/src/main/java/uy/com/abitab/iddigitalsdk/presentation/pin/ui/viewmodels/PinViewModel.kt:50-63 | A rejected PIN is never an Error and a throw always is; a network failure keeps its network classification. |
| `PinRunner.PinViewModel.constructor` | IDDigitalSDK/src/main/java/uy/com/abitab/iddigitalsdk/presentation/pin/ui/viewmodels/PinViewModel.kt:24 | No challenge id, nothing emitted. |
| `PinRunner.PinViewModel.SetInitialState` | IDDigitalSDK/src/main/java/uy/com/abitab/iddigitalsdk/presentation/pin/ui/viewmodels/PinViewModel.kt:77-82 | Stores the id, then emits Initial. |
| `PinRunner.PinViewModel.ExecutePinChallenge` | IDDigitalSDK/src/main/java/uy/com/abitab/iddigitalsdk/presentation/pin/ui/viewmodels/PinViewModel.kt:35-45 | Emits the execution state; calls the use case only with an id. |
| `PinRunner.PinViewModel.RequestPin` | IDDigitalSDK/src/main/java/uy/com/abitab/iddigitalsdk/presentation/pin/ui/viewmodels/PinViewModel.kt:26-33 | Emits Loading before the execution state. |
| `PinRunner.PinViewModel.ValidatePinChallenge` | IDDigitalSDK/src/main/java/uy/com/abitab/iddigitalsdk/presentation/pin/ui/viewmodels/PinViewModel.kt:47-75 | Emits exactly one state, the validation state. |
| `PinScreenLogic.AfterDigit` | IDDigitalSDK/src/main/java/uy/com/abitab/iddigitalsdk/presentation/pin/ui/screens/PinScreen.kt:113-120 | A digit is appended only while the buffer is shorter than 4, so a well-formed buffer stays at most 4 digits. |
| `PinScreenLogic.DropLast` | IDDigitalSDK/src/main/java/uy/com/abitab/iddigitalsdk/presentation/pin/ui/screens/PinScreen.kt:126 | Backspace removes exactly the last character, an empty buffer stays empty, and the buffer stays well formed. |
| `PinScreenLogic.TypeDigits` | IDDigitalSDK/src/main/java/uy/com/abitab/iddigitalsdk/presentation/pin/ui/screens/PinScreen.kt:113-120 | A run of digit keys, stated by `PinScreenLogic.TypeDigitsKeepsPrefix`: the first keys are kept up to four. |
| `PinScreenLogic.TypeDigitsKeepsPrefix` | IDDigitalSDK/src/main/java/uy/com/abitab/iddigitalsdk/presentation/pin/ui/screens/PinScreen.kt:113-120 | Typing any run of keys keeps the first keys up to four and ignores the rest (proved by induction). |
| `PinScreenLogic.SavePinToBiometrics` | IDDigitalSDK/src/main/java/uy/com/abitab/iddigitalsdk/presentation/pin/ui/screens/PinScreen.kt:134 | A manual entry asks to save the PIN exactly when the PIN recently changed (true, not null) and biometrics are enabled. |
| `PinScreenLogic.AutoPromptAllowed` | IDDigitalSDK/src/main/java/uy/com/abitab/iddigitalsdk/presentation/pin/ui/screens/PinScreen.kt:228 | The auto-prompt gate, where a null `hasError` does not block. `PinScreenLogic.GatesCompared` and `PinScreenLogic.RecentChangeDisablesBiometric` state it. |
| `PinScreenLogic.ShowsFingerprintKey` | IDDigitalSDK/src/main/java/uy/com/abitab/iddigitalsdk/presentation/pin/ui/screens/PinScreen.kt:386 | The fingerprint-key gate, where a null `hasError` blocks. `PinScreenLogic.GatesCompared` and `PinScreenLogic.RecentChangeDisablesBiometric` state it. |
| `PinScreenLogic.GatesCompared` | IDDigitalSDK/src/main/java/uy/com/abitab/iddigitalsdk/presentation/pin/ui/screens/PinScreen.kt:386 | With a known `hasError`, the fingerprint-key gate and the auto-prompt gate of line 228 agree on an empty buffer before any prompt. A null `hasError` lets the prompt open on its own but hides the key. |
| `PinScreenLogic.RecentChangeDisablesBiometric` | IDDigitalSDK/src/main/java/uy/com/abitab/iddigitalsdk/presentation/pin/ui/screens/PinScreen.kt:228-386 | After a PIN change, neither gate offers the biometric, and a manual entry asks to save the PIN exactly when biometrics are enabled. |
| `PinScreenLogic.ExecutedRecentlyChanged` | IDDigitalSDK/src/main/java/uy/com/abitab/iddigitalsdk/presentation/pin/ui/screens/PinScreen.kt:241-249 | False without a callback; otherwise true exactly when the callback answers true (null counts as false). |
| `PinScreenLogic.PinScreenState.constructor` | IDDigitalSDK/src/main/java/uy/com/abitab/iddigitalsdk/presentation/pin/ui/screens/PinScreen.kt:99-109 | Empty buffer, no prompt shown, biometric off, save switch on, `pinRecentlyChanged` null, Idle. |
| `PinScreenLogic.PinScreenState.OnDigitClick` | IDDigitalSDK/src/main/java/uy/com/abitab/iddigitalsdk/presentation/pin/ui/screens/PinScreen.kt:113-120 | The buffer becomes `AfterDigit` of the old buffer and stays at most 4 digits. |
| `PinScreenLogic.PinScreenState.OnBackSpaceClick` | IDDigitalSDK/src/main/java/uy/com/abitab/iddigitalsdk/presentation/pin/ui/screens/PinScreen.kt:122-127 | The buffer loses its last character, if any. |
| `PinScreenLogic.PinScreenState.CheckPin` | IDDigitalSDK/src/main/java/uy/com/abitab/iddigitalsdk/presentation/pin/ui/screens/PinScreen.kt:129-137 | Nothing happens unless the buffer holds exactly 4 digits. Otherwise it submits once, with `usedBiometric = false`, the save switch and `savePinToBiometrics`, then clears the buffer. |
| `PinScreenLogic.PinScreenState.OnSaveBiometricPinChanged` | IDDigitalSDK/src/main/java/uy/com/abitab/iddigitalsdk/presentation/pin/ui/screens/PinScreen.kt:448-453 | The switch sets the save-biometric flag. |
| `PinScreenLogic.PinScreenState.StartBiometricAuthentication` | IDDigitalSDK/src/main/java/uy/com/abitab/iddigitalsdk/presentation/pin/ui/screens/PinScreen.kt:220-223 | The status becomes Prompting and one prompt is opened. |
| `PinScreenLogic.PinScreenState.OnFingerprintKey` | IDDigitalSDK/src/main/java/uy/com/abitab/iddigitalsdk/presentation/pin/ui/screens/PinScreen.kt:386-394 | Present only behind the line-386 gate; it opens the prompt. |
| `PinScreenLogic.PinScreenState.AutoPromptEffect` | IDDigitalSDK/src/main/java/uy/com/abitab/iddigitalsdk/presentation/pin/ui/screens/PinScreen.kt:225-239 | It re-reads the flag from the store. It opens the prompt exactly when the gate holds and the capability check succeeds, and then sets `biometricShown`. The invariant keeps auto-prompts at most one over the screen's life. |
| `PinScreenLogic.PinScreenState.ExecuteEffect` | IDDigitalSDK/src/main/java/uy/com/abitab/iddigitalsdk/presentation/pin/ui/screens/PinScreen.kt:241-249 | Without a callback `pinRecentlyChanged` becomes false. Otherwise, while still null, it becomes the callback's answer (null as false). |
| `PinScreenLogic.PinScreenState.OnAuthenticationSucceeded` | IDDigitalSDK/src/main/java/uy/com/abitab/iddigitalsdk/presentation/pin/ui/screens/PinScreen.kt:164-187 | A readable cached PIN is submitted as `(pin, false, true, false)`, the status becomes Success and the buffer is cleared. A missing PIN sets the "no encontrado" error and clears the cache. |
| `PinScreenLogic.PinScreenState.OnAuthenticationError` | IDDigitalSDK/src/main/java/uy/com/abitab/iddigitalsdk/presentation/pin/ui/screens/PinScreen.kt:156-162 | The status becomes Error("Error: <text> (<code>)"). |
| `PinScreenLogic.PinScreenState.OnAuthenticationFailed` | IDDigitalSDK/src/main/java/uy/com/abitab/iddigitalsdk/presentation/pin/ui/screens/PinScreen.kt:189-197 | The status becomes the failed-authentication error. |

## Left out

- Compose rendering, activities, navigation, the demo app, dependency injection and header
  injection: they are UI or wiring. BuildConfig's base URL is a parameter of each service
  function.
- Coroutines: each `launch` is taken to run to completion in call order, with no interleaving,
  cancellation or SharedFlow replay. Each emit is an append to the ghost log.
- Transport and parsing: OkHttp, connectivity checks, org.json and Gson are foreign. A response
  is an abstract value with its status code, body and the JSON reads already resolved. The JSON
  text of request bodies is a list of members; member order and escaping are not modelled.
- Crypto: the key-store AES-GCM cipher (PinSecurityManager) is foreign. Encryption and
  decryption are functions that may fail. The digest of the device fingerprint is one too.
- Clock and time parsing: `Instant.now()` is a parameter, `Instant.parse` is a function that may
  fail, and instants are integers.
- Platform checks: camera permission and biometric capability are Boolean inputs. The camera
  permission channel is a ghost log. `BiometricPrompt.authenticate` is a prompt counter.
- Use cases and repositories: one-line delegations whose signatures disagree with the services.
  Only their results, as the view models see them, are modelled.
- Legacy files (the old liveness service and activity, the old SDK entry point, the PIN
  activity, the activity launcher use case) do not match the current APIs and are not modelled.
- Store I/O failures: DataStore and SharedPreferences writes are taken to succeed.
- The PIN screen's error banner timer, haptics, lost-PIN dialog and toast are UI side effects.
- Models.Lowercase: lowercases ASCII letters only; Unicode case mapping is not modelled.
- Http.ValidateDecisionAsWritten: the outcome of `===` is the `interned` parameter. It is false
  for a string built by parsing a response body, and JVM string interning itself is not modelled.
- PinScreenLogic.PinScreenState.OnAuthenticationSucceeded: leaves out the screen's own
  `catch (e: SecurityException)` and `catch (e: Exception)`. `getDecryptedPin` already catches
  the SecurityException and returns null, so those branches are not reached.
- DeviceAssociationRunner.DeviceAssociationViewModel.ValidateChallenge: `data` is reduced to
  "a String or not" and `options` to the `saveBiometricPin` flag. A null `data` and a non-String
  `data` both fail the cast and are handled alike.
- ValidationSessionRunner.ValidationSessionViewModel.ValidateChallenge: `data` entries are a
  string, a Boolean or some other value; other types are not distinguished.
- PinService.ValidateChallenge: decides with string equality on the body code, the intended
  behaviour. The identity comparison as written is `Http.ValidateDecisionAsWritten`; see Findings.
- ValidationSessionService.ValidateChallenge: decides with string equality on the body code, the
  intended behaviour. The identity comparison as written is `Http.ValidateDecisionAsWritten`; see
  Findings.
- Errors.Message: the messages of ChallengeValidationError, DeviceNotAssociatedError and
  UserCannotBeAssociatedError are placeholders, because their declarations are not part of this
  model.

## Findings

| source | as written | input that shows it | evidently intended | confidence | as-written member | corrected member |
|---|---|---|---|---|---|---|
| IDDigitalSDK/src/main/java/uy/com/abitab/iddigitalsdk/data/network/PinService.kt:141-144 | The body code is compared with `===` (reference identity) against "invalid-pin" and "too-many-attempts". The same comparison appears at ValidationSessionService.kt:196-199. A string read from a freshly parsed body is never the interned literal. | A 400 response with body `{"code":"invalid-pin"}`: it throws BadResponse(400, body) instead of returning false, and "too-many-attempts" likewise never throws TooManyAttempts. | String equality: the wrong PIN returns false, too many attempts throws TooManyAttempts. | not executed; relies on the JVM's identity semantics for parsed strings | `Http.InvalidPinMissedAsWritten` (over `Http.ValidateDecisionAsWritten`) | `Http.ValidateDecisionCases` (over `Http.ValidateDecision`, which both services use) |
