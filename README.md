# flutter_biometric_auth_plus, Android side: a Dafny model

The Android plugin bridges Flutter calls to androidx.biometric. What it
decides for itself, and what this project models, is:

- how an `authenticate` request is read (its defaults), which authenticators
  it asks for (STRONG or WEAK, plus DEVICE_CREDENTIAL), and how the prompt
  configuration is built from it (`request.dfy`, module `Request`);
- the outcome maps sent back: success with the authentication method, error
  with a token from a fixed table, and BIOMETRIC_UNAVAILABLE with a message
  from a second table (`messages.dfy`, `request.dfy`);
- the five boolean capability handlers (`capabilities.dfy`);
- the guess at which modalities (fingerprint, face, iris) a device has, in
  its two disagreeing versions: the one behind `getAvailableBiometrics` and
  the `hasFingerprint` / `hasFaceRecognition` / `hasIrisRecognition` helpers
  behind `getBiometricInfo`'s type list (`modalities.dfy`, over the string
  helpers of `text.dfy`);
- the plugin object's state: the foreground activity, the BiometricManager
  and the one prompt kept for cancellation, with `authenticate`, cancel and
  the lifecycle hooks that write them (`bridge.dfy`, classes
  `Bridge.Plugin` and `Bridge.Prompt`).

Platform inputs are parameters. `BiometricManager.canAuthenticate` is a
function from authenticator sets to a status (`Platform.Availability`), held
in an `Option` because the plugin's manager is null when it is detached from
the engine; `Build.MANUFACTURER`, `Build.MODEL` and `Build.VERSION.SDK_INT`
are a `Device` value. The library's integer constants (status codes, prompt
error codes, authentication types) are enumerations, each with a catch-all
constructor for integers the code does not name. `Build.VERSION_CODES.P` is
28.

Behaviour of the code that a reader might not expect, and that the model
keeps:

- the current prompt is not cleared when the prompt reports success or an
  error; only cancellation and `onDetachedFromActivity` clear it;
- `getAvailableBiometrics` reports iris on the listed Samsung models whenever
  the strong or the weak tier succeeds; only the `hasIrisRecognition` helper
  requires the strong tier;
- the biometric strength is any string: anything other than "strong" selects
  WEAK, and DEVICE_CREDENTIAL is added only for exactly "strong" or "weak";
- `canCheckBiometrics` answers true when the plugin has no manager, since a
  null status is not NO_HARDWARE.

## Model

| member | source | states |
|---|---|---|
| Text.Lowercase | android/src/main/kotlin/mg/nexus/flutter_biometric_auth_plus/FlutterBiometricAuthPlusPlugin.kt:135-136 | lowercasing keeps the length, lowers each character in place, leaves no upper-case letter and returns an all-lower-case string unchanged |
| Text.LowercaseIdempotent | android/src/main/kotlin/mg/nexus/flutter_biometric_auth_plus/FlutterBiometricAuthPlusPlugin.kt:135-136 | lowering an already lowered string changes nothing |
| Text.ContainsAt | android/src/main/kotlin/mg/nexus/flutter_biometric_auth_plus/FlutterBiometricAuthPlusPlugin.kt:141-147 | the substring test holds exactly when the needle starts at some position of the string |
| Messages.ErrorCodeToken | android/src/main/kotlin/mg/nexus/flutter_biometric_auth_plus/FlutterBiometricAuthPlusPlugin.kt:460-477 | every prompt error code maps into the closed token vocabulary, and UNKNOWN_ERROR is given exactly to the codes the table does not name |
| Messages.ErrorTokenRoundTrip | android/src/main/kotlin/mg/nexus/flutter_biometric_auth_plus/FlutterBiometricAuthPlusPlugin.kt:460-477 | reading a token back gives the code it came from for each of the 13 named codes, and no code for UNKNOWN_ERROR |
| Messages.ErrorTokenInjective | android/src/main/kotlin/mg/nexus/flutter_biometric_auth_plus/FlutterBiometricAuthPlusPlugin.kt:460-477 | two named codes with the same token are the same code |
| Messages.AuthenticationErrorMessage | android/src/main/kotlin/mg/nexus/flutter_biometric_auth_plus/FlutterBiometricAuthPlusPlugin.kt:482-499 | the generic "not available" message is given exactly to the statuses without their own message: null, SUCCESS and unnamed integers |
| Messages.ErrorMessageInjective | android/src/main/kotlin/mg/nexus/flutter_biometric_auth_plus/FlutterBiometricAuthPlusPlugin.kt:482-499 | the six named statuses get six different messages |
| Capabilities.Ask | android/src/main/kotlin/mg/nexus/flutter_biometric_auth_plus/FlutterBiometricAuthPlusPlugin.kt:99-247 | canCheckBiometrics is false exactly when the manager reports NO_HARDWARE for WEAK; the four other handlers are true exactly when the manager reports SUCCESS for their one authenticator |
| Capabilities.NoManagerAnswers | android/src/main/kotlin/mg/nexus/flutter_biometric_auth_plus/FlutterBiometricAuthPlusPlugin.kt:99-247 | without a manager only canCheckBiometrics answers true |
| Capabilities.EnrolledMeansWeakMeansHardware | android/src/main/kotlin/mg/nexus/flutter_biometric_auth_plus/FlutterBiometricAuthPlusPlugin.kt:99-234 | hasEnrolledBiometrics and canAuthenticateWithBiometricsWeak always agree, and either implies canCheckBiometrics |
| Modalities.NamesDistinct | android/src/main/kotlin/mg/nexus/flutter_biometric_auth_plus/FlutterBiometricAuthPlusPlugin.kt:129-187 | "fingerprint", "face" and "iris" name three different modalities |
| Modalities.OrderedIsShort | android/src/main/kotlin/mg/nexus/flutter_biometric_auth_plus/FlutterBiometricAuthPlusPlugin.kt:118-188 | a list in fingerprint, face, iris order has no duplicates and at most three entries |
| Modalities.AvailableBiometrics | android/src/main/kotlin/mg/nexus/flutter_biometric_auth_plus/FlutterBiometricAuthPlusPlugin.kt:116-195 | the list is empty when neither strong nor weak succeeds, has fingerprint iff strong succeeds, face iff a tier succeeds and the face guess holds (always when weak succeeds without strong), iris iff a tier succeeds and the device is a listed Samsung model, in fingerprint, face, iris order; the face and iris conditions are the guesses `Modalities.FaceUnlockGuess` (lines 139-170) and `Modalities.IrisGuess` (lines 177-184) |
| Modalities.FingerprintGuessesAgree | android/src/main/kotlin/mg/nexus/flutter_biometric_auth_plus/FlutterBiometricAuthPlusPlugin.kt:408-410 | hasFingerprint and getAvailableBiometrics both report fingerprint exactly when the strong tier succeeds |
| Modalities.HasFaceRecognition | android/src/main/kotlin/mg/nexus/flutter_biometric_auth_plus/FlutterBiometricAuthPlusPlugin.kt:416-436 | false whenever weak does not succeed; with weak succeeding, true for a Google Pixel 4, for a Samsung from Android 9 on, and whenever strong does not succeed; false when strong succeeds and the device is neither of the two |
| Modalities.FaceHelperNarrowsHandlerGuess | android/src/main/kotlin/mg/nexus/flutter_biometric_auth_plus/FlutterBiometricAuthPlusPlugin.kt:416-436 | with the weak tier working, hasFaceRecognition implies the handler's face guess, and where the guess holds without the helper, strong succeeds and the device is neither a Google Pixel 4 nor a Samsung from Android 9 on; so the helper holds exactly when the guess holds and strong fails or the device is one of those two |
| Modalities.HasIrisRecognition | android/src/main/kotlin/mg/nexus/flutter_biometric_auth_plus/FlutterBiometricAuthPlusPlugin.kt:442-455 | true only when the strong tier succeeds |
| Modalities.BiometricInfoTypes | android/src/main/kotlin/mg/nexus/flutter_biometric_auth_plus/FlutterBiometricAuthPlusPlugin.kt:376-380 | the type list holds exactly the modalities whose helper answers true, in fingerprint, face, iris order, and is empty when neither tier succeeds |
| Modalities.InfoReportsAreHandlerReports | android/src/main/kotlin/mg/nexus/flutter_biometric_auth_plus/FlutterBiometricAuthPlusPlugin.kt:408-455 | every modality the helpers report is also reported by getAvailableBiometrics |
| Modalities.IrisHelperIsHandlerGatedOnStrong | android/src/main/kotlin/mg/nexus/flutter_biometric_auth_plus/FlutterBiometricAuthPlusPlugin.kt:447-454 | hasIrisRecognition is the handler's iris report restricted to strong-tier success |
| Modalities.IrisWithoutStrongTier | android/src/main/kotlin/mg/nexus/flutter_biometric_auth_plus/FlutterBiometricAuthPlusPlugin.kt:177-188 | a Galaxy S8 with only the weak tier working is reported with iris by the handler and without it by the helper |
| Modalities.FaceOnlyInHandler | android/src/main/kotlin/mg/nexus/flutter_biometric_auth_plus/FlutterBiometricAuthPlusPlugin.kt:139-170 | an Oppo device on Android 9 with both tiers working is reported with face by the handler and without it by the helper |
| Request.ApplyDefaults | android/src/main/kotlin/mg/nexus/flutter_biometric_auth_plus/FlutterBiometricAuthPlusPlugin.kt:260-266 | absent arguments become "Authenticate", "Cancel", false, false and "strong"; present ones are kept; subtitle and description stay optional |
| Request.SelectAuthenticators | android/src/main/kotlin/mg/nexus/flutter_biometric_auth_plus/FlutterBiometricAuthPlusPlugin.kt:269-278 | exactly one of STRONG and WEAK, STRONG iff the strength is "strong", DEVICE_CREDENTIAL iff credentials are allowed and the strength is exactly "strong" or "weak" |
| Request.SelectionIsOnto | android/src/main/kotlin/mg/nexus/flutter_biometric_auth_plus/FlutterBiometricAuthPlusPlugin.kt:269-278 | each of the four combinations with exactly one biometric tier is chosen by some request |
| Request.BuildPromptInfo | android/src/main/kotlin/mg/nexus/flutter_biometric_auth_plus/FlutterBiometricAuthPlusPlugin.kt:293-306 | title, confirmation and authenticators are always set, subtitle and description only when given, the negative button text exactly when device credentials are not allowed |
| Request.BuiltPromptRespectsCredentialRule | android/src/main/kotlin/mg/nexus/flutter_biometric_auth_plus/FlutterBiometricAuthPlusPlugin.kt:301-304 | a configuration built from any request never pairs DEVICE_CREDENTIAL with a negative button, and has one iff allowDeviceCredential was not sent as true |
| Request.UnknownStrengthLeavesNoWayOut | android/src/main/kotlin/mg/nexus/flutter_biometric_auth_plus/FlutterBiometricAuthPlusPlugin.kt:269-304 | with credentials allowed and a strength other than "strong" or "weak", the configuration allows WEAK only and has no negative button |
| Request.SucceededOutcome | android/src/main/kotlin/mg/nexus/flutter_biometric_auth_plus/FlutterBiometricAuthPlusPlugin.kt:310-322 | success is true, usedDeviceCredential iff the platform reports the credential type, and the method is "deviceCredential" or "biometric" in agreement with it |
| Request.ErrorOutcome | android/src/main/kotlin/mg/nexus/flutter_biometric_auth_plus/FlutterBiometricAuthPlusPlugin.kt:324-332 | success is false, the code is a token of the table (UNKNOWN_ERROR iff the code is unnamed), namely the code's own token from getErrorCode, and the message is the platform's |
| Request.ErrorOutcomeIdentifiesCode | android/src/main/kotlin/mg/nexus/flutter_biometric_auth_plus/FlutterBiometricAuthPlusPlugin.kt:324-332 | a named code is read back from the error outcome's code, and different named codes give different outcome codes |
| Request.UnavailableOutcome | android/src/main/kotlin/mg/nexus/flutter_biometric_auth_plus/FlutterBiometricAuthPlusPlugin.kt:281-290 | success is false, the code is BIOMETRIC_UNAVAILABLE (outside the error-token table), the message is getAuthenticationErrorMessage of the status, the generic one iff the status has no message of its own |
| Request.UnavailableOutcomeIdentifiesStatus | android/src/main/kotlin/mg/nexus/flutter_biometric_auth_plus/FlutterBiometricAuthPlusPlugin.kt:281-290 | two unavailable outcomes for different statuses that have messages of their own differ |
| Bridge.Prompt.Authenticate | android/src/main/kotlin/mg/nexus/flutter_biometric_auth_plus/FlutterBiometricAuthPlusPlugin.kt:343 | the prompt is shown with the given configuration |
| Bridge.Prompt.CancelAuthentication | android/src/main/kotlin/mg/nexus/flutter_biometric_auth_plus/FlutterBiometricAuthPlusPlugin.kt:396 | the prompt is cancelled, its configuration untouched |
| Bridge.Plugin.constructor | android/src/main/kotlin/mg/nexus/flutter_biometric_auth_plus/FlutterBiometricAuthPlusPlugin.kt:36-48 | a new plugin has no activity, no manager and no prompt |
| Bridge.Plugin.AttachToEngine | android/src/main/kotlin/mg/nexus/flutter_biometric_auth_plus/FlutterBiometricAuthPlusPlugin.kt:50-56 | the manager becomes available; nothing else changes |
| Bridge.Plugin.DetachFromEngine | android/src/main/kotlin/mg/nexus/flutter_biometric_auth_plus/FlutterBiometricAuthPlusPlugin.kt:501-505 | the manager is dropped; nothing else changes |
| Bridge.Plugin.AttachToActivity | android/src/main/kotlin/mg/nexus/flutter_biometric_auth_plus/FlutterBiometricAuthPlusPlugin.kt:507-509 | the activity becomes the host, or none when the cast fails; nothing else changes |
| Bridge.Plugin.ReattachToActivity | android/src/main/kotlin/mg/nexus/flutter_biometric_auth_plus/FlutterBiometricAuthPlusPlugin.kt:515-517 | as AttachToActivity |
| Bridge.Plugin.DetachFromActivityForConfigChanges | android/src/main/kotlin/mg/nexus/flutter_biometric_auth_plus/FlutterBiometricAuthPlusPlugin.kt:511-513 | the activity is dropped and the prompt kept |
| Bridge.Plugin.DetachFromActivity | android/src/main/kotlin/mg/nexus/flutter_biometric_auth_plus/FlutterBiometricAuthPlusPlugin.kt:519-522 | the activity and the prompt are both dropped, the plugin invariant kept |
| Bridge.Plugin.Authenticate | android/src/main/kotlin/mg/nexus/flutter_biometric_auth_plus/FlutterBiometricAuthPlusPlugin.kt:252-348 | without an activity: NO_ACTIVITY and no change; when canAuthenticate fails for the chosen authenticators: the BIOMETRIC_UNAVAILABLE outcome and the current prompt unchanged; otherwise a fresh prompt on the activity, shown with the built configuration, becomes current, and a replaced prompt is left as it was (not cancelled) |
| Bridge.Plugin.CancelAuthentication | android/src/main/kotlin/mg/nexus/flutter_biometric_auth_plus/FlutterBiometricAuthPlusPlugin.kt:394-402 | the prompt held, if any, is cancelled and returned; afterwards no prompt is held; with none held nothing else happens |

## Left out

- Method-channel dispatch and result plumbing (`onMethodCall`, `notImplemented`), the channel, context and executor fields: framework I/O.
- `getPlatformVersion` and the map assembly of `getBiometricInfo` apart from its type list: a string and a record of values modelled elsewhere.
- The platform prompt itself, its executor and the asynchronous delivery of its callbacks; `onAuthenticationFailed` sends nothing and is not a member. The outcomes the callbacks would send are `Request.SucceededOutcome` and `Request.ErrorOutcome`.
- The `catch (e: Exception)` paths, which answer a channel error "ERROR": the exceptions come from library internals (for example a wrongly typed argument, or androidx's `PromptInfo.Builder.build()` rejecting a configuration that has neither device credential nor a negative button).
- The numeric values of androidx.biometric's constants: the model uses enumerations, so it does not capture two named constants sharing a value.
- Each getBiometricInfo helper and each getAvailableBiometrics call queries canAuthenticate afresh; the model gives one call a single strong-tier status and a single weak-tier status, so it assumes the queries within one call agree (the manager's answer does not change mid-call).
- Text.Lowercase: lowers ASCII letters only; Kotlin's `lowercase()` also maps non-ASCII letters, which no heuristic needle contains but a manufacturer string could.
- Bridge.Plugin.Authenticate: the reply is the immediate one; the later callback reply is not tied to the prompt in this model.
