/** The two fixed tables that turn platform codes into the strings sent back
    over the channel: `getErrorCode` for the error codes BiometricPrompt
    reports to the authentication callback, and `getAuthenticationErrorMessage`
    for the statuses BiometricManager.canAuthenticate reports. */
module Messages {
  import opened Platform

  /** The error codes of BiometricPrompt that the table names; `OtherError`
      stands for every other integer. */
  datatype PromptError =
    | ErrorCanceled
    | ErrorHwNotPresent
    | ErrorHwUnavailable
    | ErrorLockout
    | ErrorLockoutPermanent
    | ErrorNegativeButton
    | ErrorNoBiometrics
    | ErrorNoDeviceCredential
    | ErrorNoSpace
    | ErrorTimeout
    | ErrorUnableToProcess
    | ErrorUserCanceled
    | ErrorVendor
    | OtherError(code: int)

  const UnknownErrorToken: string := "UNKNOWN_ERROR"

  /** The closed vocabulary of error tokens, the catch-all included. */
  const ErrorTokens: set<string> := {
    "CANCELED", "HW_NOT_PRESENT", "HW_UNAVAILABLE", "LOCKOUT",
    "LOCKOUT_PERMANENT", "NEGATIVE_BUTTON", "NO_BIOMETRICS",
    "NO_DEVICE_CREDENTIAL", "NO_SPACE", "TIMEOUT", "UNABLE_TO_PROCESS",
    "USER_CANCELED", "VENDOR_ERROR", UnknownErrorToken
  }

  /** `getErrorCode`: every code maps into the closed vocabulary, and the
      catch-all token is given exactly to the codes the table does not name. */
  function ErrorCodeToken(e: PromptError): (token: string)
    ensures token in ErrorTokens
    ensures token == UnknownErrorToken <==> e.OtherError?
  {
    match e
    case ErrorCanceled => "CANCELED"
    case ErrorHwNotPresent => "HW_NOT_PRESENT"
    case ErrorHwUnavailable => "HW_UNAVAILABLE"
    case ErrorLockout => "LOCKOUT"
    case ErrorLockoutPermanent => "LOCKOUT_PERMANENT"
    case ErrorNegativeButton => "NEGATIVE_BUTTON"
    case ErrorNoBiometrics => "NO_BIOMETRICS"
    case ErrorNoDeviceCredential => "NO_DEVICE_CREDENTIAL"
    case ErrorNoSpace => "NO_SPACE"
    case ErrorTimeout => "TIMEOUT"
    case ErrorUnableToProcess => "UNABLE_TO_PROCESS"
    case ErrorUserCanceled => "USER_CANCELED"
    case ErrorVendor => "VENDOR_ERROR"
    case OtherError(_) => UnknownErrorToken
  }

  /** The table read backwards: the named code a token stands for, if any. */
  function ParseErrorToken(token: string): (e: Option<PromptError>)
    ensures e.Some? ==> !e.value.OtherError?
  {
    if token == "CANCELED" then Some(ErrorCanceled)
    else if token == "HW_NOT_PRESENT" then Some(ErrorHwNotPresent)
    else if token == "HW_UNAVAILABLE" then Some(ErrorHwUnavailable)
    else if token == "LOCKOUT" then Some(ErrorLockout)
    else if token == "LOCKOUT_PERMANENT" then Some(ErrorLockoutPermanent)
    else if token == "NEGATIVE_BUTTON" then Some(ErrorNegativeButton)
    else if token == "NO_BIOMETRICS" then Some(ErrorNoBiometrics)
    else if token == "NO_DEVICE_CREDENTIAL" then Some(ErrorNoDeviceCredential)
    else if token == "NO_SPACE" then Some(ErrorNoSpace)
    else if token == "TIMEOUT" then Some(ErrorTimeout)
    else if token == "UNABLE_TO_PROCESS" then Some(ErrorUnableToProcess)
    else if token == "USER_CANCELED" then Some(ErrorUserCanceled)
    else if token == "VENDOR_ERROR" then Some(ErrorVendor)
    else None
  }

  /** Each named code round-trips through its token; the catch-all token
      names no code. */
  lemma ErrorTokenRoundTrip(e: PromptError)
    ensures ParseErrorToken(ErrorCodeToken(e)) == if e.OtherError? then None else Some(e)
  {
  }

  /** No two named codes share a token, so the caller can tell them apart. */
  lemma ErrorTokenInjective(e1: PromptError, e2: PromptError)
    requires !e1.OtherError? && !e2.OtherError?
    requires ErrorCodeToken(e1) == ErrorCodeToken(e2)
    ensures e1 == e2
  {
  }

  const NotAvailableMessage: string := "Biometric authentication is not available"

  /** The canAuthenticate statuses that have a message of their own. */
  predicate HasOwnMessage(status: Option<Status>)
  {
    status.Some? && status.value in
      {HwUnavailable, NoneEnrolled, NoHardware,
       SecurityUpdateRequired, Unsupported, StatusUnknown}
  }

  /** `getAuthenticationErrorMessage`: the generic message is given exactly
      to the statuses without a message of their own, which include a
      missing (null) status and SUCCESS. */
  function AuthenticationErrorMessage(status: Option<Status>): (msg: string)
    ensures msg == NotAvailableMessage <==> !HasOwnMessage(status)
  {
    match status
    case Some(HwUnavailable) => "Biometric hardware is currently unavailable"
    case Some(NoneEnrolled) =>
      "No biometrics enrolled. Please set up biometric authentication in device settings"
    case Some(NoHardware) => "No biometric hardware available on this device"
    case Some(SecurityUpdateRequired) => "A security update is required for biometric authentication"
    case Some(Unsupported) => "Biometric authentication is not supported on this device"
    case Some(StatusUnknown) => "Biometric authentication status is unknown"
    case _ => NotAvailableMessage
  }

  /** A proof aid for ErrorMessageInjective, not part of the table: the
      length of each status's own message, no two equal (StatusUnknown's is
      42; the catch-all case is only applied to StatusUnknown, since
      MessageLength requires a status with its own message). */
  function OwnMessageLength(status: Status): nat
  {
    match status
    case HwUnavailable => 43
    case NoneEnrolled => 81
    case NoHardware => 46
    case SecurityUpdateRequired => 58
    case Unsupported => 56
    case _ => 42
  }

  lemma MessageLength(status: Option<Status>)
    requires HasOwnMessage(status)
    ensures |AuthenticationErrorMessage(status)| == OwnMessageLength(status.value)
  {
  }

  /** Distinct statuses with a message of their own get distinct messages. */
  lemma {:induction false} ErrorMessageInjective(s1: Option<Status>, s2: Option<Status>)
    requires HasOwnMessage(s1) && HasOwnMessage(s2)
    requires AuthenticationErrorMessage(s1) == AuthenticationErrorMessage(s2)
    ensures s1 == s2
  {
    MessageLength(s1);
    MessageLength(s2);
  }
}
