/** The pure part of the `authenticate` operation: reading the request with
    its defaults, choosing the authenticators, building the prompt
    configuration, and the outcome maps sent back over the channel. */
module Request {
  import opened Platform
  import opened Messages

  /** The arguments of an `authenticate` call; None where the caller sent no
      value (or null). */
  datatype AuthArgs = AuthArgs(
    title: Option<string>,
    subtitle: Option<string>,
    description: Option<string>,
    negativeButtonText: Option<string>,
    confirmationRequired: Option<bool>,
    allowDeviceCredential: Option<bool>,
    biometricStrength: Option<string>)

  /** The request once the defaults are applied; subtitle and description
      stay optional. */
  datatype AuthOptions = AuthOptions(
    title: string,
    subtitle: Option<string>,
    description: Option<string>,
    negativeButtonText: string,
    confirmationRequired: bool,
    allowDeviceCredential: bool,
    biometricStrength: string)

  function OrElse<T>(o: Option<T>, default: T): T
  {
    match o
    case Some(v) => v
    case None => default
  }

  /** Every absent argument takes its default: "Authenticate", "Cancel",
      false, false and "strong"; present arguments are kept as sent. */
  function ApplyDefaults(args: AuthArgs): (o: AuthOptions)
    ensures args.title.None? ==> o.title == "Authenticate"
    ensures args.negativeButtonText.None? ==> o.negativeButtonText == "Cancel"
    ensures args.confirmationRequired.None? ==> !o.confirmationRequired
    ensures args.allowDeviceCredential.None? ==> !o.allowDeviceCredential
    ensures args.biometricStrength.None? ==> o.biometricStrength == "strong"
    ensures args.title.Some? ==> o.title == args.title.value
    ensures args.negativeButtonText.Some? ==> o.negativeButtonText == args.negativeButtonText.value
    ensures args.confirmationRequired.Some? ==> o.confirmationRequired == args.confirmationRequired.value
    ensures args.allowDeviceCredential.Some? ==> o.allowDeviceCredential == args.allowDeviceCredential.value
    ensures args.biometricStrength.Some? ==> o.biometricStrength == args.biometricStrength.value
    ensures o.subtitle == args.subtitle && o.description == args.description
  {
    AuthOptions(
      OrElse(args.title, "Authenticate"),
      args.subtitle,
      args.description,
      OrElse(args.negativeButtonText, "Cancel"),
      OrElse(args.confirmationRequired, false),
      OrElse(args.allowDeviceCredential, false),
      OrElse(args.biometricStrength, "strong"))
  }

  /** A combination the selection can produce: exactly one biometric tier,
      optionally device credential. */
  predicate WellFormedAuthenticators(a: set<Authenticator>)
  {
    (BiometricStrong in a) != (BiometricWeak in a)
  }

  /** The authenticator combination for the request: STRONG for the
      strength "strong", WEAK for any other string, and DEVICE_CREDENTIAL
      added exactly when credentials are allowed and the strength is exactly
      "strong" or "weak". */
  function SelectAuthenticators(allowDeviceCredential: bool, biometricStrength: string): (a: set<Authenticator>)
    ensures WellFormedAuthenticators(a)
    ensures BiometricStrong in a <==> biometricStrength == "strong"
    ensures DeviceCredential in a <==>
      allowDeviceCredential && (biometricStrength == "strong" || biometricStrength == "weak")
  {
    if allowDeviceCredential && biometricStrength == "strong" then {BiometricStrong, DeviceCredential}
    else if allowDeviceCredential && biometricStrength == "weak" then {BiometricWeak, DeviceCredential}
    else if biometricStrength == "strong" then {BiometricStrong}
    else {BiometricWeak}
  }

  /** Every well-formed combination is chosen by some request, so the
      selection reaches all four of them. */
  lemma SelectionIsOnto(a: set<Authenticator>)
    requires WellFormedAuthenticators(a)
    ensures exists allow: bool, strength: string :: SelectAuthenticators(allow, strength) == a
  {
    var strength := if BiometricStrong in a then "strong" else "weak";
    var allow := DeviceCredential in a;
    var chosen := SelectAuthenticators(allow, strength);
    forall x: Authenticator
      ensures x in chosen <==> x in a
    {
      match x
      case BiometricStrong =>
      case BiometricWeak =>
      case DeviceCredential =>
    }
    assert chosen == a;
  }

  /** The configuration handed to BiometricPrompt.authenticate, as the
      PromptInfo builder holds it; None where no setter was called. */
  datatype PromptInfo = PromptInfo(
    title: Option<string>,
    subtitle: Option<string>,
    description: Option<string>,
    negativeButtonText: Option<string>,
    confirmationRequired: bool,
    allowedAuthenticators: set<Authenticator>)

  /** A fresh builder, before any setter (the setters called below
      overwrite its confirmation flag and authenticators). */
  const EmptyPromptInfo: PromptInfo := PromptInfo(None, None, None, None, true, {})

  /** The configuration built for the options and the chosen authenticators:
      title, confirmation and authenticators always set; subtitle and
      description only when given; the negative button exactly when device
      credentials are not allowed. */
  predicate Configures(info: PromptInfo, o: AuthOptions, authenticators: set<Authenticator>)
  {
    && info.title == Some(o.title)
    && info.confirmationRequired == o.confirmationRequired
    && info.allowedAuthenticators == authenticators
    && info.subtitle == o.subtitle
    && info.description == o.description
    && info.negativeButtonText == if o.allowDeviceCredential then None else Some(o.negativeButtonText)
  }

  /** The prompt-info builder, mutated setter by setter. */
  method BuildPromptInfo(o: AuthOptions, authenticators: set<Authenticator>) returns (info: PromptInfo)
    ensures Configures(info, o, authenticators)
    ensures info.negativeButtonText.Some? <==> !o.allowDeviceCredential
  {
    info := EmptyPromptInfo;
    info := info.(title := Some(o.title));
    info := info.(confirmationRequired := o.confirmationRequired);
    info := info.(allowedAuthenticators := authenticators);
    if o.subtitle.Some? {
      info := info.(subtitle := Some(o.subtitle.value));
    }
    if o.description.Some? {
      info := info.(description := Some(o.description.value));
    }
    if !o.allowDeviceCredential {
      info := info.(negativeButtonText := Some(o.negativeButtonText));
    }
  }

  /** The platform's constraint: a prompt that accepts device credentials
      carries no negative button. */
  predicate CredentialExcludesNegativeButton(info: PromptInfo)
  {
    DeviceCredential in info.allowedAuthenticators ==> info.negativeButtonText.None?
  }

  /** Every configuration built from a request meets the constraint. */
  lemma BuiltPromptRespectsCredentialRule(args: AuthArgs, info: PromptInfo)
    requires var o := ApplyDefaults(args);
      Configures(info, o, SelectAuthenticators(o.allowDeviceCredential, o.biometricStrength))
    ensures CredentialExcludesNegativeButton(info)
    ensures info.negativeButtonText.Some? <==> args.allowDeviceCredential != Some(true)
  {
  }

  /** With credentials allowed and a strength other than "strong" or
      "weak", the configuration offers neither device credential nor a
      negative button, only weak biometrics. */
  lemma UnknownStrengthLeavesNoWayOut(o: AuthOptions, info: PromptInfo)
    requires o.allowDeviceCredential
    requires o.biometricStrength != "strong" && o.biometricStrength != "weak"
    requires Configures(info, o, SelectAuthenticators(o.allowDeviceCredential, o.biometricStrength))
    ensures info.allowedAuthenticators == {BiometricWeak}
    ensures info.negativeButtonText.None?
  {
  }

  /** The `result` map of an authentication attempt. */
  datatype Outcome =
    | Authenticated(authenticationMethod: string, usedDeviceCredential: bool)
    | Failed(errorCode: string, errorMessage: string)
  {
    /** The map's "success" entry. */
    predicate Success()
    {
      Authenticated?
    }
  }

  /** What AuthenticationResult.authenticationType says was used. */
  datatype AuthenticationType = BiometricType | DeviceCredentialType | UnknownType

  /** The outcome of onAuthenticationSucceeded: device credential is
      reported exactly when the platform says it was used, and the method
      name agrees with the flag. */
  function SucceededOutcome(t: AuthenticationType): (out: Outcome)
    ensures out.Success()
    ensures out.usedDeviceCredential <==> t == DeviceCredentialType
    ensures out.authenticationMethod == (if out.usedDeviceCredential then "deviceCredential" else "biometric")
  {
    var usedDeviceCredential := t == DeviceCredentialType;
    Authenticated(if usedDeviceCredential then "deviceCredential" else "biometric", usedDeviceCredential)
  }

  /** The outcome of onAuthenticationError: the code's token from the fixed
      table and the platform's own message. */
  function ErrorOutcome(e: PromptError, errString: string): (out: Outcome)
    ensures !out.Success()
    ensures out.errorCode in ErrorTokens && out.errorMessage == errString
    ensures out.errorCode == UnknownErrorToken <==> e.OtherError?
    ensures out.errorCode == ErrorCodeToken(e)
  {
    Failed(ErrorCodeToken(e), errString)
  }

  /** The error outcome's code names the platform's error code: a named
      code is recovered from it, and two outcomes for different named codes
      carry different codes. */
  lemma {:induction false} ErrorOutcomeIdentifiesCode(e1: PromptError, e2: PromptError, m1: string, m2: string)
    ensures !e1.OtherError? ==> ParseErrorToken(ErrorOutcome(e1, m1).errorCode) == Some(e1)
    ensures !e1.OtherError? && !e2.OtherError? && ErrorOutcome(e1, m1).errorCode == ErrorOutcome(e2, m2).errorCode
      ==> e1 == e2
  {
    ErrorTokenRoundTrip(e1);
    if !e1.OtherError? && !e2.OtherError? && ErrorOutcome(e1, m1).errorCode == ErrorOutcome(e2, m2).errorCode {
      ErrorTokenInjective(e1, e2);
    }
  }

  const UnavailableToken: string := "BIOMETRIC_UNAVAILABLE"

  /** The outcome sent when canAuthenticate does not succeed for the chosen
      combination; its message comes from the status table. */
  function UnavailableOutcome(status: Option<Status>): (out: Outcome)
    ensures !out.Success() && out.errorCode == UnavailableToken
    ensures out.errorCode !in ErrorTokens
    ensures out.errorMessage == NotAvailableMessage <==> !HasOwnMessage(status)
    ensures out.errorMessage == AuthenticationErrorMessage(status)
  {
    Failed(UnavailableToken, AuthenticationErrorMessage(status))
  }

  /** Two unavailable outcomes for different statuses that both have a
      message of their own carry different messages. */
  lemma {:induction false} UnavailableOutcomeIdentifiesStatus(s1: Option<Status>, s2: Option<Status>)
    requires HasOwnMessage(s1) && HasOwnMessage(s2)
    requires UnavailableOutcome(s1) == UnavailableOutcome(s2)
    ensures s1 == s2
  {
    ErrorMessageInjective(s1, s2);
  }
}
