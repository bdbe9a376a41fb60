/** The five boolean capability handlers of the plugin. Each asks the
    BiometricManager about one authenticator and compares the answer with a
    single status, afresh on every call. */
module Capabilities {
  import opened Platform

  datatype Capability =
    | CanCheckBiometrics
    | HasEnrolledBiometrics
    | CanAuthenticateStrong
    | CanAuthenticateWeak
    | CanAuthenticateDeviceCredential

  /** The authenticator each handler passes to canAuthenticate. */
  function QueriedAuthenticators(c: Capability): (a: set<Authenticator>)
    ensures |a| == 1
  {
    match c
    case CanCheckBiometrics => {BiometricWeak}
    case HasEnrolledBiometrics => {BiometricWeak}
    case CanAuthenticateStrong => {BiometricStrong}
    case CanAuthenticateWeak => {BiometricWeak}
    case CanAuthenticateDeviceCredential => {DeviceCredential}
  }

  /** The boolean a handler sends back for the status it was given. */
  function Answer(c: Capability, status: Option<Status>): bool
  {
    if c == CanCheckBiometrics then status != Some(NoHardware) else Succeeds(status)
  }

  /** What a handler answers on a device, with or without a manager. */
  function Ask(c: Capability, manager: Option<Availability>): (answer: bool)
    ensures c != CanCheckBiometrics ==>
      (answer <==> manager.Some? && manager.value(QueriedAuthenticators(c)) == Success)
    ensures c == CanCheckBiometrics ==>
      (!answer <==> manager.Some? && manager.value({BiometricWeak}) == NoHardware)
  {
    Answer(c, Query(manager, QueriedAuthenticators(c)))
  }

  /** Without a manager every query yields null: the hardware check still
      answers true (null is not NO_HARDWARE), every other handler false. */
  lemma NoManagerAnswers(c: Capability)
    ensures Ask(c, None) <==> c == CanCheckBiometrics
  {
  }

  /** Having enrolled biometrics and being able to use weak biometrics are
      the same question, and either implies that hardware is reported. */
  lemma EnrolledMeansWeakMeansHardware(manager: Option<Availability>)
    ensures Ask(HasEnrolledBiometrics, manager) == Ask(CanAuthenticateWeak, manager)
    ensures Ask(HasEnrolledBiometrics, manager) ==> Ask(CanCheckBiometrics, manager)
  {
  }
}
