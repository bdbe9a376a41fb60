/** The platform inputs the plugin reads: the authenticator flags and result
    codes of androidx.biometric's BiometricManager, the Build.* device strings,
    and the manager itself, which the plugin holds only while attached to an
    engine. Library constants are modelled as enumerations, not as integers. */
module Platform {

  datatype Option<+T> = None | Some(value: T)

  /** The flags of BiometricManager.Authenticators that the plugin combines
      with `or`; a combination is a set of them. */
  datatype Authenticator = BiometricStrong | BiometricWeak | DeviceCredential

  /** The results BiometricManager.canAuthenticate can give. `OtherStatus`
      stands for any integer not among the named constants. */
  datatype Status =
    | Success
    | HwUnavailable
    | NoneEnrolled
    | NoHardware
    | SecurityUpdateRequired
    | Unsupported
    | StatusUnknown
    | OtherStatus(code: int)

  /** What the device's BiometricManager answers for each combination of
      authenticators. */
  type Availability = set<Authenticator> -> Status

  /** Build.MANUFACTURER, Build.MODEL and Build.VERSION.SDK_INT. */
  datatype Device = Device(manufacturer: string, model: string, sdkInt: int)

  /** Build.VERSION_CODES.P, the API level of Android 9. */
  const AndroidP: int := 28

  /** A foreground FragmentActivity the prompt can be attached to. */
  datatype Activity = Activity(id: nat)

  /** `biometricManager?.canAuthenticate(authenticators)`: null (None) when
      the plugin holds no manager, the manager's answer otherwise. */
  function Query(manager: Option<Availability>, authenticators: set<Authenticator>): (s: Option<Status>)
    ensures s.None? <==> manager.None?
  {
    match manager
    case None => None
    case Some(available) => Some(available(authenticators))
  }

  /** `status == BiometricManager.BIOMETRIC_SUCCESS` for a nullable status. */
  predicate Succeeds(status: Option<Status>)
  {
    status == Some(Success)
  }
}
