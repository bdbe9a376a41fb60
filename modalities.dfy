/** The guess at which biometric modalities a device has. The platform only
    reports strength tiers, so the plugin combines the strong and weak tier
    statuses with substring matches on the lower-cased manufacturer and model.
    Two versions of the guess exist side by side and disagree: the one behind
    getAvailableBiometrics, and the hasFingerprint / hasFaceRecognition /
    hasIrisRecognition helpers behind getBiometricInfo's type list. */
module Modalities {
  import opened Platform
  import opened Text

  datatype Modality = Fingerprint | Face | Iris

  /** The string each modality is reported as. */
  function Name(m: Modality): string
  {
    match m
    case Fingerprint => "fingerprint"
    case Face => "face"
    case Iris => "iris"
  }

  /** The three names are distinct, so the reported strings identify the
      modalities. */
  lemma NamesDistinct(m1: Modality, m2: Modality)
    requires Name(m1) == Name(m2)
    ensures m1 == m2
  {
  }

  /** Position of a modality in every reported list. */
  function Rank(m: Modality): nat
  {
    match m
    case Fingerprint => 0
    case Face => 1
    case Iris => 2
  }

  /** Fingerprint before face before iris, each at most once. */
  predicate Ordered(list: seq<Modality>)
  {
    forall i, j :: 0 <= i < j < |list| ==> Rank(list[i]) < Rank(list[j])
  }

  /** An ordered list names each modality at most once, hence has at most
      three entries. */
  lemma {:induction false} OrderedIsShort(list: seq<Modality>)
    requires Ordered(list)
    ensures forall i, j :: 0 <= i < j < |list| ==> list[i] != list[j]
    ensures |list| <= 3
  {
    if |list| > 3 {
      assert Rank(list[0]) < Rank(list[1]) < Rank(list[2]) < Rank(list[3]);
    }
  }

  /** The six Samsung model codes with an iris scanner (Galaxy S8, S8+, S9,
      S9+, Note 8, Note 9); both iris guesses use this list. */
  predicate IsIrisModel(model: string)
  {
    || Contains(model, "sm-g950")
    || Contains(model, "sm-g955")
    || Contains(model, "sm-g960")
    || Contains(model, "sm-g965")
    || Contains(model, "sm-n950")
    || Contains(model, "sm-n960")
  }

  /** The `hasFaceUnlock` guess of getAvailableBiometrics: a known face-unlock
      manufacturer (Pixel 4 to 8 for Google, any model from Android 9 on for
      Samsung, OnePlus, Xiaomi/Redmi, Oppo and Huawei), or weak biometrics
      working where strong ones do not. */
  predicate FaceUnlockGuess(d: Device, strong: Option<Status>, weak: Option<Status>)
  {
    var manufacturer := Lowercase(d.manufacturer);
    var model := Lowercase(d.model);
    if Contains(manufacturer, "google") &&
       (|| Contains(model, "pixel 4")
        || Contains(model, "pixel 5")
        || Contains(model, "pixel 6")
        || Contains(model, "pixel 7")
        || Contains(model, "pixel 8"))
    then true
    else if Contains(manufacturer, "samsung") && d.sdkInt >= AndroidP then true
    else if Contains(manufacturer, "oneplus") && d.sdkInt >= AndroidP then true
    else if (Contains(manufacturer, "xiaomi") || Contains(manufacturer, "redmi")) && d.sdkInt >= AndroidP then true
    else if Contains(manufacturer, "oppo") && d.sdkInt >= AndroidP then true
    else if Contains(manufacturer, "huawei") && d.sdkInt >= AndroidP then true
    else if Succeeds(weak) && !Succeeds(strong) then true
    else false
  }

  /** The `hasIris` guess of getAvailableBiometrics: a Samsung device with
      one of the iris model codes, whatever the tier statuses. */
  predicate IrisGuess(d: Device)
  {
    Contains(Lowercase(d.manufacturer), "samsung") && IsIrisModel(Lowercase(d.model))
  }

  /** Whether getAvailableBiometrics lists a modality: nothing unless some
      tier succeeds; then fingerprint with the strong tier, face and iris by
      the guesses above. */
  predicate HandlerReports(m: Modality, d: Device, strong: Option<Status>, weak: Option<Status>)
  {
    (Succeeds(strong) || Succeeds(weak)) &&
    match m
    case Fingerprint => Succeeds(strong)
    case Face => FaceUnlockGuess(d, strong, weak)
    case Iris => IrisGuess(d)
  }

  /** getAvailableBiometrics, with the two tier statuses and the Build
      fields passed in. The list is built by successive appends. */
  method AvailableBiometrics(d: Device, strong: Option<Status>, weak: Option<Status>)
    returns (list: seq<Modality>)
    ensures forall m :: m in list <==> HandlerReports(m, d, strong, weak)
    ensures Ordered(list)
    ensures !Succeeds(strong) && !Succeeds(weak) ==> list == []
    ensures Fingerprint in list <==> Succeeds(strong)
    ensures Succeeds(weak) && !Succeeds(strong) ==> Face in list
    ensures Iris in list <==> (Succeeds(strong) || Succeeds(weak)) && IrisGuess(d)
  {
    list := [];
    if Succeeds(strong) || Succeeds(weak) {
      if Succeeds(strong) {
        list := list + [Fingerprint];
      }
      var hasFaceUnlock := FaceUnlockGuess(d, strong, weak);
      if hasFaceUnlock {
        list := list + [Face];
      }
      var hasIris := IrisGuess(d);
      if hasIris {
        list := list + [Iris];
      }
    }
  }

  /** `hasFingerprint`: the strong tier succeeds. */
  predicate HasFingerprint(strong: Option<Status>)
  {
    Succeeds(strong)
  }

  /** The helper's first known face-unlock device: a Google Pixel 4. */
  predicate IsPixelFour(d: Device)
  {
    Contains(Lowercase(d.manufacturer), "google") && Contains(Lowercase(d.model), "pixel 4")
  }

  /** The helper's second known face-unlock device: a Samsung from Android 9. */
  predicate IsSamsungFromP(d: Device)
  {
    Contains(Lowercase(d.manufacturer), "samsung") && d.sdkInt >= AndroidP
  }

  /** `hasFaceRecognition`: never without the weak tier; then only a Google
      Pixel 4, a Samsung from Android 9 on, or weak-without-strong. */
  function HasFaceRecognition(d: Device, strong: Option<Status>, weak: Option<Status>): (r: bool)
    ensures !Succeeds(weak) ==> !r
    ensures Succeeds(weak) && !Succeeds(strong) ==> r
    ensures Succeeds(weak) && IsPixelFour(d) ==> r
    ensures Succeeds(weak) && IsSamsungFromP(d) ==> r
    ensures Succeeds(strong) && !IsPixelFour(d) && !IsSamsungFromP(d) ==> !r
  {
    if !Succeeds(weak) then false
    else
      if IsPixelFour(d) then true
      else if IsSamsungFromP(d) then true
      else if Succeeds(weak) && !Succeeds(strong) then true
      else false
  }

  /** `hasIrisRecognition`: the iris model list, and the strong tier must
      succeed. */
  function HasIrisRecognition(d: Device, strong: Option<Status>): (r: bool)
    ensures r ==> Succeeds(strong)
  {
    Contains(Lowercase(d.manufacturer), "samsung") && IsIrisModel(Lowercase(d.model)) &&
    Succeeds(strong)
  }

  /** Whether getBiometricInfo's type list names a modality. */
  predicate InfoReports(m: Modality, d: Device, strong: Option<Status>, weak: Option<Status>)
  {
    match m
    case Fingerprint => HasFingerprint(strong)
    case Face => HasFaceRecognition(d, strong, weak)
    case Iris => HasIrisRecognition(d, strong)
  }

  /** The `availableBiometricTypes` list of getBiometricInfo, built by
      successive appends from the three helpers. */
  method BiometricInfoTypes(d: Device, strong: Option<Status>, weak: Option<Status>)
    returns (types: seq<Modality>)
    ensures forall m :: m in types <==> InfoReports(m, d, strong, weak)
    ensures Ordered(types)
    ensures !Succeeds(strong) && !Succeeds(weak) ==> types == []
  {
    types := [];
    if HasFingerprint(strong) {
      types := types + [Fingerprint];
    }
    if HasFaceRecognition(d, strong, weak) {
      types := types + [Face];
    }
    if HasIrisRecognition(d, strong) {
      types := types + [Iris];
    }
  }

  /** The helpers are stricter than the handler: whatever getBiometricInfo
      lists, getAvailableBiometrics lists too. */
  lemma InfoReportsAreHandlerReports(m: Modality, d: Device, strong: Option<Status>, weak: Option<Status>)
    requires InfoReports(m, d, strong, weak)
    ensures HandlerReports(m, d, strong, weak)
  {
  }

  /** Both versions report fingerprint exactly when the strong tier
      succeeds. */
  lemma FingerprintGuessesAgree(d: Device, strong: Option<Status>, weak: Option<Status>)
    ensures HasFingerprint(strong) <==> HandlerReports(Fingerprint, d, strong, weak)
  {
  }

  /** With the weak tier working, the face helper is the handler's face
      guess narrowed: whatever the helper reports, the handler's guess
      holds, and where the guess holds but the helper does not, the strong
      tier succeeds and the device is neither a Pixel 4 nor a Samsung from
      Android 9; so the helper is exactly the guess restricted to
      weak-without-strong and those two devices. */
  lemma FaceHelperNarrowsHandlerGuess(d: Device, strong: Option<Status>, weak: Option<Status>)
    requires Succeeds(weak)
    ensures HasFaceRecognition(d, strong, weak) ==> FaceUnlockGuess(d, strong, weak)
    ensures FaceUnlockGuess(d, strong, weak) && !HasFaceRecognition(d, strong, weak) ==>
      Succeeds(strong) && !IsPixelFour(d) && !IsSamsungFromP(d)
    ensures HasFaceRecognition(d, strong, weak) <==>
      FaceUnlockGuess(d, strong, weak) && (!Succeeds(strong) || IsPixelFour(d) || IsSamsungFromP(d))
  {
  }

  /** The two iris guesses differ exactly in the strong-tier gate. */
  lemma IrisHelperIsHandlerGatedOnStrong(d: Device, strong: Option<Status>, weak: Option<Status>)
    ensures HasIrisRecognition(d, strong) <==> HandlerReports(Iris, d, strong, weak) && Succeeds(strong)
  {
  }

  /** A Galaxy S8 whose strong tier fails while the weak tier works: the
      handler lists iris, the helper does not. */
  lemma IrisWithoutStrongTier()
    ensures var d := Device("samsung", "sm-g950f", 26);
      HandlerReports(Iris, d, Some(NoneEnrolled), Some(Success)) &&
      !HasIrisRecognition(d, Some(NoneEnrolled))
  {
    var d := Device("samsung", "sm-g950f", 26);
    assert IsLower("samsung") && IsLower("sm-g950f");
    assert Contains("samsung", "samsung");
    assert Contains("sm-g950f", "sm-g950");
  }

  /** An Oppo phone on Android 9 with both tiers working: the handler lists
      face (known manufacturer), the helper does not (it knows only Google
      and Samsung, and strong succeeds). */
  lemma FaceOnlyInHandler()
    ensures var d := Device("oppo", "cph1", AndroidP);
      HandlerReports(Face, d, Some(Success), Some(Success)) &&
      !HasFaceRecognition(d, Some(Success), Some(Success))
  {
  }
}
