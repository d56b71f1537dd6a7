/** The biometric hook: which plugin is loaded, whether biometrics are
    available, the `authenticate` decision, and the display name of a
    biometry type. The platform, the plugin's answers and the mock's coin
    toss are inputs. */
module UseBiometricAuth {
  import opened Common
  import opened Text

  datatype BiometryType = TouchId | FaceId | Fingerprint | FaceAuthentication | IrisAuthentication | Multiple

  datatype Platform = Web | Native

  /** `getBiometryTypeName`: five types have a name of their own; `MULTIPLE`
      and no type at all fall to the default. */
  function BiometryTypeName(t: Option<BiometryType>): (name: string)
    ensures name == "Biometric Authentication" <==> t.None? || t == Some(Multiple)
    ensures t == Some(TouchId) ==> name == "Touch ID"
    ensures t == Some(FaceId) ==> name == "Face ID"
    ensures t == Some(Fingerprint) ==> name == "Fingerprint"
    ensures t == Some(FaceAuthentication) ==> name == "Face Authentication"
    ensures t == Some(IrisAuthentication) ==> name == "Iris Authentication"
  {
    match t
    case Some(TouchId) => "Touch ID"
    case Some(FaceId) => "Face ID"
    case Some(Fingerprint) => "Fingerprint"
    case Some(FaceAuthentication) => "Face Authentication"
    case Some(IrisAuthentication) => "Iris Authentication"
    case _ => "Biometric Authentication"
  }

  /** Two different named types never share a name. */
  lemma NamesAreDistinct(a: BiometryType, b: BiometryType)
    requires a != Multiple && b != Multiple && a != b
    ensures BiometryTypeName(Some(a)) != BiometryTypeName(Some(b))
  {
  }

  /** What `authenticate` resolves to; `error` and `fallback` may be absent. */
  datatype AuthResult = AuthResult(success: bool, error: Option<string>, fallback: Option<bool>)

  /** How the native `verifyIdentity` call ended. */
  datatype Verify = Verified | Threw(message: Option<string>)

  /** `error?.message || 'Authentication failed'`: an absent or empty
      message becomes the default. */
  function ErrorMessage(message: Option<string>): (m: string)
    ensures m != ""
    ensures message.Some? && message.value != "" ==> m == message.value
  {
    if message.Some? && message.value != "" then message.value else "Authentication failed"
  }

  /** `shouldFallback`: the message mentions cancelling, failing or
      unavailability. */
  predicate ShouldFallback(message: string) {
    Contains(message, "cancelled") || Contains(message, "failed") || Contains(message, "not available")
  }

  /** A thrown error without a usable message falls back. */
  lemma MissingMessageFallsBack(message: Option<string>)
    requires message.None? || message.value == ""
    ensures ShouldFallback(ErrorMessage(message))
  {
    var m := ErrorMessage(message);
    assert m[15..21] == "failed";
    ContainsAt(m, "failed", 15);
  }

  /** `authenticate`: no plugin first, then the web mock (which succeeds
      with `mockSuccess`), then native availability, then the native
      verification. */
  function AuthenticateDecision(pluginLoaded: bool, platform: Platform, isAvailable: bool,
                        mockSuccess: bool, verify: Verify): (r: AuthResult)
    ensures !pluginLoaded ==> r == AuthResult(false, Some("Biometric service not initialized"), Some(true))
    ensures pluginLoaded && platform == Web
            ==> r.success == mockSuccess && r.fallback == Some(!mockSuccess) && (r.error.Some? <==> !mockSuccess)
    ensures pluginLoaded && platform == Native && !isAvailable
            ==> r == AuthResult(false, Some("Biometric authentication not available"), Some(true))
    ensures pluginLoaded && platform == Native && isAvailable && verify == Verified
            ==> r == AuthResult(true, None, None)
    ensures pluginLoaded && platform == Native && isAvailable && verify.Threw?
            ==> !r.success && r.error == Some(ErrorMessage(verify.message))
                && r.fallback == Some(ShouldFallback(ErrorMessage(verify.message)))
  {
    if !pluginLoaded then AuthResult(false, Some("Biometric service not initialized"), Some(true))
    else if platform == Web then
      AuthResult(mockSuccess, if mockSuccess then None else Some("Mock biometric authentication failed"), Some(!mockSuccess))
    else if !isAvailable then AuthResult(false, Some("Biometric authentication not available"), Some(true))
    else match verify
      case Verified => AuthResult(true, None, None)
      case Threw(message) =>
        var m := ErrorMessage(message);
        AuthResult(false, Some(m), Some(ShouldFallback(m)))
  }

  /** A success never asks for a fallback, and a failure always carries an
      error message. */
  lemma SuccessAndFallbackExclusive(pluginLoaded: bool, platform: Platform, isAvailable: bool,
                                    mockSuccess: bool, verify: Verify)
    ensures var r := AuthenticateDecision(pluginLoaded, platform, isAvailable, mockSuccess, verify);
            (r.success ==> r.fallback != Some(true) && r.error.None?)
            && (!r.success ==> r.error.Some? && r.error.value != "")
  {
  }

  /** The hook's state. `pluginLoaded` is the `NativeBiometric` state of
      the current render. */
  class UseBiometricAuth {
    var isAvailable: bool
    var biometryType: Option<BiometryType>
    var pluginLoaded: bool

    constructor ()
      ensures !isAvailable && biometryType == None && !pluginLoaded
    {
      isAvailable, biometryType, pluginLoaded := false, None, false;
    }

    /** `checkBiometricAvailability` as seen by a closure that reads the
        plugin state `pluginSeen`. `probe` is the native plugin's answer
        (availability and type), or `None` when it throws. */
    method CheckAvailability(pluginSeen: bool, platform: Platform, probe: Option<(bool, Option<BiometryType>)>)
      modifies this
      ensures !pluginSeen ==> isAvailable == old(isAvailable) && biometryType == old(biometryType)
      ensures pluginSeen && platform == Web ==> isAvailable && biometryType == Some(Fingerprint)
      ensures pluginSeen && platform == Native && probe.Some?
              ==> isAvailable == probe.value.0 && biometryType == probe.value.1
      ensures pluginSeen && platform == Native && probe.None?
              ==> !isAvailable && biometryType == old(biometryType)
      ensures pluginLoaded == old(pluginLoaded)
    {
      if !pluginSeen {
        return;
      }
      if platform == Web {
        isAvailable, biometryType := true, Some(Fingerprint);
        return;
      }
      match probe
      case Some(answer) =>
        isAvailable, biometryType := answer.0, answer.1;
      case None =>
        isAvailable := false;
    }

    /** `initializeBiometric`, run once on mount: a plugin (the native one
        or the web stand-in) is loaded, then the availability check runs
        through the first render's closure, which still sees no plugin and
        returns at once. Availability is therefore never detected. */
    method Initialize(platform: Platform)
      requires !pluginLoaded
      modifies this
      ensures pluginLoaded
      ensures isAvailable == old(isAvailable) && biometryType == old(biometryType)
    {
      var pluginSeen := pluginLoaded;
      pluginLoaded := true;
      CheckAvailability(pluginSeen, platform, None);
    }

    /** `authenticate` against the current state. */
    method Authenticate(platform: Platform, mockSuccess: bool, verify: Verify) returns (r: AuthResult)
      ensures r == AuthenticateDecision(pluginLoaded, platform, isAvailable, mockSuccess, verify)
      ensures pluginLoaded && platform == Native && !isAvailable ==> r.fallback == Some(true)
    {
      if !pluginLoaded {
        return AuthResult(false, Some("Biometric service not initialized"), Some(true));
      }
      if platform == Web {
        r := AuthResult(mockSuccess, if mockSuccess then None else Some("Mock biometric authentication failed"), Some(!mockSuccess));
        return;
      }
      if !isAvailable {
        return AuthResult(false, Some("Biometric authentication not available"), Some(true));
      }
      match verify
      case Verified =>
        r := AuthResult(true, None, None);
      case Threw(message) =>
        var m := if message.Some? && message.value != "" then message.value else "Authentication failed";
        r := AuthResult(false, Some(m), Some(Contains(m, "cancelled") || Contains(m, "failed") || Contains(m, "not available")));
    }
  }
}
