/** The patient biometric login screen: name and phone fields, and a
    fingerprint button whose handler validates the fields, checks
    availability and awaits the hook's `authenticate`. */
module BiometricAuth {
  import opened Common
  import opened UseBiometricAuth

  datatype Toast = Toast(title: string, description: string, destructive: bool)

  /** The parent callback a handler ends with, if any. */
  datatype Callback = NoCallback | OnSuccess | OnFallback

  datatype Outcome = Outcome(toast: Toast, callback: Callback)

  /** How the awaited `authenticate` ended: a result, or a thrown error. */
  datatype Attempt = Resolved(result: AuthResult) | Rejected

  /** The checks before the attempt: missing name or phone stops with an
      error and no callback; unavailable biometrics fall back at once.
      `None` means the attempt goes ahead. */
  function Precheck(name: string, phone: string, isAvailable: bool): (o: Option<Outcome>)
    ensures o.None? <==> name != "" && phone != "" && isAvailable
    ensures o.Some? ==> o.value.toast.destructive
    ensures o.Some? ==> (o.value.callback == NoCallback <==> name == "" || phone == "")
    ensures o.Some? && o.value.callback != NoCallback ==> o.value.callback == OnFallback
  {
    if name == "" || phone == "" then
      Some(Outcome(Toast("Missing Information", "Please enter both name and phone number", true), NoCallback))
    else if !isAvailable then
      Some(Outcome(Toast("Biometric Not Available", "Falling back to manual login", true), OnFallback))
    else None
  }

  /** The end of an attempt: success greets the user by name and calls
      `onSuccess`; a failure result (with its error, or a default text) or a
      thrown error calls `onFallback`. */
  function Settle(name: string, attempt: Attempt): (o: Outcome)
    ensures o.callback == OnSuccess <==> attempt.Resolved? && attempt.result.success
    ensures o.callback != NoCallback
    ensures o.callback == OnSuccess ==> o.toast.description == "Welcome " + name + "!"
    ensures o.toast.destructive <==> o.callback == OnFallback
  {
    match attempt
    case Resolved(r) =>
      if r.success then Outcome(Toast("Authentication Successful", "Welcome " + name + "!", false), OnSuccess)
      else
        var text := if r.error.Some? && r.error.value != "" then r.error.value
                    else "Please try again or use manual login";
        Outcome(Toast("Authentication Failed", text, true), OnFallback)
    case Rejected =>
      Outcome(Toast("Authentication Error", "Something went wrong", true), OnFallback)
  }

  /** The whole handler for one press: with a field empty the parent is
      never called back; once both are filled, a press ends in exactly one
      of `onSuccess` and `onFallback`, and `onSuccess` needs availability
      and a successful result. */
  function HandleBiometric(name: string, phone: string, isAvailable: bool, attempt: Attempt): (o: Outcome)
    ensures o.callback == NoCallback <==> name == "" || phone == ""
    ensures o.callback == OnSuccess
            <==> name != "" && phone != "" && isAvailable && attempt.Resolved? && attempt.result.success
  {
    match Precheck(name, phone, isAvailable)
    case Some(o) => o
    case None => Settle(name, attempt)
  }

  /** With the hook as written (availability never detected), a press with
      the fields filled always falls back without authenticating. */
  lemma UndetectedAvailabilityAlwaysFallsBack(name: string, phone: string, attempt: Attempt)
    requires name != "" && phone != ""
    ensures HandleBiometric(name, phone, false, attempt)
            == Outcome(Toast("Biometric Not Available", "Falling back to manual login", true), OnFallback)
  {
  }

  /** The screen. `attemptName` is the name the running attempt's handler
      captured when the button was pressed. */
  class BiometricAuth {
    var name: string
    var phone: string
    var isAuthenticating: bool
    var attemptName: string

    constructor ()
      ensures name == "" && phone == "" && !isAuthenticating && ButtonsEnabled()
    {
      name, phone, isAuthenticating, attemptName := "", "", false, "";
    }

    /** The fingerprint, manual-login and cancel buttons are all disabled
        while an attempt runs. */
    predicate ButtonsEnabled()
      reads this
    {
      !isAuthenticating
    }

    method SetName(s: string)
      modifies this
      ensures name == s && phone == old(phone) && isAuthenticating == old(isAuthenticating)
      ensures attemptName == old(attemptName)
    {
      name := s;
    }

    method SetPhone(s: string)
      modifies this
      ensures phone == s && name == old(name) && isAuthenticating == old(isAuthenticating)
      ensures attemptName == old(attemptName)
    {
      phone := s;
    }

    /** A press of the fingerprint button, up to the `await`: either an
        outcome at once, or an attempt started with the flag raised. */
    method Press(isAvailable: bool) returns (early: Option<Outcome>)
      requires ButtonsEnabled()
      modifies this
      ensures early == Precheck(name, phone, isAvailable)
      ensures early.Some? ==> !isAuthenticating && attemptName == old(attemptName)
      ensures early.None? ==> isAuthenticating && attemptName == name
      ensures name == old(name) && phone == old(phone)
    {
      if name == "" || phone == "" {
        return Some(Outcome(Toast("Missing Information", "Please enter both name and phone number", true), NoCallback));
      }
      if !isAvailable {
        return Some(Outcome(Toast("Biometric Not Available", "Falling back to manual login", true), OnFallback));
      }
      isAuthenticating := true;
      attemptName := name;
      early := None;
    }

    /** The awaited `authenticate` ending; the `finally` lowers the flag on
        every path. */
    method Finish(attempt: Attempt) returns (o: Outcome)
      requires isAuthenticating
      modifies this
      ensures o == Settle(old(attemptName), attempt)
      ensures !isAuthenticating && ButtonsEnabled()
      ensures name == old(name) && phone == old(phone)
    {
      o := Settle(attemptName, attempt);
      isAuthenticating := false;
    }
  }
}
