/** The patient login/signup form: field setters, a mode toggle that clears
    the form, the submit handler's early-return validation, and the
    fingerprint shortcut. */
module PatientAuth {

  /** A toast; `destructive` is the error variant. */
  datatype Toast = Toast(title: string, description: string, destructive: bool)

  /** What a submit produces: the toast shown, and whether `onLogin` is
      called. */
  datatype SubmitOutcome = SubmitOutcome(toast: Toast, loggedIn: bool)

  /** `handleSubmit`: missing email or password first, then (in signup mode
      only) a password mismatch; otherwise a success toast and a login. */
  function Submit(isLogin: bool, email: string, password: string, confirmPassword: string): (o: SubmitOutcome)
    ensures o.loggedIn <==> email != "" && password != "" && (isLogin || password == confirmPassword)
    ensures o.toast.destructive <==> !o.loggedIn
    ensures (email == "" || password == "") ==> o.toast.title == "Missing Information"
    ensures email != "" && password != "" && !isLogin && password != confirmPassword
            ==> o.toast.title == "Password Mismatch"
    ensures o.loggedIn ==> o.toast.title == (if isLogin then "Login Successful" else "Account Created")
  {
    if email == "" || password == "" then
      SubmitOutcome(Toast("Missing Information", "Please fill in all required fields", true), false)
    else if !isLogin && password != confirmPassword then
      SubmitOutcome(Toast("Password Mismatch", "Passwords do not match", true), false)
    else if isLogin then
      SubmitOutcome(Toast("Login Successful", "Welcome back!", false), true)
    else
      SubmitOutcome(Toast("Account Created", "Your account has been created successfully", false), true)
  }

  /** In login mode the confirmation field plays no part. */
  lemma LoginIgnoresConfirmation(email: string, password: string, c1: string, c2: string)
    ensures Submit(true, email, password, c1) == Submit(true, email, password, c2)
  {
  }

  /** The missing-field check comes first: with an empty email or password
      a mismatch is never reported, whatever the mode. */
  lemma MissingFieldsReportedFirst(isLogin: bool, email: string, password: string, confirmPassword: string)
    requires email == "" || password == ""
    ensures Submit(isLogin, email, password, confirmPassword).toast.title == "Missing Information"
    ensures !Submit(isLogin, email, password, confirmPassword).loggedIn
  {
  }

  /** The form. */
  class PatientAuth {
    var isLogin: bool
    var name: string
    var phone: string
    var email: string
    var password: string
    var confirmPassword: string
    var showPassword: bool
    var showFingerprintModal: bool

    /** Every field empty, the password hidden and the modal closed: the
        state the mode effect leaves. */
    predicate Cleared()
      reads this
    {
      name == "" && phone == "" && email == "" && password == "" && confirmPassword == ""
      && !showPassword && !showFingerprintModal
    }

    constructor ()
      ensures isLogin && Cleared()
    {
      isLogin := true;
      name, phone, email, password, confirmPassword := "", "", "", "", "";
      showPassword, showFingerprintModal := false, false;
    }

    method SetName(s: string)
      modifies this
      ensures name == s && phone == old(phone) && email == old(email) && password == old(password)
      ensures confirmPassword == old(confirmPassword) && isLogin == old(isLogin)
      ensures showPassword == old(showPassword) && showFingerprintModal == old(showFingerprintModal)
    {
      name := s;
    }

    method SetPhone(s: string)
      modifies this
      ensures phone == s && name == old(name) && email == old(email) && password == old(password)
      ensures confirmPassword == old(confirmPassword) && isLogin == old(isLogin)
      ensures showPassword == old(showPassword) && showFingerprintModal == old(showFingerprintModal)
    {
      phone := s;
    }

    method SetEmail(s: string)
      modifies this
      ensures email == s && name == old(name) && phone == old(phone) && password == old(password)
      ensures confirmPassword == old(confirmPassword) && isLogin == old(isLogin)
      ensures showPassword == old(showPassword) && showFingerprintModal == old(showFingerprintModal)
    {
      email := s;
    }

    method SetPassword(s: string)
      modifies this
      ensures password == s && name == old(name) && phone == old(phone) && email == old(email)
      ensures confirmPassword == old(confirmPassword) && isLogin == old(isLogin)
      ensures showPassword == old(showPassword) && showFingerprintModal == old(showFingerprintModal)
    {
      password := s;
    }

    method SetConfirmPassword(s: string)
      modifies this
      ensures confirmPassword == s && name == old(name) && phone == old(phone) && email == old(email)
      ensures password == old(password) && isLogin == old(isLogin)
      ensures showPassword == old(showPassword) && showFingerprintModal == old(showFingerprintModal)
    {
      confirmPassword := s;
    }

    /** The eye button: flips only the password visibility. */
    method ToggleShowPassword()
      modifies this
      ensures showPassword == !old(showPassword)
      ensures name == old(name) && phone == old(phone) && email == old(email)
      ensures password == old(password) && confirmPassword == old(confirmPassword)
      ensures isLogin == old(isLogin) && showFingerprintModal == old(showFingerprintModal)
    {
      showPassword := !showPassword;
    }

    /** The "Sign up" / "Login" link, followed by the effect that runs on
        every change of mode: the mode flips and the whole form is cleared. */
    method ToggleMode()
      modifies this
      ensures isLogin == !old(isLogin)
      ensures Cleared()
    {
      isLogin := !isLogin;
      name, phone, email, password, confirmPassword := "", "", "", "", "";
      showPassword, showFingerprintModal := false, false;
    }

    /** The submit button: validation only reads the form. */
    method HandleSubmit() returns (o: SubmitOutcome)
      ensures o == Submit(isLogin, email, password, confirmPassword)
      ensures o.loggedIn ==> email != "" && password != ""
    {
      if email == "" || password == "" {
        return SubmitOutcome(Toast("Missing Information", "Please fill in all required fields", true), false);
      }
      if !isLogin && password != confirmPassword {
        return SubmitOutcome(Toast("Password Mismatch", "Passwords do not match", true), false);
      }
      if isLogin {
        o := SubmitOutcome(Toast("Login Successful", "Welcome back!", false), true);
      } else {
        o := SubmitOutcome(Toast("Account Created", "Your account has been created successfully", false), true);
      }
    }

    /** The fingerprint button is drawn in login mode only. */
    predicate FingerprintOffered()
      reads this
    {
      isLogin
    }

    method HandleFingerprintClick()
      modifies this
      ensures showFingerprintModal
      ensures isLogin == old(isLogin) && email == old(email) && password == old(password)
      ensures name == old(name) && phone == old(phone) && confirmPassword == old(confirmPassword)
      ensures showPassword == old(showPassword)
    {
      showFingerprintModal := true;
    }

    /** Tapping the fingerprint image: the modal closes and `onLogin` is
        called with no check of any field. */
    method HandleFingerprintImageClick() returns (loggedIn: bool)
      modifies this
      ensures loggedIn && !showFingerprintModal
      ensures isLogin == old(isLogin) && email == old(email) && password == old(password)
      ensures name == old(name) && phone == old(phone) && confirmPassword == old(confirmPassword)
      ensures showPassword == old(showPassword)
    {
      showFingerprintModal := false;
      loggedIn := true;
    }
  }
}
