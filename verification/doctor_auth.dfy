/** The doctor login/signup form: field setters, a certificate upload that
    replaces the chosen files, a mode toggle that keeps the fields, and a
    submit handler that always logs in. */
module DoctorAuth {
  import opened Common
  import opened Decimal

  datatype Toast = Toast(title: string, description: string)

  /** A certificate chosen in the file dialog. */
  datatype File = File(name: string)

  /** What a submit produces: the toast shown and whether `onLogin` is called. */
  datatype SubmitOutcome = SubmitOutcome(toast: Toast, loggedIn: bool)

  /** `handleSubmit`: no field is checked; signup shows the review notice,
      login the welcome, and both log in. */
  function Submit(isLogin: bool): (o: SubmitOutcome)
    ensures o.loggedIn
    ensures o.toast.title == (if isLogin then "Login Successful" else "Account Under Review")
  {
    if !isLogin then
      SubmitOutcome(Toast("Account Under Review", "Your doctor account will be verified within 24-48 hours"), true)
    else
      SubmitOutcome(Toast("Login Successful", "Welcome back, Doctor"), true)
  }

  /** Only the toast depends on the mode. */
  lemma OnlyToastDependsOnMode()
    ensures Submit(true).loggedIn == Submit(false).loggedIn
    ensures Submit(true).toast != Submit(false).toast
  {
  }

  const SelectedSuffix := " file(s) selected"

  /** The upload button's caption: with files chosen, their count in
      decimal followed by " file(s) selected", and the count reads back
      from the caption's leading digits. */
  function UploadCaption(count: nat): (c: string)
    ensures count == 0 <==> c == "Upload Documents"
    ensures count > 0 ==> c == NatToString(count) + SelectedSuffix
    ensures count > 0 ==> |c| > |SelectedSuffix| && c[|c| - |SelectedSuffix|..] == SelectedSuffix
    ensures count > 0 ==> AllDigits(c[..|c| - |SelectedSuffix|])
                          && ParseNat(c[..|c| - |SelectedSuffix|]) == count
  {
    if count > 0 then
      ParseNatToString(count);
      var c := NatToString(count) + SelectedSuffix;
      assert c[..|c| - |SelectedSuffix|] == NatToString(count);
      c
    else "Upload Documents"
  }

  /** The form. */
  class DoctorAuth {
    var isLogin: bool
    var email: string
    var password: string
    var name: string
    var license: string
    var certificates: seq<File>

    constructor ()
      ensures isLogin && email == "" && password == "" && name == "" && license == "" && certificates == []
    {
      isLogin := true;
      email, password, name, license := "", "", "", "";
      certificates := [];
    }

    method SetEmail(s: string)
      modifies this
      ensures email == s && password == old(password) && name == old(name) && license == old(license)
      ensures certificates == old(certificates) && isLogin == old(isLogin)
    {
      email := s;
    }

    method SetPassword(s: string)
      modifies this
      ensures password == s && email == old(email) && name == old(name) && license == old(license)
      ensures certificates == old(certificates) && isLogin == old(isLogin)
    {
      password := s;
    }

    method SetName(s: string)
      modifies this
      ensures name == s && email == old(email) && password == old(password) && license == old(license)
      ensures certificates == old(certificates) && isLogin == old(isLogin)
    {
      name := s;
    }

    method SetLicense(s: string)
      modifies this
      ensures license == s && email == old(email) && password == old(password) && name == old(name)
      ensures certificates == old(certificates) && isLogin == old(isLogin)
    {
      license := s;
    }

    /** `handleFileUpload`: a file list (even an empty one) replaces the
        certificates; no list leaves them as they were. */
    method HandleFileUpload(files: Option<seq<File>>)
      modifies this
      ensures files.Some? ==> certificates == files.value
      ensures files.None? ==> certificates == old(certificates)
      ensures email == old(email) && password == old(password) && name == old(name)
      ensures license == old(license) && isLogin == old(isLogin)
    {
      if files.Some? {
        certificates := files.value;
      }
    }

    /** The mode link: flips the mode and keeps everything entered. */
    method ToggleMode()
      modifies this
      ensures isLogin == !old(isLogin)
      ensures email == old(email) && password == old(password) && name == old(name)
      ensures license == old(license) && certificates == old(certificates)
    {
      isLogin := !isLogin;
    }

    /** The submit button. */
    method HandleSubmit() returns (o: SubmitOutcome)
      ensures o == Submit(isLogin)
      ensures o.loggedIn
    {
      if !isLogin {
        o := SubmitOutcome(Toast("Account Under Review", "Your doctor account will be verified within 24-48 hours"), true);
      } else {
        o := SubmitOutcome(Toast("Login Successful", "Welcome back, Doctor"), true);
      }
    }
  }
}
