/** The staff sign-in page of src/pages/Auth.tsx: the checks on the login and
    sign-up forms, the sign-up button's enable rule, and the handlers that
    update the page's `error`, `loading` and login form. What `signIn` or
    `signUp` throws is a parameter (None when the call returns normally). */
module AuthPage {
  import opened Common

  const BothRequired := "Please enter both email and password."
  const AllRequired := "Please fill in all required fields."
  const PasswordsDiffer := "Passwords do not match."
  const DemoLoginFailed := "Login failed. Please try again."
  const LoginFailed := "Login failed. Please check your credentials."
  const SignupFailed := "Signup failed. Please try again."

  datatype LoginData = LoginData(email: string, password: string)

  datatype SignupData = SignupData(email: string, password: string, confirmPassword: string, fullName: string)

  /** The login form's check: both fields must be non-empty. */
  function LoginCheck(d: LoginData): (r: Option<string>)
    ensures r.None? <==> d.email != "" && d.password != ""
    ensures r.Some? ==> r.value == BothRequired
  {
    if d.email == "" || d.password == "" then Some(BothRequired) else None
  }

  /** The sign-up form's check: the required fields come first, then the
      password confirmation. */
  function SignupCheck(d: SignupData): (r: Option<string>)
    ensures r == Some(AllRequired) <==> d.email == "" || d.password == "" || d.fullName == ""
    ensures r == Some(PasswordsDiffer) <==>
      d.email != "" && d.password != "" && d.fullName != "" && d.password != d.confirmPassword
    ensures r.None? <==>
      d.email != "" && d.password != "" && d.fullName != "" && d.password == d.confirmPassword
  {
    if d.email == "" || d.password == "" || d.fullName == "" then Some(AllRequired)
    else if d.password != d.confirmPassword then Some(PasswordsDiffer)
    else None
  }

  /** The sign-up submit button is disabled while loading or while the two
      passwords differ. So a click on the enabled button never meets the
      mismatch message, and a form the check accepts leaves the button enabled
      when not loading. */
  function SignupDisabled(loading: bool, d: SignupData): (disabled: bool)
    ensures loading || d.password != d.confirmPassword ==> disabled
    ensures !disabled ==> !loading && SignupCheck(d) != Some(PasswordsDiffer)
    ensures !loading && SignupCheck(d).None? ==> !disabled
  {
    loading || d.password != d.confirmPassword
  }

  /** The message shown for a thrown error: its own, or the fallback when it
      has none. */
  function ErrorText(thrown: string, fallback: string): (r: string)
    ensures thrown != "" ==> r == thrown
    ensures thrown == "" ==> r == fallback
  {
    if thrown == "" then fallback else thrown
  }

  /** The page's state. */
  class AuthForm {
    var loginData: LoginData
    var signupData: SignupData
    var loading: bool
    var error: Option<string>

    constructor ()
      ensures loginData == LoginData("", "") && signupData == SignupData("", "", "", "")
      ensures !loading && error == None
    {
      loginData := LoginData("", "");
      signupData := SignupData("", "", "", "");
      loading := false;
      error := None;
    }

    /** `handleLogin`: a rejected form only sets the message and signs no one
        in; otherwise the error is cleared, `signIn` runs, its error (if any)
        is shown, and `loading` ends false. `navigated` is the move to the
        dashboard after a successful sign-in. */
    method HandleLogin(thrown: Option<string>) returns (called: bool, navigated: bool)
      modifies this
      ensures loginData == old(loginData) && signupData == old(signupData)
      ensures LoginCheck(old(loginData)).Some? ==>
        !called && !navigated && error == LoginCheck(old(loginData)) && loading == old(loading)
      ensures LoginCheck(old(loginData)).None? ==> called && !loading
      ensures LoginCheck(old(loginData)).None? && thrown.None? ==> navigated && error == None
      ensures LoginCheck(old(loginData)).None? && thrown.Some? ==>
        !navigated && error == Some(ErrorText(thrown.value, LoginFailed))
    {
      var rejected := LoginCheck(loginData);
      if rejected.Some? {
        error := rejected;
        return false, false;
      }
      error := None;
      loading := true;
      called := true;
      if thrown.Some? {
        error := Some(ErrorText(thrown.value, LoginFailed));
        navigated := false;
      } else {
        navigated := true;
      }
      loading := false;
    }

    /** `handleSignup`: a rejected form only sets the check's message;
        otherwise the error is cleared, `signUp` runs with the email,
        password and full name, its error (if any) is shown, and `loading`
        ends false. */
    method HandleSignup(thrown: Option<string>) returns (called: bool)
      modifies this
      ensures loginData == old(loginData) && signupData == old(signupData)
      ensures SignupCheck(old(signupData)).Some? ==>
        !called && error == SignupCheck(old(signupData)) && loading == old(loading)
      ensures SignupCheck(old(signupData)).None? ==> called && !loading
      ensures SignupCheck(old(signupData)).None? && thrown.None? ==> error == None
      ensures SignupCheck(old(signupData)).None? && thrown.Some? ==>
        error == Some(ErrorText(thrown.value, SignupFailed))
    {
      var rejected := SignupCheck(signupData);
      if rejected.Some? {
        error := rejected;
        return false;
      }
      error := None;
      loading := true;
      called := true;
      if thrown.Some? {
        error := Some(ErrorText(thrown.value, SignupFailed));
      }
      loading := false;
    }

    /** `handleDemoLogin`: the login form is overwritten with the demo pair and
        `signIn` runs without the form check. */
    method HandleDemoLogin(email: string, password: string, thrown: Option<string>) returns (navigated: bool)
      modifies this
      ensures loginData == LoginData(email, password) && signupData == old(signupData)
      ensures !loading
      ensures navigated <==> thrown.None?
      ensures thrown.None? ==> error == None
      ensures thrown.Some? ==> error == Some(ErrorText(thrown.value, DemoLoginFailed))
    {
      error := None;
      loading := true;
      loginData := LoginData(email, password);
      if thrown.Some? {
        error := Some(ErrorText(thrown.value, DemoLoginFailed));
      }
      navigated := thrown.None?;
      loading := false;
    }
  }
}
