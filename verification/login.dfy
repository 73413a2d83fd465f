/**
 * The login page (src/app/login/page.tsx): it only asks that both fields be
 * filled in, then sends the merchant to the dashboard.
 */
module Login {
  import opened Wrappers
  import Signup

  /** The login form's fields. */
  datatype LoginForm = LoginForm(email: string, password: string, rememberMe: bool)

  /** The reasons a login is refused, in the order they are checked. */
  datatype LoginError = MissingEmail | MissingPassword

  /** The checks of `handleSubmit`: an empty e-mail first, then an empty password. */
  function ValidateLogin(f: LoginForm): (r: Option<LoginError>)
    ensures r == Some(MissingEmail) <==> f.email == []
    ensures r == Some(MissingPassword) <==> f.email != [] && f.password == []
    ensures r == None <==> f.email != [] && f.password != []
  {
    if f.email == [] then Some(MissingEmail)
    else if f.password == [] then Some(MissingPassword)
    else None
  }

  /** Where a successful login goes. */
  const HOME_PATH := "/"

  /** What a submission ends in. */
  datatype LoginOutcome = Rejected(error: LoginError) | Redirected(path: string)

  /** The login page does not check the address's shape: an address the sign-up
      page refuses still logs in. */
  lemma LoginAcceptsMalformedEmail()
    ensures ValidateLogin(LoginForm("x", "secret", false)) == None
    ensures !Signup.EmailPattern("x")
  {
  }

  class LoginPage {
    var formData: LoginForm
    var isLoading: bool

    constructor ()
      ensures formData == LoginForm("", "", false) && !isLoading
    {
      formData := LoginForm("", "", false);
      isLoading := false;
    }

    /** `handleSubmit`: loading starts, a missing field stops it again with the
        first error, otherwise the page is sent home and loading ends. */
    method HandleSubmit() returns (outcome: LoginOutcome)
      modifies this
      ensures formData == old(formData) && !isLoading
      ensures outcome.Rejected? <==> ValidateLogin(formData).Some?
      ensures outcome.Rejected? ==> outcome.error == ValidateLogin(formData).value
      ensures outcome.Redirected? ==> outcome.path == HOME_PATH
    {
      isLoading := true;
      if formData.email == [] {
        isLoading := false;
        return Rejected(MissingEmail);
      }
      if formData.password == [] {
        isLoading := false;
        return Rejected(MissingPassword);
      }
      outcome := Redirected(HOME_PATH);
      isLoading := false;
    }
  }
}
