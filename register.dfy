/**
 * The registration page (frontend/src/pages/Register.jsx): the password
 * length check, then registration through the session provider.
 */
module RegisterPage {
  import opened Wrappers
  import opened Records
  import Api
  import Auth

  /** The shortest password the form accepts. */
  const MinPasswordLength := 6

  class RegisterView {
    var name: string
    var email: string
    var password: string
    var loading: bool
    const auth: Auth.AuthProvider

    constructor (auth: Auth.AuthProvider)
      ensures this.auth == auth && name == "" && email == "" && password == "" && !loading
    {
      this.auth := auth;
      name, email, password, loading := "", "", "", false;
    }

    /**
     * `handleSubmit`: a password shorter than six characters is refused with
     * no request; otherwise the account is created, the session starts and
     * the page goes to the dashboard, or the server's reason is shown.
     */
    method HandleSubmit(reply: Api.Reply<TokenResponse>) returns (call: Option<Api.Call>, toast: Api.Toast, goTo: Option<string>)
      modifies this`loading, auth`user, auth.browser
      ensures |password| < MinPasswordLength ==>
                call.None? && toast == Api.Error("Password must be at least 6 characters") && goTo.None?
                && loading == old(loading) && auth.user == old(auth.user)
                && auth.browser.token == old(auth.browser.token) && auth.browser.savedUser == old(auth.browser.savedUser)
                && auth.browser.location == old(auth.browser.location)
      ensures |password| >= MinPasswordLength ==> call == Some(Api.RegisterUser(name, email, password)) && !loading
      ensures |password| >= MinPasswordLength && reply.Ok? ==>
                auth.user == Some(reply.value.user) && auth.browser.token == Some(reply.value.token)
                && auth.browser.savedUser == Some(reply.value.user)
                && toast == Api.Success("Account created successfully!") && goTo == Some("/dashboard")
      ensures |password| >= MinPasswordLength && reply.Err? ==>
                auth.user == old(auth.user) && toast == Api.Error(Api.DetailOr(reply.error, "Registration failed"))
                && goTo.None?
    {
      if |password| < MinPasswordLength {
        return None, Api.Error("Password must be at least 6 characters"), None;
      }
      loading := true;
      call := Some(Api.RegisterUser(name, email, password));
      var r := auth.Register(reply);
      if r.Ok? {
        toast, goTo := Api.Success("Account created successfully!"), Some("/dashboard");
      } else {
        toast, goTo := Api.Error(Api.DetailOr(r.error, "Registration failed")), None;
      }
      loading := false;
    }
  }
}
