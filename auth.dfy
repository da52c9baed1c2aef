/**
 * The session (frontend/src/lib/auth.js): the in-memory `user` and
 * `loading` of `AuthProvider`, kept in step with the browser's stored
 * `token` and `user`. Each awaited request is a `Reply` parameter; the
 * revalidation started by the mount effect finishes in a separate step.
 */
module Auth {
  import opened Wrappers
  import opened Records
  import Text
  import Api

  class AuthProvider {
    var user: Option<Profile>
    var loading: bool
    const browser: Api.Browser

    /** `useState(null)`, `useState(true)`. */
    constructor (browser: Api.Browser)
      ensures this.browser == browser && user.None? && loading
    {
      this.browser := browser;
      user := None;
      loading := true;
    }

    /** Both keys are stored (`token && savedUser`). */
    predicate HasStoredSession()
      reads this, browser
    {
      Text.Truthy(browser.token) && browser.savedUser.Some?
    }

    /**
     * The mount effect, run once on the freshly constructed provider. With both keys stored it shows the cached user and
     * starts `getMe` (the result says so), leaving `loading` on; otherwise it
     * only ends loading. Storage is neither used nor cleared when just one
     * key is present.
     */
    method Initialise() returns (revalidating: bool)
      requires user.None? && loading
      modifies this`user, this`loading
      ensures revalidating <==> HasStoredSession()
      ensures revalidating ==> user == browser.savedUser && loading
      ensures !revalidating ==> user.None? && !loading
    {
      if HasStoredSession() {
        user := browser.savedUser;
        revalidating := true;
      } else {
        loading := false;
        revalidating := false;
      }
    }

    /** `logout`: both keys removed and no user; it cannot fail. */
    method Logout()
      modifies this`user, browser`token, browser`savedUser
      ensures user.None? && browser.token.None? && browser.savedUser.None?
      ensures browser.location == old(browser.location)
    {
      browser.ClearSession();
      user := None;
    }

    /**
     * The end of `getMe`: success replaces the in-memory and stored user,
     * failure logs out (after the 401 interceptor has run); loading ends in
     * both cases.
     */
    method FinishRevalidation(reply: Api.Reply<Profile>)
      modifies this`user, this`loading, browser
      ensures !loading
      ensures reply.Ok? ==> user == Some(reply.value) && browser.savedUser == Some(reply.value)
                            && browser.token == old(browser.token) && browser.location == old(browser.location)
      ensures reply.Err? ==> user.None? && browser.token.None? && browser.savedUser.None?
      ensures reply.Err? && reply.error.status == Some(Api.Unauthorized) ==> browser.location == "/login"
      ensures reply.Err? && reply.error.status != Some(Api.Unauthorized) ==> browser.location == old(browser.location)
    {
      var r := Api.Settle(browser, reply);
      if r.Ok? {
        user := Some(r.value);
        browser.savedUser := Some(r.value);
      } else {
        Logout();
      }
      loading := false;
    }

    /** Stores the token and user and sets the in-memory user: what login and register do on success. */
    method StartSession(res: TokenResponse)
      modifies this`user, browser`token, browser`savedUser
      ensures browser.token == Some(res.token) && browser.savedUser == Some(res.user) && user == Some(res.user)
      ensures browser.location == old(browser.location)
    {
      browser.token := Some(res.token);
      browser.savedUser := Some(res.user);
      user := Some(res.user);
    }

    /**
     * `login`: on success the token and user are stored and the user is
     * returned; on failure nothing is stored by login itself and the failure
     * propagates (a 401, as for wrong credentials, is still cleared by the
     * response interceptor).
     */
    method Login(reply: Api.Reply<TokenResponse>) returns (r: Api.Reply<Profile>)
      modifies this`user, browser
      ensures reply.Ok? ==> r == Ok(reply.value.user) && user == Some(reply.value.user)
                            && browser.token == Some(reply.value.token) && browser.savedUser == Some(reply.value.user)
                            && browser.location == old(browser.location)
      ensures reply.Err? ==> r == Err(reply.error) && user == old(user)
      ensures reply.Err? && reply.error.status != Some(Api.Unauthorized) ==>
                browser.token == old(browser.token) && browser.savedUser == old(browser.savedUser)
                && browser.location == old(browser.location)
      ensures reply.Err? && reply.error.status == Some(Api.Unauthorized) ==>
                browser.token.None? && browser.savedUser.None? && browser.location == "/login"
    {
      var settled := Api.Settle(browser, reply);
      if settled.Err? {
        return Err(settled.error);
      }
      StartSession(settled.value);
      r := Ok(settled.value.user);
    }

    /** `register`: the same store-both-or-nothing contract as `login`. */
    method Register(reply: Api.Reply<TokenResponse>) returns (r: Api.Reply<Profile>)
      modifies this`user, browser
      ensures reply.Ok? ==> r == Ok(reply.value.user) && user == Some(reply.value.user)
                            && browser.token == Some(reply.value.token) && browser.savedUser == Some(reply.value.user)
                            && browser.location == old(browser.location)
      ensures reply.Err? ==> r == Err(reply.error) && user == old(user)
      ensures reply.Err? && reply.error.status != Some(Api.Unauthorized) ==>
                browser.token == old(browser.token) && browser.savedUser == old(browser.savedUser)
                && browser.location == old(browser.location)
      ensures reply.Err? && reply.error.status == Some(Api.Unauthorized) ==>
                browser.token.None? && browser.savedUser.None? && browser.location == "/login"
    {
      var settled := Api.Settle(browser, reply);
      if settled.Err? {
        return Err(settled.error);
      }
      StartSession(settled.value);
      r := Ok(settled.value.user);
    }
  }
}
