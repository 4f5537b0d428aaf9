/**
 * The sign-in form of frontend/src/pages/Login.tsx: the submit button's
 * enabling condition, the invalid-address hint, and `handleSubmit`, which
 * stores the session or picks the error message.
 */
module Login {
  import opened Wrappers
  import opened EmailRule
  import opened BrowserState

  const BadCredentials: string := "Nieprawidłowy e-mail lub hasło."
  const LoginFailed: string := "Błąd logowania."

  /** `formValid`: a valid address, a non-empty password, not loading. */
  function FormValid(email: string, password: string, loading: bool): (r: bool)
    ensures r <==> MatchesEmailPattern(email) && |password| >= 1 && !loading
  {
    ValidateEmailIsPattern(email);
    ValidateEmail(email) && |password| >= 1 && !loading
  }

  /** The hint under the address field, shown while a non-empty address
      fails the check. */
  function ShowEmailHint(email: string): (r: bool)
    ensures r <==> email != "" && !MatchesEmailPattern(email)
  {
    ValidateEmailIsPattern(email);
    !ValidateEmail(email) && email != ""
  }

  /** The message for a failed sign-in, given `err.response?.status`
      (`None` when the error carries no response). */
  function ErrorMessage(status: Option<int>): (msg: string)
    ensures msg == BadCredentials <==> status == Some(401)
    ensures msg == LoginFailed <==> status != Some(401)
  {
    if status == Some(401) then BadCredentials else LoginFailed
  }

  /** While the hint is shown the form cannot be submitted. */
  lemma HintBlocksSubmit(email: string, password: string, loading: bool)
    requires ShowEmailHint(email)
    ensures !FormValid(email, password, loading)
  {
  }

  /** How the `token/` call of `handleSubmit` ended: a body with the three
      values, or an error with or without a response status. */
  datatype Completion =
    | LoggedIn(access: string, refresh: string, nickname: string)
    | Failed(status: Option<int>)

  /** The page's state. */
  class LoginPage {
    const browser: Browser
    const auth: AuthFlag
    var error: Option<string>
    var loading: bool

    constructor (browser: Browser, auth: AuthFlag)
      ensures this.browser == browser && this.auth == auth && error == None && !loading
    {
      this.browser := browser;
      this.auth := auth;
      error := None;
      loading := false;
    }

    /** The synchronous part of `handleSubmit`: an invalid form changes
        nothing and sends nothing; a valid one sets `loading` and sends. */
    method Submit(email: string, password: string) returns (sent: bool)
      modifies this`loading
      ensures sent <==> FormValid(email, password, old(loading))
      ensures loading == (old(loading) || sent)
    {
      if !FormValid(email, password, loading) {
        return false;
      }
      loading := true;
      return true;
    }

    /** The rest of `handleSubmit`. On success the three keys are stored in
        order, the context is told the user is authenticated and the router
        goes to `/`; on failure only the message changes. `loading` ends
        false either way. */
    method Complete(c: Completion)
      modifies this`error, this`loading, browser`storage, browser`route, auth
      ensures !loading
      ensures c.LoggedIn? ==>
        && browser.storage == old(browser.storage)[AccessTokenKey := c.access]
             [RefreshTokenKey := c.refresh][NicknameKey := c.nickname]
        && auth.isAuthenticated && browser.route == HomePath && error == old(error)
      ensures c.Failed? ==>
        && error == Some(ErrorMessage(c.status))
        && browser.storage == old(browser.storage) && browser.route == old(browser.route)
        && auth.isAuthenticated == old(auth.isAuthenticated)
    {
      match c {
        case LoggedIn(access, refresh, nickname) =>
          browser.storage := browser.storage[AccessTokenKey := access];
          browser.storage := browser.storage[RefreshTokenKey := refresh];
          browser.storage := browser.storage[NicknameKey := nickname];
          auth.isAuthenticated := true;
          browser.route := HomePath;
        case Failed(status) =>
          error := Some(ErrorMessage(status));
      }
      loading := false;
    }
  }
}
