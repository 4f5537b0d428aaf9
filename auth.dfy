/** The session helpers of frontend/src/lib/auth.ts. */
module Auth {
  import opened BrowserState

  const LoginPath: string := "/login"

  /** `isAuthenticated()`: `!!localStorage.getItem("access_token")`. */
  function IsAuthenticated(storage: map<string, string>): (r: bool)
    ensures r <==> AccessTokenKey in storage && storage[AccessTokenKey] != ""
  {
    Truthy(GetItem(storage, AccessTokenKey))
  }

  /** The store after `logout()`'s two `removeItem` calls. */
  function LoggedOut(storage: map<string, string>): (r: map<string, string>)
    ensures AccessTokenKey !in r && RefreshTokenKey !in r
    ensures forall k :: k != AccessTokenKey && k != RefreshTokenKey ==>
      (k in r <==> k in storage) && (k in r ==> r[k] == storage[k])
  {
    RemoveItems(storage, TokenKeys)
  }

  /** `logout()`: forget both tokens and send the browser to the login page. */
  method Logout(b: Browser)
    modifies b
    ensures b.storage == LoggedOut(old(b.storage))
    ensures b.href == LoginPath && b.route == old(b.route)
  {
    b.storage := RemoveItems(b.storage, {AccessTokenKey});
    b.storage := RemoveItems(b.storage, {RefreshTokenKey});
    b.href := LoginPath;
  }

  /** After `logout` nobody is authenticated. */
  lemma LogoutDeauthenticates(storage: map<string, string>)
    ensures !IsAuthenticated(LoggedOut(storage))
  {
  }

  /** `logout` keeps the nickname, unlike `hardLogout` in lib/api.ts. */
  lemma LogoutKeepsNickname(storage: map<string, string>)
    ensures NicknameKey in LoggedOut(storage) <==> NicknameKey in storage
    ensures NicknameKey in storage ==> LoggedOut(storage)[NicknameKey] == storage[NicknameKey]
  {
  }

  /** Logging out twice leaves the same store as logging out once. */
  lemma LogoutIdempotent(storage: map<string, string>)
    ensures LoggedOut(LoggedOut(storage)) == LoggedOut(storage)
  {
  }
}
