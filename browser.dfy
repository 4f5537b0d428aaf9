/**
 * The browser state the front end reads and writes: `localStorage` as a
 * string-to-string map, `window.location.href`, the react-router location
 * that `navigate` sets, and the `isAuthenticated` flag of the React
 * authentication context (frontend/src/contexts/AuthContext.tsx).
 */
module BrowserState {
  import opened Wrappers

  const AccessTokenKey: string := "access_token"
  const RefreshTokenKey: string := "refresh_token"
  const NicknameKey: string := "nickname"

  /** The two keys `logout` in lib/auth.ts removes. */
  const TokenKeys: set<string> := {AccessTokenKey, RefreshTokenKey}

  /** The three keys `hardLogout`, the sidebar's logout and the logged-out
      page remove. */
  const SessionKeys: set<string> := {AccessTokenKey, RefreshTokenKey, NicknameKey}

  /** The route both forms navigate to once signed in. */
  const HomePath: string := "/"

  /** `localStorage.getItem(key)`: `null` for a missing key. */
  function GetItem(storage: map<string, string>, key: string): (r: Option<string>)
    ensures r.Some? <==> key in storage
    ensures r.Some? ==> r.value == storage[key]
  {
    if key in storage then Some(storage[key]) else None
  }

  /** JavaScript truthiness of a `string | null`: `null` and `""` are falsy. */
  predicate Truthy(v: Option<string>) {
    v.Some? && v.value != ""
  }

  /** A run of `localStorage.removeItem` calls, one per key. */
  function RemoveItems(storage: map<string, string>, keys: set<string>): (r: map<string, string>)
    ensures forall k :: k in r <==> k in storage && k !in keys
    ensures forall k :: k in r ==> r[k] == storage[k]
  {
    storage - keys
  }

  /** Removing the three session keys one by one removes `SessionKeys`. */
  lemma RemoveSessionKeys(storage: map<string, string>)
    ensures RemoveItems(RemoveItems(RemoveItems(storage, {AccessTokenKey}), {RefreshTokenKey}), {NicknameKey})
         == RemoveItems(storage, SessionKeys)
  {
    assert storage - {AccessTokenKey} - {RefreshTokenKey} - {NicknameKey} == storage - SessionKeys;
  }

  /** The window: its storage, its full-page location and the client-side
      route. */
  class Browser {
    var storage: map<string, string>
    var href: string
    var route: string

    constructor (storage: map<string, string>, href: string)
      ensures this.storage == storage && this.href == href && route == href
    {
      this.storage := storage;
      this.href := href;
      this.route := href;
    }
  }

  /** The value held by `AuthProvider`: initialised from the stored access
      token, then set by the pages. */
  class AuthFlag {
    var isAuthenticated: bool

    constructor (storage: map<string, string>)
      ensures isAuthenticated == Truthy(GetItem(storage, AccessTokenKey))
    {
      isAuthenticated := Truthy(GetItem(storage, AccessTokenKey));
    }
  }
}
