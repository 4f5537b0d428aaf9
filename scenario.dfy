/**
 * A run of the interceptor of frontend/src/lib/api.ts with an expired access
 * token: four requests are answered 401 before the refresh call returns.
 */
module Scenario {
  import opened Wrappers
  import opened BrowserState
  import opened ApiWire
  import opened Api
  import Login

  /** A 401 on a request that has not been retried yet, while a refresh
      token is stored and a refresh is in flight: the request joins the
      queue and nothing else changes. */
  method Wait(client: Interceptor, cfg: RequestConfig)
    requires client.Valid() && client.isRefreshing && !cfg.retry
    requires Truthy(GetItem(client.browser.storage, RefreshTokenKey))
    modifies client, cfg`retry, client.browser`storage, client.browser`href
    ensures client.Valid() && client.isRefreshing
    ensures client.queued == old(client.queued) + [cfg]
    ensures client.refreshing == old(client.refreshing) && client.wire == old(client.wire)
    ensures client.browser.storage == old(client.browser.storage)
    ensures client.browser.href == old(client.browser.href)
  {
    var outcome := client.OnResponseError(cfg, Some(Unauthorized));
  }

  /** A fresh client sees a 401 on a fresh request with a refresh token
      stored: that request starts the refresh call. */
  method Begin(b: Browser) returns (client: Interceptor, first: RequestConfig)
    requires Truthy(GetItem(b.storage, RefreshTokenKey))
    modifies b`storage, b`href
    ensures fresh(client) && fresh(first)
    ensures client.browser == b && client.Valid() && client.isRefreshing
    ensures client.refreshing == Some(first) && client.queued == []
    ensures client.wire == [RefreshPost(old(b.storage)[RefreshTokenKey])]
    ensures b.storage == old(b.storage) && b.href == old(b.href)
  {
    client := new Interceptor(b);
    first := new RequestConfig(map[]);
    var started := client.OnResponseError(first, Some(Unauthorized));
  }

  /** A fresh request is answered 401 while the refresh is in flight: it
      joins the queue. */
  method Arrive(client: Interceptor) returns (cfg: RequestConfig)
    requires client.Valid() && client.isRefreshing
    requires Truthy(GetItem(client.browser.storage, RefreshTokenKey))
    modifies client, client.browser`storage, client.browser`href
    ensures fresh(cfg)
    ensures client.Valid() && client.isRefreshing
    ensures client.queued == old(client.queued) + [cfg]
    ensures client.refreshing == old(client.refreshing) && client.wire == old(client.wire)
    ensures client.browser.storage == old(client.browser.storage)
    ensures client.browser.href == old(client.browser.href)
  {
    cfg := new RequestConfig(map[]);
    Wait(client, cfg);
  }

  /** Three fresh requests are answered 401 while the refresh is in flight:
      they queue in arrival order. */
  method WaitThree(client: Interceptor) returns (rest: seq<RequestConfig>)
    requires client.Valid() && client.isRefreshing && client.queued == []
    requires Truthy(GetItem(client.browser.storage, RefreshTokenKey))
    modifies client, client.browser`storage, client.browser`href
    ensures fresh(rest) && |rest| == 3
    ensures client.Valid() && client.isRefreshing && client.queued == rest
    ensures client.refreshing == old(client.refreshing) && client.wire == old(client.wire)
    ensures client.browser.storage == old(client.browser.storage)
    ensures client.browser.href == old(client.browser.href)
  {
    var second := Arrive(client);
    var third := Arrive(client);
    var fourth := Arrive(client);
    rest := [second, third, fourth];
  }

  /** Four fresh requests are answered 401 with a refresh token stored: the
      first starts the refresh call, the other three queue behind it in
      arrival order. */
  method ExpireFour(b: Browser) returns (client: Interceptor, first: RequestConfig, rest: seq<RequestConfig>)
    requires Truthy(GetItem(b.storage, RefreshTokenKey))
    modifies b`storage, b`href
    ensures fresh(client) && fresh(first) && fresh(rest)
    ensures client.browser == b && client.Valid() && client.isRefreshing
    ensures client.refreshing == Some(first) && client.queued == rest && |rest| == 3
    ensures client.wire == [RefreshPost(old(b.storage)[RefreshTokenKey])]
    ensures b.storage == old(b.storage) && b.href == old(b.href)
  {
    client, first := Begin(b);
    rest := WaitThree(client);
  }

  /** When the refresh call returns `token`, the three waiters are replayed
      in arrival order and then the request that started the refresh, each
      once and each with `Bearer <token>`; exactly one refresh call was
      made. */
  method ConcurrentExpiry(b: Browser, token: string)
    returns (first: RequestConfig, rest: seq<RequestConfig>, wire: seq<Wire>)
    requires Truthy(GetItem(b.storage, RefreshTokenKey))
    modifies b`storage, b`href
    ensures fresh(first) && fresh(rest) && |rest| == 3
    ensures wire == [RefreshPost(old(b.storage)[RefreshTokenKey]), RefreshSettled(true)]
      + Replays(rest + [first], Bearer(token))
    ensures SingleFlight(wire) && ReplayedOnce(wire) && InFlight(wire) == 0
    ensures b.storage == old(b.storage)[AccessTokenKey := token] && b.href == old(b.href)
  {
    var client;
    client, first, rest := ExpireFour(b);
    var outcome := client.RefreshSucceeded(token);
    wire := client.wire;
  }

  /** When the refresh call fails instead, the session is cleared once and
      the request that started the refresh is rejected, but the three
      waiters stay in the queue: nothing ever settles them. */
  method ConcurrentExpiryFails(b: Browser) returns (waiting: nat, wire: seq<Wire>)
    requires Truthy(GetItem(b.storage, RefreshTokenKey))
    modifies b`storage, b`href
    ensures waiting == 3
    ensures wire == [RefreshPost(old(b.storage)[RefreshTokenKey]), RefreshSettled(false)]
    ensures b.storage == RemoveItems(old(b.storage), SessionKeys) && b.href == LoggedOutPath
  {
    var client, first, rest := ExpireFour(b);
    var outcome := client.RefreshFailed();
    waiting := |client.queued|;
    wire := client.wire;
  }

  /** A request goes out through the instance and is answered 401 while no
      refresh token is stored: the interceptor logs out hard and rejects
      with the request's own error, whose status is still 401. */
  method RejectedWithoutRefresh(client: Interceptor) returns (outcome: Outcome)
    requires client.Valid()
    requires !Truthy(GetItem(client.browser.storage, RefreshTokenKey))
    modifies client, client.browser`storage, client.browser`href
    ensures outcome == Reject(RequestError)
    ensures client.browser.storage == RemoveItems(old(client.browser.storage), SessionKeys)
    ensures client.browser.href == LoggedOutPath
  {
    var post := new RequestConfig(map[]);
    client.Request(post);
    outcome := client.OnResponseError(post, Some(Unauthorized));
  }

  /** A signed-out visitor with no refresh token stored mistypes the
      password. The `token/` call goes through the instance, and its 401
      reaches the error interceptor before the page's `catch`: the session
      keys are removed and the location is sent to `/logged-out`, and only
      then does the page set the bad-credentials message. */
  method WrongPasswordSignedOut(b: Browser, auth: AuthFlag, email: string, password: string)
    returns (error: Option<string>)
    requires !Truthy(GetItem(b.storage, RefreshTokenKey))
    requires Login.FormValid(email, password, false)
    modifies b`storage, b`href, b`route, auth
    ensures error == Some(Login.BadCredentials)
    ensures b.storage == RemoveItems(old(b.storage), SessionKeys) && b.href == LoggedOutPath
    ensures b.route == old(b.route) && auth.isAuthenticated == old(auth.isAuthenticated)
  {
    var client := new Interceptor(b);
    var page := new Login.LoginPage(b, auth);
    var sent := page.Submit(email, password);
    var outcome := RejectedWithoutRefresh(client);
    page.Complete(Login.Failed(Some(Unauthorized)));
    error := page.error;
  }
}
