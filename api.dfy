/**
 * The axios instance of frontend/src/lib/api.ts: a request interceptor that
 * attaches the stored access token as a bearer token (section 2.1 of
 * RFC 6750), and a response-error interceptor that answers a 401 by
 * refreshing the access token once and replaying the request.
 *
 * The browser's event loop runs each synchronous stretch between two
 * `await`s without interruption, so every method of `Interceptor` below is
 * one such stretch: an error reaching the interceptor, the refresh call
 * resolving, the refresh call failing.
 */
module Api {
  import opened Wrappers
  import opened BrowserState
  import opened ApiWire

  const AuthorizationHeader: string := "Authorization"
  const LoggedOutPath: string := "/logged-out"
  const Unauthorized: int := 401

  function Bearer(token: string): string {
    "Bearer " + token
  }

  /** The request interceptor's effect on a config's headers: with a truthy
      stored access token, `Authorization: Bearer <token>`; otherwise the
      headers as they were. */
  function WithBearer(headers: map<string, string>, storage: map<string, string>): (r: map<string, string>)
    ensures Truthy(GetItem(storage, AccessTokenKey)) ==>
      AuthorizationHeader in r && r[AuthorizationHeader] == Bearer(storage[AccessTokenKey])
    ensures !Truthy(GetItem(storage, AccessTokenKey)) ==> r == headers
    ensures forall k :: k != AuthorizationHeader ==>
      (k in r <==> k in headers) && (k in r ==> r[k] == headers[k])
  {
    var token := GetItem(storage, AccessTokenKey);
    if Truthy(token) then headers[AuthorizationHeader := Bearer(token.value)] else headers
  }

  /** A replay's header survives the request interceptor: once the new token
      is stored, the interceptor writes the same Authorization value again
      (or, for an empty token, leaves it). */
  lemma ReplayKeepsBearer(headers: map<string, string>, storage: map<string, string>, token: string)
    requires GetItem(storage, AccessTokenKey) == Some(token)
    ensures WithBearer(headers[AuthorizationHeader := Bearer(token)], storage)
         == headers[AuthorizationHeader := Bearer(token)]
  {
  }

  /** What the error interceptor does with an error, decided from what it can
      see synchronously (api.ts:49-79). */
  datatype Step =
    | PassThrough     // no response, not a 401, or already retried
    | NoRefreshToken  // hard logout
    | Enqueue         // a refresh is in flight: wait for it
    | StartRefresh    // become the single refresher

  function Decide(status: Option<int>, retried: bool, refresh: Option<string>, refreshing: bool): (s: Step)
    ensures s == PassThrough <==> status != Some(Unauthorized) || retried
    ensures s == StartRefresh ==> !refreshing && Truthy(refresh)
    ensures s == Enqueue ==> refreshing && Truthy(refresh)
    ensures s == NoRefreshToken <==> status == Some(Unauthorized) && !retried && !Truthy(refresh)
  {
    if status != Some(Unauthorized) || retried then PassThrough
    else if !Truthy(refresh) then NoRefreshToken
    else if refreshing then Enqueue
    else StartRefresh
  }

  /** What the interceptor's returned promise does. */
  datatype ErrorSource = RequestError | RefreshError
  datatype Outcome =
    | Reject(error: ErrorSource)  // rejected with the intercepted error or the refresh call's
    | AwaitFlush                  // pending until a later flush replays the request
    | AwaitRefresh                // pending on the refresh call this handler started
    | FollowReplay                // settles as the replay `api(original)` settles

  /** The refresh protocol's invariant over the module state of api.ts: the
      flag says whether a refresh call is outstanding, at most one ever is,
      each tracked config waits in one place only, and no config has been
      replayed twice. `refreshing` is the `original` of the handler suspended
      on the refresh call. */
  ghost predicate Protocol(isRefreshing: bool, queued: seq<RequestConfig>, refreshing: Option<RequestConfig>, wire: seq<Wire>) {
    && (isRefreshing <==> refreshing.Some?)
    && Distinct(queued)
    && (forall c :: c in queued ==> c !in Replayed(wire))
    && (refreshing.Some? ==> refreshing.value !in queued && refreshing.value !in Replayed(wire))
    && ReplayedOnce(wire)
    && SingleFlight(wire)
    && InFlight(wire) == if isRefreshing then 1 else 0
  }

  /** The initial state: nothing refreshing, nothing queued, nothing sent. */
  lemma ProtocolInitially()
    ensures Protocol(false, [], None, [])
  {
    var empty: seq<Wire> := [];
    assert empty[..0] == empty;
  }

  /** A first request handed to the transport changes nothing the protocol
      tracks. */
  lemma ProtocolRequest(isRefreshing: bool, queued: seq<RequestConfig>, refreshing: Option<RequestConfig>,
                        wire: seq<Wire>, cfg: RequestConfig, authorization: Option<string>)
    requires Protocol(isRefreshing, queued, refreshing, wire)
    ensures Protocol(isRefreshing, queued, refreshing, wire + [Send(cfg, authorization, false)])
    ensures Replayed(wire + [Send(cfg, authorization, false)]) == Replayed(wire)
  {
    SingleFlightAppend(wire, Send(cfg, authorization, false));
    ReplayedAppendOther(wire, Send(cfg, authorization, false));
  }

  /** A 401 seen while a refresh is in flight joins the queue; the queue
      stays duplicate-free because the newcomer was not yet retried, so it
      was nowhere in the protocol. */
  lemma ProtocolEnqueue(queued: seq<RequestConfig>, refreshing: Option<RequestConfig>, wire: seq<Wire>, c: RequestConfig)
    requires Protocol(true, queued, refreshing, wire)
    requires c !in queued && Some(c) != refreshing && c !in Replayed(wire)
    ensures Protocol(true, queued + [c], refreshing, wire)
  {
  }

  /** A 401 seen with no refresh in flight starts the one refresh call. */
  lemma ProtocolStartRefresh(queued: seq<RequestConfig>, wire: seq<Wire>, c: RequestConfig, refresh: string)
    requires Protocol(false, queued, None, wire)
    requires c !in queued && c !in Replayed(wire)
    ensures Protocol(true, queued, Some(c), wire + [RefreshPost(refresh)])
    ensures Replayed(wire + [RefreshPost(refresh)]) == Replayed(wire)
  {
    SingleFlightAppend(wire, RefreshPost(refresh));
    ReplayedAppendOther(wire, RefreshPost(refresh));
  }

  /** A successful refresh replays every waiter, in arrival order, and then
      the request that started it, all with the new bearer token; afterwards
      nothing is queued or refreshing, and each of them has been replayed
      exactly this once. */
  lemma ProtocolRefreshSucceeded(queued: seq<RequestConfig>, original: RequestConfig, wire: seq<Wire>, access: string)
    requires Protocol(true, queued, Some(original), wire)
    ensures Protocol(false, [], None, wire + [RefreshSettled(true)] + Replays(queued + [original], Bearer(access)))
    ensures Replayed(wire + [RefreshSettled(true)] + Replays(queued + [original], Bearer(access)))
         == Replayed(wire) + set c | c in queued + [original]
  {
    var settled := wire + [RefreshSettled(true)];
    SingleFlightAppend(wire, RefreshSettled(true));
    ReplayedAppendOther(wire, RefreshSettled(true));
    var all := queued + [original];
    assert Distinct(all);
    ReplayedAppendReplays(settled, all, Bearer(access));
    SingleFlightAppendSends(settled, Replays(all, Bearer(access)));
  }

  /** A failed refresh ends the flight and forgets the request that started
      it; the waiters stay queued. */
  lemma ProtocolRefreshFailed(queued: seq<RequestConfig>, original: RequestConfig, wire: seq<Wire>)
    requires Protocol(true, queued, Some(original), wire)
    ensures Protocol(false, queued, None, wire + [RefreshSettled(false)])
    ensures Replayed(wire + [RefreshSettled(false)]) == Replayed(wire)
  {
    SingleFlightAppend(wire, RefreshSettled(false));
    ReplayedAppendOther(wire, RefreshSettled(false));
  }

  /** The module state of api.ts together with the browser it touches. */
  class Interceptor {
    const browser: Browser
    /** `isRefreshing`. */
    var isRefreshing: bool
    /** `queued`: each callback is known by the config it replays. */
    var queued: seq<RequestConfig>
    /** The `original` of the handler suspended on the refresh call. */
    var refreshing: Option<RequestConfig>
    /** Everything handed to the transport so far. */
    var wire: seq<Wire>

    /** The configs the protocol keeps track of. */
    ghost function Configs(): set<RequestConfig>
      reads this
    {
      (set c | c in queued) + Replayed(wire) + (if refreshing.Some? then {refreshing.value} else {})
    }

    /** The protocol invariant, and every tracked config carries `_retry`. */
    ghost predicate Valid()
      reads this, Configs()
    {
      && Protocol(isRefreshing, queued, refreshing, wire)
      && (forall c :: c in Configs() ==> c.retry)
    }

    constructor (browser: Browser)
      ensures Valid() && this.browser == browser
      ensures !isRefreshing && queued == [] && refreshing == None && wire == []
    {
      this.browser := browser;
      isRefreshing := false;
      queued := [];
      refreshing := None;
      wire := [];
      ProtocolInitially();
    }

    /** `api(cfg)`: the request interceptor (api.ts:26-32), then the
        transport. */
    method Dispatch(cfg: RequestConfig, replay: bool)
      modifies this`wire, cfg`headers
      ensures cfg.headers == WithBearer(old(cfg.headers), browser.storage)
      ensures wire == old(wire) + [Send(cfg, GetItem(cfg.headers, AuthorizationHeader), replay)]
    {
      var token := GetItem(browser.storage, AccessTokenKey);
      if Truthy(token) {
        cfg.headers := cfg.headers[AuthorizationHeader := Bearer(token.value)];
      }
      wire := wire + [Send(cfg, GetItem(cfg.headers, AuthorizationHeader), replay)];
    }

    /** A caller's first request through the instance. */
    method Request(cfg: RequestConfig)
      requires Valid()
      modifies this`wire, cfg`headers
      ensures Valid()
      ensures cfg.headers == WithBearer(old(cfg.headers), browser.storage)
      ensures wire == old(wire) + [Send(cfg, GetItem(cfg.headers, AuthorizationHeader), false)]
    {
      ProtocolRequest(isRefreshing, queued, refreshing, wire, cfg, GetItem(WithBearer(cfg.headers, browser.storage), AuthorizationHeader));
      Dispatch(cfg, false);
    }

    /** `hardLogout()`: remove the session keys and leave for the
        logged-out page (api.ts:18-23). */
    method HardLogout()
      modifies browser`storage, browser`href
      ensures browser.storage == RemoveItems(old(browser.storage), SessionKeys)
      ensures browser.href == LoggedOutPath
    {
      browser.storage := RemoveItems(browser.storage, {AccessTokenKey});
      browser.storage := RemoveItems(browser.storage, {RefreshTokenKey});
      browser.storage := RemoveItems(browser.storage, {NicknameKey});
      browser.href := LoggedOutPath;
      assert browser.storage == RemoveItems(old(browser.storage), SessionKeys);
    }

    /** The error interceptor, up to its first `await` (api.ts:45-79). */
    method OnResponseError(original: RequestConfig, status: Option<int>) returns (outcome: Outcome)
      requires Valid()
      modifies this, original`retry, browser`storage, browser`href
      ensures Valid()
      ensures Decide(status, old(original.retry), GetItem(old(browser.storage), RefreshTokenKey), old(isRefreshing)) == PassThrough ==>
        && outcome == Reject(RequestError) && original.retry == old(original.retry)
        && browser.storage == old(browser.storage) && browser.href == old(browser.href)
        && isRefreshing == old(isRefreshing) && queued == old(queued)
        && refreshing == old(refreshing) && wire == old(wire)
      ensures Decide(status, old(original.retry), GetItem(old(browser.storage), RefreshTokenKey), old(isRefreshing)) != PassThrough ==>
        original.retry
      ensures Decide(status, old(original.retry), GetItem(old(browser.storage), RefreshTokenKey), old(isRefreshing)) == NoRefreshToken ==>
        && outcome == Reject(RequestError)
        && browser.storage == RemoveItems(old(browser.storage), SessionKeys) && browser.href == LoggedOutPath
        && isRefreshing == old(isRefreshing) && queued == old(queued)
        && refreshing == old(refreshing) && wire == old(wire)
      ensures Decide(status, old(original.retry), GetItem(old(browser.storage), RefreshTokenKey), old(isRefreshing)) == Enqueue ==>
        && outcome == AwaitFlush
        && queued == old(queued) + [original]
        && browser.storage == old(browser.storage) && browser.href == old(browser.href)
        && isRefreshing && refreshing == old(refreshing) && wire == old(wire)
      ensures Decide(status, old(original.retry), GetItem(old(browser.storage), RefreshTokenKey), old(isRefreshing)) == StartRefresh ==>
        && outcome == AwaitRefresh
        && isRefreshing && refreshing == Some(original) && queued == old(queued)
        && wire == old(wire) + [RefreshPost(old(browser.storage)[RefreshTokenKey])]
        && browser.storage == old(browser.storage) && browser.href == old(browser.href)
    {
      if status != Some(Unauthorized) || original.retry {
        return Reject(RequestError);
      }
      assert original !in Configs();
      original.retry := true;

      var refresh := GetItem(browser.storage, RefreshTokenKey);
      if !Truthy(refresh) {
        HardLogout();
        return Reject(RequestError);
      }

      if isRefreshing {
        ProtocolEnqueue(queued, refreshing, wire, original);
        queued := queued + [original];
        return AwaitFlush;
      }

      ProtocolStartRefresh(queued, wire, original, refresh.value);
      isRefreshing := true;
      refreshing := Some(original);
      wire := wire + [RefreshPost(refresh.value)];
      outcome := AwaitRefresh;
    }

    /** `flushQueue(token)`: invoke every queued callback in order, each
        writing the new bearer token on its config and replaying it, then
        empty the queue (api.ts:38-41, 62-70). */
    method FlushQueue(token: string)
      requires Distinct(queued)
      requires GetItem(browser.storage, AccessTokenKey) == Some(token)
      modifies this`queued, this`wire, queued`headers
      ensures queued == []
      ensures wire == old(wire) + Replays(old(queued), Bearer(token))
      ensures forall k :: 0 <= k < |old(queued)| ==>
        old(queued)[k].headers == old(queued[k].headers)[AuthorizationHeader := Bearer(token)]
    {
      var i := 0;
      while i < |queued|
        invariant 0 <= i <= |queued| && queued == old(queued)
        invariant wire == old(wire) + Replays(queued[..i], Bearer(token))
        invariant forall k :: 0 <= k < i ==>
          queued[k].headers == old(queued[k].headers)[AuthorizationHeader := Bearer(token)]
        invariant forall k :: i <= k < |queued| ==> queued[k].headers == old(queued[k].headers)
      {
        var cfg := queued[i];
        cfg.headers := cfg.headers[AuthorizationHeader := Bearer(token)];
        ReplayKeepsBearer(old(cfg.headers), browser.storage, token);
        Dispatch(cfg, true);
        assert Replays(queued[..i + 1], Bearer(token)) == Replays(queued[..i], Bearer(token)) + [Send(cfg, Some(Bearer(token)), true)];
        i := i + 1;
      }
      assert queued[..i] == old(queued);
      queued := [];
    }

    /** Replay the request that started the refresh with the new token and
        end the flight (api.ts:84-86, 90-92). */
    method ReplayOriginal(access: string)
      requires refreshing.Some?
      requires GetItem(browser.storage, AccessTokenKey) == Some(access)
      modifies this`wire, this`isRefreshing, this`refreshing, refreshing.value`headers
      ensures old(refreshing).value.headers == old(refreshing.value.headers)[AuthorizationHeader := Bearer(access)]
      ensures wire == old(wire) + [Send(old(refreshing).value, Some(Bearer(access)), true)]
      ensures !isRefreshing && refreshing == None
    {
      var cfg := refreshing.value;
      cfg.headers := cfg.headers[AuthorizationHeader := Bearer(access)];
      ReplayKeepsBearer(old(cfg.headers), browser.storage, access);
      Dispatch(cfg, true);
      isRefreshing := false;
      refreshing := None;
    }

    /** The refresh call resolved with `{access}` (api.ts:81-86, 90-92):
        store the token, flush the waiters in arrival order, replay the
        request that started the refresh, clear the flag. */
    method RefreshSucceeded(access: string) returns (outcome: Outcome)
      requires Valid() && isRefreshing
      modifies this, browser`storage, queued`headers, refreshing.value`headers
      ensures Valid()
      ensures browser.storage == old(browser.storage)[AccessTokenKey := access]
      ensures browser.href == old(browser.href)
      ensures wire == old(wire) + [RefreshSettled(true)]
        + Replays(old(queued) + [old(refreshing).value], Bearer(access))
      ensures forall c :: c in old(queued) + [old(refreshing).value] ==>
        c.headers == old(c.headers)[AuthorizationHeader := Bearer(access)]
      ensures queued == [] && !isRefreshing && refreshing == None
      ensures outcome == FollowReplay
    {
      ghost var all := queued + [refreshing.value];
      ghost var tracked := Configs();
      ProtocolRefreshSucceeded(queued, refreshing.value, wire, access);

      wire := wire + [RefreshSettled(true)];
      browser.storage := browser.storage[AccessTokenKey := access];
      FlushQueue(access);
      ReplayOriginal(access);
      outcome := FollowReplay;

      assert wire == old(wire) + [RefreshSettled(true)] + Replays(all, Bearer(access));
      assert Configs() == tracked;
    }

    /** The refresh call failed (api.ts:87-92): log out hard, reject the
        request that started the refresh, clear the flag. The queued
        callbacks are neither run nor dropped. */
    method RefreshFailed() returns (outcome: Outcome)
      requires Valid() && isRefreshing
      modifies this, browser`storage, browser`href
      ensures Valid()
      ensures browser.storage == RemoveItems(old(browser.storage), SessionKeys)
      ensures browser.href == LoggedOutPath
      ensures queued == old(queued)
      ensures wire == old(wire) + [RefreshSettled(false)]
      ensures !isRefreshing && refreshing == None
      ensures outcome == Reject(RefreshError)
    {
      ProtocolRefreshFailed(queued, refreshing.value, wire);
      wire := wire + [RefreshSettled(false)];
      HardLogout();
      isRefreshing := false;
      refreshing := None;
      outcome := Reject(RefreshError);
    }
  }
}
