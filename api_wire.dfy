/**
 * What the axios client of frontend/src/lib/api.ts puts on the wire, and the
 * two guarantees the refresh protocol gives about it: at most one call to the
 * refresh endpoint is outstanding at any time, and no request config is
 * replayed twice.
 */
module ApiWire {
  import opened Wrappers

  /** An axios request config. The interceptors mutate it in place: the
      request interceptor writes its headers, the error interceptor sets
      `_retry` and writes the replay's Authorization header. */
  class RequestConfig {
    var headers: map<string, string>
    var retry: bool

    constructor (headers: map<string, string>)
      ensures this.headers == headers && !retry
    {
      this.headers := headers;
      retry := false;
    }
  }

  /** One event on the wire, in the order it happens.
      `Send`: `api(config)` hands a request to the transport, with the
      Authorization header the request interceptor left (`replay` marks the
      `api(original)` calls of the error interceptor).
      `RefreshPost`: the bare `axios.post` to `token/refresh/`, which bypasses
      the interceptors. `RefreshSettled`: that call came back. */
  datatype Wire =
    | Send(config: RequestConfig, authorization: Option<string>, replay: bool)
    | RefreshPost(refresh: string)
    | RefreshSettled(ok: bool)

  predicate IsReplay(w: Wire) {
    w.Send? && w.replay
  }

  /** How an event changes the number of outstanding refresh calls. */
  function Delta(w: Wire): int {
    match w
    case RefreshPost(_) => 1
    case RefreshSettled(_) => -1
    case Send(_, _, _) => 0
  }

  /** Refresh calls posted and not yet settled after `wire`. */
  function InFlight(wire: seq<Wire>): int {
    if wire == [] then 0 else InFlight(wire[..|wire| - 1]) + Delta(wire[|wire| - 1])
  }

  /** Single flight: after every prefix of the wire, zero or one refresh call
      is outstanding. */
  ghost predicate SingleFlight(wire: seq<Wire>) {
    forall n :: 0 <= n <= |wire| ==> 0 <= InFlight(wire[..n]) <= 1
  }

  /** No request config is replayed twice. */
  ghost predicate ReplayedOnce(wire: seq<Wire>) {
    forall i, j :: 0 <= i < j < |wire| && IsReplay(wire[i]) && IsReplay(wire[j]) ==>
      wire[i].config != wire[j].config
  }

  /** The configs replayed so far. */
  ghost function Replayed(wire: seq<Wire>): set<RequestConfig> {
    set i | 0 <= i < |wire| && IsReplay(wire[i]) :: wire[i].config
  }

  ghost predicate Distinct<T>(s: seq<T>) {
    forall i, j :: 0 <= i < j < |s| ==> s[i] != s[j]
  }

  /** The replays of `configs`, in order, each carrying `authorization`. */
  function Replays(configs: seq<RequestConfig>, authorization: string): seq<Wire> {
    seq(|configs|, k requires 0 <= k < |configs| => Send(configs[k], Some(authorization), true))
  }

  /** Appending one event whose effect keeps zero or one refresh call
      outstanding keeps the wire single-flight. */
  lemma SingleFlightAppend(wire: seq<Wire>, w: Wire)
    requires SingleFlight(wire)
    requires 0 <= InFlight(wire) + Delta(w) <= 1
    ensures InFlight(wire + [w]) == InFlight(wire) + Delta(w)
    ensures SingleFlight(wire + [w])
  {
    var ext := wire + [w];
    assert ext[..|ext| - 1] == wire;
    forall n | 0 <= n <= |ext| ensures 0 <= InFlight(ext[..n]) <= 1 {
      if n <= |wire| {
        assert ext[..n] == wire[..n];
      } else {
        assert ext[..n] == ext;
      }
    }
  }

  /** Requests handed to the transport neither start nor settle a refresh. */
  lemma {:induction false} SingleFlightAppendSends(wire: seq<Wire>, sends: seq<Wire>)
    requires SingleFlight(wire)
    requires 0 <= InFlight(wire) <= 1
    requires forall k :: 0 <= k < |sends| ==> sends[k].Send?
    ensures InFlight(wire + sends) == InFlight(wire)
    ensures SingleFlight(wire + sends)
    decreases |sends|
  {
    if sends == [] {
      assert wire + sends == wire;
    } else {
      var init := sends[..|sends| - 1];
      SingleFlightAppendSends(wire, init);
      assert wire + sends == (wire + init) + [sends[|sends| - 1]];
      SingleFlightAppend(wire + init, sends[|sends| - 1]);
    }
  }

  /** Without a settlement in `wire[a..b]` the number of outstanding refresh
      calls does not drop between the two prefixes. */
  lemma {:induction false} InFlightWithoutSettlement(wire: seq<Wire>, a: nat, b: nat)
    requires a <= b <= |wire|
    requires forall k :: a <= k < b ==> !wire[k].RefreshSettled?
    ensures InFlight(wire[..b]) >= InFlight(wire[..a])
    decreases b - a
  {
    if a < b {
      InFlightWithoutSettlement(wire, a, b - 1);
      assert wire[..b][..b - 1] == wire[..b - 1];
    }
  }

  /** At most one refresh in flight: between any two refresh calls on a
      single-flight wire the earlier one has settled. */
  lemma AtMostOneRefreshInFlight(wire: seq<Wire>, i: nat, j: nat)
    requires SingleFlight(wire)
    requires i < j < |wire| && wire[i].RefreshPost? && wire[j].RefreshPost?
    ensures exists k :: i < k < j && wire[k].RefreshSettled?
  {
    assert wire[..i + 1][..i] == wire[..i];
    assert wire[..j + 1][..j] == wire[..j];
    assert InFlight(wire[..i + 1]) == InFlight(wire[..i]) + 1 >= 1;
    assert InFlight(wire[..j + 1]) == InFlight(wire[..j]) + 1 <= 1;
    if forall k :: i < k < j ==> !wire[k].RefreshSettled? {
      InFlightWithoutSettlement(wire, i + 1, j);
      assert false;
    }
  }

  /** Events that are not replays leave the replayed set alone. */
  lemma ReplayedAppendOther(wire: seq<Wire>, w: Wire)
    requires !IsReplay(w)
    ensures Replayed(wire + [w]) == Replayed(wire)
    ensures ReplayedOnce(wire) ==> ReplayedOnce(wire + [w])
  {
    var ext := wire + [w];
    forall c | c in Replayed(ext) ensures c in Replayed(wire) {
      var i :| 0 <= i < |ext| && IsReplay(ext[i]) && ext[i].config == c;
      assert ext[i] == wire[i];
    }
    forall c | c in Replayed(wire) ensures c in Replayed(ext) {
      var i :| 0 <= i < |wire| && IsReplay(wire[i]) && wire[i].config == c;
      assert ext[i] == wire[i];
    }
  }

  /** Replaying configs that are pairwise distinct and were never replayed
      before keeps every config replayed at most once. */
  lemma ReplayedAppendReplays(wire: seq<Wire>, configs: seq<RequestConfig>, authorization: string)
    requires ReplayedOnce(wire)
    requires Distinct(configs)
    requires forall k :: 0 <= k < |configs| ==> configs[k] !in Replayed(wire)
    ensures ReplayedOnce(wire + Replays(configs, authorization))
    ensures Replayed(wire + Replays(configs, authorization)) == Replayed(wire) + set c | c in configs
  {
    var rs := Replays(configs, authorization);
    var ext := wire + rs;
    forall i, j | 0 <= i < j < |ext| && IsReplay(ext[i]) && IsReplay(ext[j])
      ensures ext[i].config != ext[j].config
    {
      if j < |wire| {
        assert ext[i] == wire[i] && ext[j] == wire[j];
      } else if i < |wire| {
        assert ext[i] == wire[i] && ext[j] == rs[j - |wire|];
        assert ext[i].config in Replayed(wire);
      } else {
        assert ext[i] == rs[i - |wire|] && ext[j] == rs[j - |wire|];
      }
    }
    forall c | c in Replayed(ext) ensures c in Replayed(wire) || c in configs {
      var i :| 0 <= i < |ext| && IsReplay(ext[i]) && ext[i].config == c;
      if i < |wire| {
        assert ext[i] == wire[i];
      } else {
        assert ext[i] == rs[i - |wire|];
      }
    }
    forall c | c in Replayed(wire) ensures c in Replayed(ext) {
      var i :| 0 <= i < |wire| && IsReplay(wire[i]) && wire[i].config == c;
      assert ext[i] == wire[i];
    }
    forall c | c in configs ensures c in Replayed(ext) {
      var k :| 0 <= k < |configs| && configs[k] == c;
      assert ext[|wire| + k] == rs[k];
    }
  }
}
