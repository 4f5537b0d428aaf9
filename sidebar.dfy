/**
 * The navigation sidebar of frontend/src/components/SideBar.tsx: the
 * guard filter over `navItems`, the nickname badge, the collapse toggle and
 * the sidebar's own logout.
 */
module SideBar {
  import opened Wrappers
  import opened JsString
  import opened BrowserState
  import Seqs

  /** `guard?: "auth" | "guest"`. */
  datatype Guard = AuthOnly | GuestOnly

  /** An item either links to a route or runs the sidebar's `logout`. */
  datatype Action = Link(to: string) | LogoutClick

  datatype NavItem = NavItem(name: string, action: Action, guard: Option<Guard>)

  const LogoutRoute: string := "/logout"

  /** `navItems`, in their declared order. */
  const NavItems: seq<NavItem> := [
    NavItem("Home", Link("/"), None),
    NavItem("Store", Link("/store"), None),
    NavItem("Cart", Link("/cart"), Some(AuthOnly)),
    NavItem("Library", Link("/library"), Some(AuthOnly)),
    NavItem("Logout", LogoutClick, Some(AuthOnly)),
    NavItem("Login", Link("/login"), Some(GuestOnly))
  ]

  /** The filter's callback: `auth` items need a session, `guest` items need
      its absence, unguarded items always pass. */
  function Shown(isAuthenticated: bool, item: NavItem): (r: bool)
    ensures item.guard == Some(AuthOnly) ==> (r <==> isAuthenticated)
    ensures item.guard == Some(GuestOnly) ==> (r <==> !isAuthenticated)
    ensures item.guard == None ==> r
  {
    match item.guard
    case Some(AuthOnly) => isAuthenticated
    case Some(GuestOnly) => !isAuthenticated
    case None => true
  }

  /** `filtered`. */
  function Filtered(isAuthenticated: bool): (r: seq<NavItem>)
    ensures forall item :: item in r <==> item in NavItems && Shown(isAuthenticated, item)
  {
    Seqs.FilterMembers(NavItems, item => Shown(isAuthenticated, item));
    Seqs.Filter(NavItems, item => Shown(isAuthenticated, item))
  }

  function Labels(items: seq<NavItem>): (r: seq<string>)
    ensures |r| == |items| && forall k :: 0 <= k < |items| ==> r[k] == items[k].name
  {
    seq(|items|, k requires 0 <= k < |items| => items[k].name)
  }

  /** Signed in, the filter keeps Home, Store, Cart, Library and Logout, in
      that order. */
  lemma FilteredSignedIn()
    ensures Filtered(true) == [NavItems[0], NavItems[1], NavItems[2], NavItems[3], NavItems[4]]
    ensures Labels(Filtered(true)) == ["Home", "Store", "Cart", "Library", "Logout"]
  {
    var items := [NavItems[0], NavItems[1], NavItems[2], NavItems[3], NavItems[4]];
    assert Labels(items) == ["Home", "Store", "Cart", "Library", "Logout"] by {
      var l := Labels(items);
      assert l[0] == "Home" && l[1] == "Store" && l[2] == "Cart";
      assert l[3] == "Library" && l[4] == "Logout";
    }
    FilteredSignedInItems();
  }

  lemma FilteredSignedInItems()
    ensures Filtered(true) == [NavItems[0], NavItems[1], NavItems[2], NavItems[3], NavItems[4]]
  {
    var p := item => Shown(true, item);
    var a, b, c, d, e, f := NavItems[0], NavItems[1], NavItems[2], NavItems[3], NavItems[4], NavItems[5];
    assert Seqs.Filter([f], p) == [] by {
      assert [f][1..] == [];
    }
    assert Seqs.Filter([e, f], p) == [e] by {
      assert [e, f][1..] == [f];
    }
    assert Seqs.Filter([d, e, f], p) == [d, e] by {
      assert [d, e, f][1..] == [e, f];
    }
    assert Seqs.Filter([c, d, e, f], p) == [c, d, e] by {
      assert [c, d, e, f][1..] == [d, e, f];
    }
    assert Seqs.Filter([b, c, d, e, f], p) == [b, c, d, e] by {
      assert [b, c, d, e, f][1..] == [c, d, e, f];
    }
    assert Seqs.Filter([a, b, c, d, e, f], p) == [a, b, c, d, e] by {
      assert [a, b, c, d, e, f][1..] == [b, c, d, e, f];
    }
    assert NavItems == [a, b, c, d, e, f];
  }

  /** Signed out, the filter keeps Home, Store and Login, in that order. */
  lemma FilteredSignedOut()
    ensures Filtered(false) == [NavItems[0], NavItems[1], NavItems[5]]
    ensures Labels(Filtered(false)) == ["Home", "Store", "Login"]
  {
    var items := [NavItems[0], NavItems[1], NavItems[5]];
    assert Labels(items) == ["Home", "Store", "Login"] by {
      var l := Labels(items);
      assert l[0] == "Home" && l[1] == "Store" && l[2] == "Login";
    }
    FilteredSignedOutItems();
  }

  lemma FilteredSignedOutItems()
    ensures Filtered(false) == [NavItems[0], NavItems[1], NavItems[5]]
  {
    var p := item => Shown(false, item);
    assert NavItems[5..][1..] == [];
    assert Seqs.Filter(NavItems[5..], p) == [NavItems[5]];
    assert NavItems[4..][1..] == NavItems[5..];
    assert Seqs.Filter(NavItems[4..], p) == [NavItems[5]];
    assert NavItems[3..][1..] == NavItems[4..];
    assert Seqs.Filter(NavItems[3..], p) == [NavItems[5]];
    assert NavItems[2..][1..] == NavItems[3..];
    assert Seqs.Filter(NavItems[2..], p) == [NavItems[5]];
    assert NavItems[1..][1..] == NavItems[2..];
    assert Seqs.Filter(NavItems[1..], p) == [NavItems[1], NavItems[5]];
    assert Seqs.Filter(NavItems, p) == [NavItems[0], NavItems[1], NavItems[5]];
  }

  /** Exactly one of Logout and Login is on the sidebar. */
  lemma ExactlyOneSessionItem(isAuthenticated: bool)
    ensures (NavItems[4] in Filtered(isAuthenticated)) != (NavItems[5] in Filtered(isAuthenticated))
    ensures NavItems[4].name == "Logout" && NavItems[5].name == "Login"
  {
  }

  /** The unguarded items, Home and Store, are always shown. */
  lemma UnguardedAlwaysShown(isAuthenticated: bool)
    ensures forall k :: 0 <= k < |NavItems| && NavItems[k].guard == None ==>
      NavItems[k] in Filtered(isAuthenticated)
    ensures forall k :: 0 <= k < |NavItems| && NavItems[k].guard == None ==>
      NavItems[k].name in {"Home", "Store"}
  {
  }

  /** The badge above Home: shown only with a session and a non-empty stored
      nickname; the full nickname when open, its upper-cased first character
      when collapsed. */
  function Badge(isAuthenticated: bool, nickname: Option<string>, open: bool): (r: Option<string>)
    ensures r.Some? <==> isAuthenticated && Truthy(nickname)
    ensures r.Some? && open ==> r.value == nickname.value
    ensures r.Some? && !open ==>
      |r.value| == 1 && r.value[0] == UpperChar(nickname.value[0]) && !IsLowerAscii(r.value[0])
  {
    if isAuthenticated && Truthy(nickname) then
      Some(if open then nickname.value else [UpperChar(nickname.value[0])])
    else None
  }

  /** The component's state. */
  class Sidebar {
    const browser: Browser
    const auth: AuthFlag
    var open: bool

    constructor (browser: Browser, auth: AuthFlag)
      ensures this.browser == browser && this.auth == auth && open
    {
      this.browser := browser;
      this.auth := auth;
      open := true;
    }

    /** The badge as currently rendered, from the stored nickname. */
    function CurrentBadge(): (r: Option<string>)
      reads this, auth, browser
      ensures r.Some? <==> auth.isAuthenticated && Truthy(GetItem(browser.storage, NicknameKey))
    {
      Badge(auth.isAuthenticated, GetItem(browser.storage, NicknameKey), open)
    }

    /** The collapse button. */
    method Toggle()
      modifies this`open
      ensures open == !old(open)
    {
      open := !open;
    }

    /** `logout`: drop the whole session, tell the context, go to
        `/logout`. */
    method Logout()
      modifies browser`storage, browser`route, auth
      ensures browser.storage == RemoveItems(old(browser.storage), SessionKeys)
      ensures !auth.isAuthenticated && browser.route == LogoutRoute
      ensures browser.href == old(browser.href)
      ensures CurrentBadge() == None
      ensures Labels(Filtered(auth.isAuthenticated)) == ["Home", "Store", "Login"]
    {
      RemoveSessionKeys(browser.storage);
      browser.storage := RemoveItems(browser.storage, {AccessTokenKey});
      browser.storage := RemoveItems(browser.storage, {RefreshTokenKey});
      browser.storage := RemoveItems(browser.storage, {NicknameKey});
      auth.isAuthenticated := false;
      browser.route := LogoutRoute;
      assert GetItem(browser.storage, NicknameKey) == None;
      FilteredSignedOut();
    }
  }
}
