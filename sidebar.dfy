/**
 * The navigation sidebar: four fixed menu links, the rule that highlights the link
 * of the current page, the mobile drawer, and the sign-out confirmation.
 */
module Sidebar {
  import Middleware

  datatype MenuItem = MenuItem(name: string, href: string)

  const DashboardHref: string := "/dashboard"
  const TokenKey: string := "employee_token"

  /** `menuItems`, in display order. */
  const MenuItems: seq<MenuItem> := [
    MenuItem("Dashboard", DashboardHref),
    MenuItem("Orders", "/orders"),
    MenuItem("Inventory", "/inventory"),
    MenuItem("Staff Profile", "/profile")
  ]

  /** `isActive` of `LinkItem`: an exact match, or for every link but the dashboard, a prefix match. */
  predicate IsActive(pathname: string, href: string)
    ensures IsActive(pathname, href) ==> href <= pathname
  {
    pathname == href || (href != DashboardHref && href <= pathname)
  }

  /** The highlight flag of each menu link, in menu order. */
  function ActiveFlags(pathname: string): (flags: seq<bool>)
    ensures |flags| == |MenuItems|
    ensures forall i :: 0 <= i < |MenuItems| ==> (flags[i] <==> IsActive(pathname, MenuItems[i].href))
    ensures forall i, j :: 0 <= i < |flags| && 0 <= j < |flags| && flags[i] && flags[j] ==> i == j
  {
    forall i, j | 0 <= i < |MenuItems| && 0 <= j < |MenuItems|
      && IsActive(pathname, MenuItems[i].href) && IsActive(pathname, MenuItems[j].href)
      ensures i == j
    {
      AtMostOneActive(pathname, i, j);
    }
    seq(|MenuItems|, i requires 0 <= i < |MenuItems| => IsActive(pathname, MenuItems[i].href))
  }

  /** A link is active on its own page. */
  lemma ActiveOnOwnPage(i: nat)
    requires i < |MenuItems|
    ensures IsActive(MenuItems[i].href, MenuItems[i].href)
    ensures ActiveFlags(MenuItems[i].href)[i]
  {
  }

  /** Every link but the dashboard stays active on deeper pages, such as an order's detail page. */
  lemma ActiveOnDeeperPages(i: nat, rest: string)
    requires 0 < i < |MenuItems|
    ensures IsActive(MenuItems[i].href + rest, MenuItems[i].href)
  {
    assert MenuItems[i].href != DashboardHref by {
      assert MenuItems[i].href[1] != DashboardHref[1];
    }
  }

  /** The dashboard link is active on its exact path only. */
  lemma DashboardExactOnly(pathname: string)
    ensures IsActive(pathname, DashboardHref) <==> pathname == DashboardHref
  {
  }

  /** Two prefixes of one string are comparable: one is a prefix of the other. */
  lemma PrefixesComparable(a: string, b: string, s: string)
    requires a <= s && b <= s
    ensures a <= b || b <= a
  {
    if |a| <= |b| {
      assert a == s[..|a|] == b[..|a|];
    } else {
      assert b == s[..|b|] == a[..|b|];
    }
  }

  /** No menu link is a prefix of another. */
  lemma HrefsPrefixFree(i: nat, j: nat)
    requires i < |MenuItems| && j < |MenuItems| && i != j
    ensures !(MenuItems[i].href <= MenuItems[j].href)
  {
    // the links differ at their second character
    assert MenuItems[i].href[1] != MenuItems[j].href[1];
  }

  /** For any path, at most one menu link is highlighted. */
  lemma AtMostOneActive(pathname: string, i: nat, j: nat)
    requires i < |MenuItems| && j < |MenuItems|
    requires IsActive(pathname, MenuItems[i].href) && IsActive(pathname, MenuItems[j].href)
    ensures i == j
  {
    if i != j {
      var a, b := MenuItems[i].href, MenuItems[j].href;
      assert a <= pathname && b <= pathname;
      PrefixesComparable(a, b, pathname);
      HrefsPrefixFree(i, j);
      HrefsPrefixFree(j, i);
    }
  }

  /**
   * The sidebar's local state, with the browser state around it: `localStorage` (key to value),
   * the cookie jar (name to value) that the request gate reads, and the targets passed to
   * `router.push`, in order.
   */
  class SidebarState {
    var open: bool
    var showLogoutConfirm: bool
    var localStorage: map<string, string>
    var cookies: map<string, string>
    var pushed: seq<string>

    /** The first render: drawer closed, no confirmation shown. */
    constructor (storage: map<string, string>, jar: map<string, string>)
      ensures !open && !showLogoutConfirm
      ensures localStorage == storage && cookies == jar && pushed == []
    {
      open := false;
      showLogoutConfirm := false;
      localStorage := storage;
      cookies := jar;
      pushed := [];
    }

    /** The mobile menu button: the only way the drawer opens. */
    method TapMenuButton()
      modifies this`open
      ensures open
    {
      open := true;
    }

    /** The dimmed overlay behind the open drawer closes it. */
    method TapOverlay()
      modifies this`open
      ensures !open
    {
      open := false;
    }

    /** The X button in the drawer closes it. */
    method TapCloseButton()
      modifies this`open
      ensures !open
    {
      open := false;
    }

    /** A click on any menu link closes the drawer. */
    method ClickLink(item: MenuItem)
      modifies this`open
      ensures !open
    {
      open := false;
    }

    /** "Sign Out" only asks for confirmation. */
    method TapSignOut()
      modifies this`showLogoutConfirm
      ensures showLogoutConfirm
    {
      showLogoutConfirm := true;
    }

    /** "Cancel" closes the confirmation and does not log out. */
    method TapCancel()
      modifies this`showLogoutConfirm
      ensures !showLogoutConfirm
    {
      showLogoutConfirm := false;
    }

    /**
     * "Yes, Sign Out" runs `handleLogout`: the token leaves `localStorage` and the router goes to the
     * login page. The token cookie is not touched, so while it is present the request gate still
     * serves every page.
     */
    method ConfirmLogout()
      modifies this`localStorage, this`pushed
      ensures localStorage == old(localStorage) - {TokenKey}
      ensures TokenKey !in localStorage
      ensures forall k :: k in old(localStorage) && k != TokenKey ==> k in localStorage && localStorage[k] == old(localStorage)[k]
      ensures pushed == old(pushed) + [Middleware.LoginPath]
      ensures cookies == old(cookies)
      ensures Middleware.TokenCookie in old(cookies) ==> forall p :: Middleware.Decide(p, cookies) == Middleware.Next
    {
      localStorage := localStorage - {TokenKey};
      pushed := pushed + [Middleware.LoginPath];
    }
  }
}
