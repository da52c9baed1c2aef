/**
 * The application shell (frontend/src/components/Layout.jsx): which
 * navigation item is highlighted, the avatar initial, the mobile menu flag
 * and sign-out.
 */
module Layout {
  import opened Wrappers
  import opened Records
  import Text
  import Auth

  datatype NavItem = NavItem(path: string, caption: string)

  const DashboardPath := "/dashboard"

  const NavItems: seq<NavItem> := [
    NavItem(DashboardPath, "Dashboard"),
    NavItem("/discover", "AI Discovery"),
    NavItem("/leads", "Leads"),
    NavItem("/contacts", "Contacts"),
    NavItem("/templates", "Templates")
  ]

  /** The sidebar: an exact match, or a prefix match for every item but the dashboard. */
  predicate DesktopActive(pathname: string, item: NavItem) {
    pathname == item.path || (item.path != DashboardPath && Text.StartsWith(pathname, item.path))
  }

  /** The mobile menu: an exact match only. */
  predicate MobileActive(pathname: string, item: NavItem) {
    pathname == item.path
  }

  /** The dashboard item is highlighted only on /dashboard itself. */
  lemma DashboardExactOnly(pathname: string)
    ensures DesktopActive(pathname, NavItems[0]) <==> pathname == DashboardPath
  {
  }

  /** The mobile highlight implies the sidebar one. */
  lemma MobileImpliesDesktop(pathname: string, item: NavItem)
    ensures MobileActive(pathname, item) ==> DesktopActive(pathname, item)
  {
  }

  /** A lead's detail page highlights Leads, and nothing else, in the sidebar, and nothing in the mobile menu. */
  lemma LeadDetailHighlightsLeads(id: Id)
    ensures forall k :: 0 <= k < |NavItems| ==> (DesktopActive("/leads/" + id, NavItems[k]) <==> k == 2)
    ensures forall k :: 0 <= k < |NavItems| ==> !MobileActive("/leads/" + id, NavItems[k])
  {
    var p := "/leads/" + id;
    assert p[..6] == "/leads";
    assert p[1] == 'l' && p[2] == 'e' && p[6] == '/';
    assert |p| >= 7;
  }

  /** On each navigation path exactly that item is highlighted, in both menus. */
  lemma OwnPathHighlightsOnlyItself(i: nat)
    requires i < |NavItems|
    ensures forall k :: 0 <= k < |NavItems| ==> (DesktopActive(NavItems[i].path, NavItems[k]) <==> k == i)
    ensures forall k :: 0 <= k < |NavItems| ==> (MobileActive(NavItems[i].path, NavItems[k]) <==> k == i)
  {
    // no item's path is a prefix of another's: they part at the second or third character
    forall k | 0 <= k < |NavItems| && k != i ensures !Text.StartsWith(NavItems[i].path, NavItems[k].path) {
      var a, b := NavItems[i].path, NavItems[k].path;
      assert a[1] != b[1] || a[2] != b[2];
    }
  }

  /** `user?.name?.charAt(0)?.toUpperCase() || 'U'` (ASCII case only). */
  function AvatarInitial(user: Option<Profile>): (s: string)
    ensures |s| == 1
    ensures user.Some? && user.value.name != "" ==> s == [Text.UpperChar(user.value.name[0])]
    ensures user.None? || user.value.name == "" ==> s == "U"
  {
    if user.Some? && user.value.name != "" then [Text.UpperChar(user.value.name[0])] else "U"
  }

  class Shell {
    var mobileMenuOpen: bool
    const auth: Auth.AuthProvider

    constructor (auth: Auth.AuthProvider)
      ensures this.auth == auth && !mobileMenuOpen
    {
      this.auth := auth;
      mobileMenuOpen := false;
    }

    /** The menu button. */
    method ToggleMenu()
      modifies this`mobileMenuOpen
      ensures mobileMenuOpen == !old(mobileMenuOpen)
    {
      mobileMenuOpen := !mobileMenuOpen;
    }

    /** Choosing a mobile link closes the menu and goes to the item's path. */
    method ChooseMobileLink(item: NavItem) returns (goTo: string)
      modifies this`mobileMenuOpen
      ensures !mobileMenuOpen && goTo == item.path
    {
      mobileMenuOpen := false;
      goTo := item.path;
    }

    /** `handleLogout`: the session is cleared, then the router goes to /login. */
    method HandleLogout() returns (goTo: string)
      modifies auth`user, auth.browser`token, auth.browser`savedUser
      ensures auth.user.None? && auth.browser.token.None? && auth.browser.savedUser.None?
      ensures goTo == "/login"
    {
      auth.Logout();
      goTo := "/login";
    }
  }
}
