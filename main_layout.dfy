/** The page chrome: the desktop and mobile navigation chosen by role, the mobile menu
    toggle, and sign-out. */
module MainLayout {
  import opened Common

  /** A link's onClick: none, `handleLogout`, `toggleMenu`, or (mobile Sign Out) prevent the
      link's own navigation, `handleLogout`, then `toggleMenu`. */
  datatype ClickHandler = NoHandler | LogoutHandler | ToggleHandler | LogoutThenToggle

  datatype NavLink = NavLink(text: string, to: string, onClick: ClickHandler)

  function DesktopNav(user: Option<AuthUser>): seq<NavLink> {
    if user.None? then [NavLink("Login", "/login", NoHandler)]
    else
      (if user.value.role == Admin || user.value.role == Manager then
         [NavLink("Dashboard", "/dashboard", NoHandler),
          NavLink("Stock Logs", "/stocks-logs", NoHandler),
          NavLink("Add Drink", "/add-drink", NoHandler)]
       else [])
      + [NavLink("All Drinks", "/drinks", NoHandler), NavLink("Sign Out", "/login", LogoutHandler)]
  }

  function MobileNav(user: Option<AuthUser>): seq<NavLink> {
    if user.None? then [NavLink("Login", "/login", ToggleHandler)]
    else
      (if user.value.role == Admin || user.value.role == Manager then
         [NavLink("Dashboard", "/dashboard", ToggleHandler),
          NavLink("Stock Logs", "/stocks-logs", ToggleHandler),
          NavLink("Add Drink", "/add-drink", ToggleHandler)]
       else [])
      + [NavLink("All Drinks", "/drinks", ToggleHandler), NavLink("Sign Out", "/login", LogoutThenToggle)]
  }

  /** What a nav offers: each link's text and target, in order. */
  function Entries(links: seq<NavLink>): (entries: seq<(string, string)>)
    ensures |entries| == |links|
    ensures forall i :: 0 <= i < |links| ==> entries[i] == (links[i].text, links[i].to)
  {
    if links == [] then [] else [(links[0].text, links[0].to)] + Entries(links[1..])
  }

  function Targets(links: seq<NavLink>): set<string> {
    set l | l in links :: l.to
  }

  /** Two navs whose links agree one by one in text and target offer the same entries. */
  lemma SameEntries(d: seq<NavLink>, m: seq<NavLink>)
    requires |d| == |m|
    requires forall i :: 0 <= i < |d| ==> d[i].text == m[i].text && d[i].to == m[i].to
    ensures Entries(d) == Entries(m) && Targets(d) == Targets(m)
  {
    forall t ensures t in Targets(d) <==> t in Targets(m) {
      if t in Targets(d) {
        var l :| l in d && l.to == t;
        var i :| 0 <= i < |d| && d[i] == l;
        assert m[i].to == t;
      }
      if t in Targets(m) {
        var l :| l in m && l.to == t;
        var i :| 0 <= i < |m| && m[i] == l;
        assert d[i].to == t;
      }
    }
  }

  /** Desktop and mobile offer the same links, in the same order, to the same user. */
  lemma NavsAgree(user: Option<AuthUser>)
    ensures Entries(DesktopNav(user)) == Entries(MobileNav(user))
    ensures Targets(DesktopNav(user)) == Targets(MobileNav(user))
  {
    SameEntries(DesktopNav(user), MobileNav(user));
  }

  /** Signed out there is only Login; a manager or admin sees the five links; anyone else only
      All Drinks and Sign Out. */
  lemma LinksByRole(user: Option<AuthUser>)
    ensures user.None? ==> Entries(DesktopNav(user)) == [("Login", "/login")]
    ensures IsManagerOrAdmin(user) ==>
              Entries(DesktopNav(user)) == [("Dashboard", "/dashboard"), ("Stock Logs", "/stocks-logs"),
                                            ("Add Drink", "/add-drink"), ("All Drinks", "/drinks"),
                                            ("Sign Out", "/login")]
    ensures user.Some? && !IsManagerOrAdmin(user) ==>
              Entries(DesktopNav(user)) == [("All Drinks", "/drinks"), ("Sign Out", "/login")]
  {
  }

  /** The management pages are linked exactly for managers and admins. */
  lemma ManagementLinksGated(user: Option<AuthUser>)
    ensures "/dashboard" in Targets(DesktopNav(user)) <==> IsManagerOrAdmin(user)
    ensures "/stocks-logs" in Targets(DesktopNav(user)) <==> IsManagerOrAdmin(user)
    ensures "/add-drink" in Targets(DesktopNav(user)) <==> IsManagerOrAdmin(user)
    ensures "/drinks" in Targets(DesktopNav(user)) <==> user.Some?
  {
    var d := DesktopNav(user);
    if IsManagerOrAdmin(user) {
      assert d[0].to == "/dashboard" && d[1].to == "/stocks-logs" && d[2].to == "/add-drink" && d[3].to == "/drinks";
    } else if user.Some? {
      assert d[0].to == "/drinks";
    }
  }

  datatype LayoutView = LoadingText | Page(desktop: seq<NavLink>, mobile: seq<NavLink>, mobileOpen: bool)

  /** While the auth state loads only the loading text is rendered. */
  function Layout(auth: AuthState, isMenuOpen: bool): (view: LayoutView)
    ensures view == LoadingText <==> auth.loading
    ensures !auth.loading ==> view.mobileOpen == isMenuOpen
  {
    if auth.loading then LoadingText else Page(DesktopNav(auth.user), MobileNav(auth.user), isMenuOpen)
  }

  const LogoutToast := "Logged out successfully"

  /** `handleLogout`: `logout()`, a toast, then to the login page. */
  function LogoutEffects(): seq<Effect> {
    [CallLogout, ToastSuccess(LogoutToast), Navigate("/login")]
  }

  class LayoutState {
    var isMenuOpen: bool
    var trace: seq<Effect>

    /** The menu starts closed. */
    constructor ()
      ensures !isMenuOpen && trace == []
    {
      isMenuOpen := false;
      trace := [];
    }

    method ToggleMenu()
      modifies this`isMenuOpen
      ensures isMenuOpen == !old(isMenuOpen)
    {
      isMenuOpen := !isMenuOpen;
    }

    method HandleLogout()
      modifies this`trace
      ensures trace == old(trace) + LogoutEffects()
    {
      trace := trace + [CallLogout];
      trace := trace + [ToastSuccess(LogoutToast)];
      trace := trace + [Navigate("/login")];
    }

    /** Clicking a link: its handler runs first, then the link navigates unless the handler
        prevented it. */
    method Click(link: NavLink)
      modifies this
      ensures link.onClick == NoHandler ==>
                isMenuOpen == old(isMenuOpen) && trace == old(trace) + [FollowLink(link.to)]
      ensures link.onClick == LogoutHandler ==>
                isMenuOpen == old(isMenuOpen) && trace == old(trace) + LogoutEffects() + [FollowLink(link.to)]
      ensures link.onClick == ToggleHandler ==>
                isMenuOpen == !old(isMenuOpen) && trace == old(trace) + [FollowLink(link.to)]
      ensures link.onClick == LogoutThenToggle ==>
                isMenuOpen == !old(isMenuOpen) && trace == old(trace) + LogoutEffects()
    {
      match link.onClick
      case NoHandler =>
        trace := trace + [FollowLink(link.to)];
      case LogoutHandler =>
        HandleLogout();
        trace := trace + [FollowLink(link.to)];
      case ToggleHandler =>
        ToggleMenu();
        trace := trace + [FollowLink(link.to)];
      case LogoutThenToggle =>
        HandleLogout();
        ToggleMenu();
    }
  }

  /** Toggling twice restores the menu. */
  method ToggleTwice(layout: LayoutState)
    modifies layout
    ensures layout.isMenuOpen == old(layout.isMenuOpen) && layout.trace == old(layout.trace)
  {
    layout.ToggleMenu();
    layout.ToggleMenu();
  }

  /** Any link of the open mobile menu leaves it closed. */
  method MobileClickClosesMenu(layout: LayoutState, user: Option<AuthUser>, i: nat)
    requires i < |MobileNav(user)| && layout.isMenuOpen
    modifies layout
    ensures !layout.isMenuOpen
  {
    layout.Click(MobileNav(user)[i]);
  }
}
