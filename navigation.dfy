/** The navigation bar (src/app/components/Navigation.tsx): the menu each
    role sees, which item is highlighted, and the mobile menu's open flag.
    The bar's `onNavigate` and `onLogout` callbacks are the session's
    handlers, so the click handlers here act on an `App.Session`. */
module Navigation {
  import opened Common
  import opened App

  /** A menu entry; the icon is presentation and is not modelled. */
  datatype NavItem = NavItem(id: Screen, title: string)

  /** `navItems`: the menu for the role the bar is given. */
  function NavItems(role: Option<Role>): seq<NavItem>
  {
    if role == Some(AdminRole) then
      [ NavItem(Admin, "Dashboard"),
        NavItem(Files, "Files"),
        NavItem(Officers, "Officers"),
        NavItem(Alerts, "Alerts"),
        NavItem(Reports, "Reports") ]
    else if role == Some(OfficerRole) then
      [ NavItem(Files, "My Files"),
        NavItem(Alerts, "Alerts") ]
    else
      [ NavItem(Citizen, "Track File") ]
  }

  /** The screen ids of a menu, in menu order. */
  function Ids(items: seq<NavItem>): (ids: seq<Screen>)
    ensures |ids| == |items|
    ensures forall i :: 0 <= i < |items| ==> ids[i] == items[i].id
  {
    if items == [] then [] else [items[0].id] + Ids(items[1..])
  }

  /** `isActive = currentScreen === item.id`; the bar receives the screen
      as a string. */
  predicate IsActive(currentScreen: string, item: NavItem)
  {
    currentScreen == ScreenName(item.id)
  }

  /** The three menus, item by item: admin, officer, and everyone else
      (citizen and no role alike). */
  lemma MenuContents(role: Option<Role>)
    ensures role == Some(AdminRole) ==> Ids(NavItems(role)) == [Admin, Files, Officers, Alerts, Reports]
    ensures role == Some(OfficerRole) ==> Ids(NavItems(role)) == [Files, Alerts]
    ensures role != Some(AdminRole) && role != Some(OfficerRole) ==> Ids(NavItems(role)) == [Citizen]
  {
  }

  /** No menu lists a screen twice, and none offers the login screen. */
  lemma MenuWellFormed(role: Option<Role>)
    ensures forall i, j :: 0 <= i < j < |NavItems(role)| ==> NavItems(role)[i].id != NavItems(role)[j].id
    ensures forall i :: 0 <= i < |NavItems(role)| ==> NavItems(role)[i].id != Login
  {
  }

  /** At most one item of a menu is highlighted, whatever string the bar
      receives as the current screen. */
  lemma AtMostOneActive(role: Option<Role>, currentScreen: string, i: nat, j: nat)
    requires i < |NavItems(role)| && j < |NavItems(role)|
    requires IsActive(currentScreen, NavItems(role)[i]) && IsActive(currentScreen, NavItems(role)[j])
    ensures i == j
  {
    MenuWellFormed(role);
    ParseScreenName(NavItems(role)[i].id);
    ParseScreenName(NavItems(role)[j].id);
  }

  /** The screen a role lands on after logging in is in that role's own
      menu, so it is highlighted there. */
  lemma LandingScreenInMenu(r: Role)
    ensures LandingScreen(r) in Ids(NavItems(Some(r)))
    ensures exists i :: 0 <= i < |NavItems(Some(r))| && IsActive(ScreenName(LandingScreen(r)), NavItems(Some(r))[i])
  {
    var items := NavItems(Some(r));
    var i := 0;  // every landing screen heads its role's menu
    assert items[i].id == LandingScreen(r);
    assert Ids(items)[i] == LandingScreen(r);
  }

  /** The bar's own state. */
  class NavigationBar {
    var mobileMenuOpen: bool

    /** `useState(false)`. */
    constructor ()
      ensures !mobileMenuOpen
    {
      mobileMenuOpen := false;
    }

    /** The menu button: `setMobileMenuOpen(!mobileMenuOpen)`. */
    method ToggleMobileMenu()
      modifies this
      ensures mobileMenuOpen == !old(mobileMenuOpen)
    {
      mobileMenuOpen := !mobileMenuOpen;
    }

    /** A desktop menu item. Every screen renders a bar of its own, so
        moving to another screen replaces this bar by that screen's, which
        starts closed (`useState(false)`); choosing the screen already shown
        keeps this bar and its flag. `mobileMenuOpen` is the flag of the bar
        on display. */
    method SelectDesktopItem(app: Session, item: NavItem)
      modifies this, app
      ensures app.State() == AfterNavigate(old(app.State()), item.id)
      ensures item.id != old(app.State()).screen ==> !mobileMenuOpen
      ensures item.id == old(app.State()).screen ==> mobileMenuOpen == old(mobileMenuOpen)
    {
      var shown := app.currentScreen;
      app.Navigate(item.id);
      if item.id != shown {
        mobileMenuOpen := false;
      }
    }

    /** A mobile menu item: navigates, then closes the menu. */
    method SelectMobileItem(app: Session, item: NavItem)
      modifies this, app
      ensures app.State() == AfterNavigate(old(app.State()), item.id)
      ensures !mobileMenuOpen
    {
      app.Navigate(item.id);
      mobileMenuOpen := false;
    }

    /** The desktop logout button. The login screen shows no bar, and the
        bar of the screen reached after the next login starts closed. */
    method LogoutDesktop(app: Session)
      modifies this, app
      ensures app.State() == AfterLogout(old(app.State()))
      ensures !mobileMenuOpen
    {
      app.HandleLogout();
      mobileMenuOpen := false;
    }

    /** The mobile logout button: logs out, then closes the menu. */
    method LogoutMobile(app: Session)
      modifies this, app
      ensures app.State() == AfterLogout(old(app.State()))
      ensures !mobileMenuOpen
    {
      app.HandleLogout();
      mobileMenuOpen := false;
    }
  }
}
