/**
 * The main screen: it admits only a signed-in session, chooses the first
 * fragment, and hosts the bottom navigation, the side drawer and logout.
 */
module Main {
  import opened Wrappers
  import opened Session
  import opened Ui

  /** The bottom navigation's items; any other id is not handled. */
  datatype NavItem = NavHome | NavReports | NavMap | NavChat | OtherNavItem(id: int)

  /** The side drawer's items. */
  datatype DrawerItem = Profile | Settings | LeaderboardItem | RateUs | Contribute | Logout | OtherDrawerItem(id: int)

  /** A new user starts on report selection, everybody else on the home
      dashboard. */
  function InitialScreen(isNewUser: bool): (f: Fragment)
    ensures f == ReportSelection <==> isNewUser
    ensures f == Home <==> !isNewUser
  {
    if isNewUser then ReportSelection else Home
  }

  /** Where a bottom-navigation item leads; None for an item it does not
      handle. */
  function BottomNavTarget(item: NavItem): (r: Option<Fragment>)
    ensures r.None? <==> item.OtherNavItem?
    ensures r.Some? ==> r.value in {Home, MyReports, MapView, Chat}
    ensures item == NavHome ==> r == Some(Home)
    ensures item == NavReports ==> r == Some(MyReports)
    ensures item == NavMap ==> r == Some(MapView)
    ensures item == NavChat ==> r == Some(Chat)
  {
    match item
    case NavHome => Some(Home)
    case NavReports => Some(MyReports)
    case NavMap => Some(MapView)
    case NavChat => Some(Chat)
    case OtherNavItem(_) => None
  }

  /** The four handled items lead to four different screens. */
  lemma BottomNavDistinct(a: NavItem, b: NavItem)
    requires BottomNavTarget(a).Some? && BottomNavTarget(b).Some? && a != b
    ensures BottomNavTarget(a) != BottomNavTarget(b)
  {
  }

  /** The placeholder toast of a drawer item that has no screen yet. */
  function DrawerToast(item: DrawerItem): (r: Option<string>)
    ensures r.Some? <==> item in {Profile, Settings, RateUs, Contribute}
    ensures item == Profile ==> r == Some("Profile")
    ensures item == Settings ==> r == Some("Settings")
    ensures item == RateUs ==> r == Some("Rate Us")
    ensures item == Contribute ==> r == Some("Contribute")
  {
    match item
    case Profile => Some("Profile")
    case Settings => Some("Settings")
    case RateUs => Some("Rate Us")
    case Contribute => Some("Contribute")
    case _ => None
  }

  class MainScreen {
    const session: SessionManager
    /** The sign-in screen was started and this one finished. */
    var routedToAuth: bool
    /** The header, the drawer and the navigation handlers were set up. */
    var handlersInstalled: bool
    /** The fragment shown in the host container. */
    var fragment: Option<Fragment>
    var drawerOpen: bool
    var logoutDialogShown: bool
    /** The name and e-mail shown in the drawer header. */
    var headerName: Option<string>
    var headerEmail: Option<string>

    ghost predicate Valid()
      reads this, session
    {
      session.Valid() && (routedToAuth ==> !handlersInstalled)
    }

    /** `onCreate`: without a signed-in session it routes to the sign-in
        screen and sets up nothing; otherwise it fills the drawer header from
        the session and shows the first fragment. */
    constructor OnCreate(session: SessionManager, isNewUser: bool)
      requires session.Valid()
      ensures this.session == session && Valid()
      ensures routedToAuth <==> !session.IsLoggedIn()
      ensures !session.IsLoggedIn() ==> !handlersInstalled && fragment.None?
      ensures session.IsLoggedIn() ==>
                && handlersInstalled
                && fragment == Some(InitialScreen(isNewUser))
                && headerName == session.GetUserName()
                && headerEmail == session.GetUserEmail()
      ensures !drawerOpen && !logoutDialogShown
    {
      this.session := session;
      drawerOpen := false;
      logoutDialogShown := false;
      headerName := None;
      headerEmail := None;
      fragment := None;
      if !session.IsLoggedIn() {
        routedToAuth := true;
        handlersInstalled := false;
      } else {
        routedToAuth := false;
        headerName := session.GetUserName();
        headerEmail := session.GetUserEmail();
        handlersInstalled := true;
        fragment := Some(InitialScreen(isNewUser));
      }
    }

    /** The profile icon opens the drawer. */
    method OpenDrawer()
      requires Valid() && handlersInstalled
      modifies this
      ensures Valid() && drawerOpen
      ensures fragment == old(fragment) && logoutDialogShown == old(logoutDialogShown)
      ensures handlersInstalled && routedToAuth == old(routedToAuth)
      ensures headerName == old(headerName) && headerEmail == old(headerEmail)
    {
      drawerOpen := true;
    }

    /** A bottom-navigation selection: a handled item replaces the fragment
        and answers true; any other item changes nothing and answers false. */
    method OnBottomNavItem(item: NavItem) returns (handled: bool)
      requires Valid() && handlersInstalled
      modifies this
      ensures Valid() && handlersInstalled
      ensures handled <==> BottomNavTarget(item).Some?
      ensures fragment == if handled then BottomNavTarget(item) else old(fragment)
      ensures drawerOpen == old(drawerOpen) && logoutDialogShown == old(logoutDialogShown)
      ensures routedToAuth == old(routedToAuth)
      ensures headerName == old(headerName) && headerEmail == old(headerEmail)
    {
      var target := BottomNavTarget(item);
      if target.Some? {
        fragment := target;
        handled := true;
      } else {
        handled := false;
      }
    }

    /** A drawer selection: whatever the item, the drawer closes and the
        selection is reported handled. Leaderboard opens its fragment, logout
        asks for confirmation, the rest only show a toast. */
    method OnDrawerItem(item: DrawerItem) returns (handled: bool, toast: Option<string>)
      requires Valid() && handlersInstalled
      modifies this
      ensures Valid() && handlersInstalled
      ensures handled && !drawerOpen
      ensures toast == DrawerToast(item)
      ensures fragment == if item == LeaderboardItem then Some(Leaderboard) else old(fragment)
      ensures logoutDialogShown == (old(logoutDialogShown) || item == Logout)
      ensures routedToAuth == old(routedToAuth)
      ensures headerName == old(headerName) && headerEmail == old(headerEmail)
    {
      toast := DrawerToast(item);
      if item == LeaderboardItem {
        fragment := Some(Leaderboard);
      } else if item == Logout {
        logoutDialogShown := true;
      }
      drawerOpen := false;
      handled := true;
    }

    /** "Yes" in the logout dialog: the session is wiped, then the sign-in
        screen opens. */
    method ConfirmLogout()
      requires Valid() && logoutDialogShown
      modifies this, session
      ensures Valid()
      ensures session.prefs == map[] && !session.IsLoggedIn()
      ensures routedToAuth && !logoutDialogShown && !handlersInstalled
      ensures fragment == old(fragment) && drawerOpen == old(drawerOpen)
      ensures headerName == old(headerName) && headerEmail == old(headerEmail)
    {
      session.ClearSession();
      logoutDialogShown := false;
      routedToAuth := true;
      handlersInstalled := false;
    }

    /** "Cancel" in the logout dialog only dismisses it. */
    method CancelLogout()
      requires Valid() && logoutDialogShown
      modifies this
      ensures Valid() && !logoutDialogShown
      ensures fragment == old(fragment) && drawerOpen == old(drawerOpen)
      ensures handlersInstalled == old(handlersInstalled) && routedToAuth == old(routedToAuth)
      ensures headerName == old(headerName) && headerEmail == old(headerEmail)
    {
      logoutDialogShown := false;
    }

    /** Back: with the drawer open it only closes the drawer; otherwise the
        default back handling runs (reported as `defaultBack`). */
    method OnBackPressed() returns (defaultBack: bool)
      requires Valid()
      modifies this
      ensures Valid()
      ensures defaultBack <==> !old(drawerOpen)
      ensures !drawerOpen
      ensures fragment == old(fragment) && logoutDialogShown == old(logoutDialogShown)
      ensures handlersInstalled == old(handlersInstalled) && routedToAuth == old(routedToAuth)
      ensures headerName == old(headerName) && headerEmail == old(headerEmail)
    {
      if drawerOpen {
        drawerOpen := false;
        defaultBack := false;
      } else {
        defaultBack := true;
      }
    }
  }
}
