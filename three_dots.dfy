/** The three-dots navigation menu: an open/closed flag, whether a user is
    signed in, and the login guard applied when an item is chosen. */
module ThreeDots {
  import opened Common

  datatype MenuItem = MenuItem(caption: string, route: string, icon: string)

  const LOGIN_ROUTE := "/login"

  /** The routes a signed-out user may still reach. */
  predicate IsPublicRoute(route: string)
  {
    route == "/" || route == LOGIN_ROUTE || route == "/register"
  }

  const MENU_ITEMS: seq<MenuItem> := [
    MenuItem("Dashboard", "/dashboard", "dashboard"),
    MenuItem("Clima", "/clima", "device_thermostat"),
    MenuItem("Calidad del aire", "/calidad-aire", "air"),
    MenuItem("Nivel de Ruido", "/nivel-ruido", "graphic_eq"),
    MenuItem("Tránsito", "/transito", "person"),
    MenuItem("Cargador 1", "/cargador-1", "bolt"),
    MenuItem("Cargador 2", "/cargador-2", "bolt")
  ]

  /** Where the router is sent when `route` is chosen. */
  function NavigationTarget(loggedIn: bool, route: string): (target: string)
    ensures target == route || target == LOGIN_ROUTE
    ensures target == route <==> loggedIn || IsPublicRoute(route)
    ensures !loggedIn ==> IsPublicRoute(target)
  {
    if !loggedIn && route != "/" && route != LOGIN_ROUTE && route != "/register" then LOGIN_ROUTE
    else route
  }

  /** Every item of the menu is guarded: a signed-out user choosing any of
      them lands on the login page. */
  lemma MenuItemsNeedLogin()
    ensures forall i | 0 <= i < |MENU_ITEMS| :: NavigationTarget(false, MENU_ITEMS[i].route) == LOGIN_ROUTE
    ensures forall i | 0 <= i < |MENU_ITEMS| :: NavigationTarget(true, MENU_ITEMS[i].route) == MENU_ITEMS[i].route
  {
    forall i | 0 <= i < |MENU_ITEMS|
      ensures !IsPublicRoute(MENU_ITEMS[i].route)
    {
      var route := MENU_ITEMS[i].route;
      assert |route| > 1 && route[1] != 'l' && route[1] != 'r';
    }
  }

  class ThreeDotsMenu {
    var isMenuOpen: bool
    var isUserLoggedIn: bool
    /** The routes handed to the router, in order. */
    var navigations: seq<string>

    /** The menu starts closed and the user signed out. */
    constructor()
      ensures !isMenuOpen && !isUserLoggedIn && navigations == []
    {
      isMenuOpen := false;
      isUserLoggedIn := false;
      navigations := [];
    }

    /** `ngOnInit`: signed in exactly when the token yields a user; a failed
        lookup counts as signed out. */
    method Init(currentUser: Result<bool, string>)
      modifies this
      ensures isUserLoggedIn <==> currentUser == Ok(true)
      ensures isMenuOpen == old(isMenuOpen) && navigations == old(navigations)
    {
      match currentUser
      case Ok(found) =>
        if found {
          isUserLoggedIn := true;
        } else {
          isUserLoggedIn := false;
        }
      case Err(_) =>
        isUserLoggedIn := false;
    }

    /** Flips the menu, so two toggles in a row restore it. */
    method ToggleMenu()
      modifies this
      ensures isMenuOpen == !old(isMenuOpen)
      ensures isUserLoggedIn == old(isUserLoggedIn) && navigations == old(navigations)
    {
      isMenuOpen := !isMenuOpen;
    }

    method CloseMenu()
      modifies this
      ensures !isMenuOpen
      ensures isUserLoggedIn == old(isUserLoggedIn) && navigations == old(navigations)
    {
      isMenuOpen := false;
    }

    method OnBackdropClick()
      modifies this
      ensures !isMenuOpen
      ensures isUserLoggedIn == old(isUserLoggedIn) && navigations == old(navigations)
    {
      CloseMenu();
    }

    /** Sends the router to the guarded target and always closes the menu. */
    method NavigateTo(route: string)
      modifies this
      ensures navigations == old(navigations) + [NavigationTarget(old(isUserLoggedIn), route)]
      ensures !isMenuOpen && isUserLoggedIn == old(isUserLoggedIn)
    {
      if !isUserLoggedIn && route != "/" && route != LOGIN_ROUTE && route != "/register" {
        navigations := navigations + [LOGIN_ROUTE];
      } else {
        navigations := navigations + [route];
      }
      CloseMenu();
    }
  }
}
