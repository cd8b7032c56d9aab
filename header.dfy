/**
 The staff header: a dropdown menu that opens and closes, a Manager-only
 "Employee Access Levels" button, and "User Details" and "Log Out" for everyone.
 */
module Header {
  import opened Wrappers
  import opened Js
  import opened Cookies
  import opened Browser
  import opened ShowHeader

  datatype Button = EmployeeAccessLevels | UserDetails | LogOut

  /** The buttons of the desktop bar for a role: the access button only for exactly "Manager". */
  function DesktopButtons(role: string): (buttons: seq<Button>)
    ensures EmployeeAccessLevels in buttons <==> role == "Manager"
    ensures UserDetails in buttons && LogOut in buttons
  {
    (if role == "Manager" then [EmployeeAccessLevels] else []) + [UserDetails, LogOut]
  }

  /** The buttons of the dropdown: none while it is closed, the desktop set while it is open. */
  function DropdownButtons(role: string, menuOpen: bool): (buttons: seq<Button>)
    ensures !menuOpen ==> buttons == []
    ensures menuOpen ==> buttons == DesktopButtons(role)
  {
    if menuOpen then DesktopButtons(role) else []
  }

  /** The assignment the header's logout makes to `document.cookie`. */
  const LogoutCookie: string := "auth_token=''"

  /** The header's logout leaves the token "''", which is truthy. */
  lemma LogoutLeavesTruthyToken(assignment: string)
    requires assignment == LogoutCookie
    ensures AuthToken(StoredPair(assignment)) == Some("''")
    ensures Truthy(AuthToken(StoredPair(assignment)))
  {
    assert assignment == TokenPrefix + "''";
    StoredPairOfBareAssignment(assignment);
    TokenOfSingleEntry("''");
  }

  class HeaderBar {
    const window: Window
    const header: ShowHeaderSettingsProvider
    var menuOpen: bool

    constructor(window: Window, header: ShowHeaderSettingsProvider)
      ensures this.window == window && this.header == header
      ensures !menuOpen
    {
      this.window := window;
      this.header := header;
      menuOpen := false;
    }

    /** `toggleMenu`. */
    method ToggleMenu()
      modifies this`menuOpen
      ensures menuOpen == !old(menuOpen)
    {
      menuOpen := !menuOpen;
    }

    /** `goToEmployeeAccessLevels`. */
    method GoToEmployeeAccessLevels()
      modifies window`history, this`menuOpen
      ensures window.history == old(window.history) + ["/manager/employee-access-levels/view-employee-access-levels"]
      ensures !menuOpen
    {
      window.Navigate("/manager/employee-access-levels/view-employee-access-levels");
      menuOpen := false;
    }

    /** `goToViewUserDetails`. */
    method GoToViewUserDetails()
      modifies window`history, this`menuOpen
      ensures window.history == old(window.history) + ["/user-details/view-user-details"]
      ensures !menuOpen
    {
      window.Navigate("/user-details/view-user-details");
      menuOpen := false;
    }

    /** `logOutHandler`: writes the cookie, resets the settings, goes home and closes the menu. */
    method LogOut()
      modifies window`cookieWrites, window`history, header`settings, this`menuOpen
      ensures window.cookieWrites == old(window.cookieWrites) + [LogoutCookie]
      ensures header.provided ==> header.settings == DefaultSettings
      ensures !header.provided ==> header.settings == old(header.settings)
      ensures window.history == old(window.history) + ["/"]
      ensures !menuOpen
    {
      window.WriteCookie(LogoutCookie);
      header.SetSettingsHandler(false, "Pending");
      window.Navigate("/");
      menuOpen := false;
    }
  }

  /** Toggling twice restores the menu; a navigation after any toggling leaves it closed. */
  method ToggleTwiceThenNavigate() returns (afterToggles: bool, afterNavigation: bool)
    ensures !afterToggles && !afterNavigation
  {
    var window := new Window();
    var settings := new ShowHeaderSettingsProvider(true);
    var bar := new HeaderBar(window, settings);
    bar.ToggleMenu();
    bar.ToggleMenu();
    afterToggles := bar.menuOpen;
    bar.ToggleMenu();
    bar.GoToViewUserDetails();
    afterNavigation := bar.menuOpen;
  }
}
