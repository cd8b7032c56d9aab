/**
 The landing page after login: what it shows for each role, its two navigation
 buttons and its logout handler.
 */
module LoggedIn {
  import opened Wrappers
  import opened Js
  import opened Cookies
  import opened Browser
  import opened ShowHeader

  /** What the page renders. `Blank` is the `undefined` returned for any other role. */
  datatype Screen = Welcome | PendingNotice | BannedNotice | Blank

  datatype Button = TableReservation | FlemmyngMenu | LogOut

  /** The screen for a role; roles are compared exactly. */
  function ScreenFor(role: string): (s: Screen)
    ensures s == Welcome <==> role == "Manager" || role == "Allowed"
    ensures s == PendingNotice <==> role == "Pending"
    ensures s == BannedNotice <==> role == "Banned"
    ensures s == Blank <==> role !in {"Manager", "Allowed", "Pending", "Banned"}
  {
    if role == "Manager" || role == "Allowed" then Welcome
    else if role == "Pending" then PendingNotice
    else if role == "Banned" then BannedNotice
    else Blank
  }

  /** The buttons each screen offers. */
  function ButtonsOf(s: Screen): (buttons: seq<Button>)
    ensures s == Welcome ==> buttons == [TableReservation, FlemmyngMenu]
    ensures s in {PendingNotice, BannedNotice} ==> buttons == [LogOut]
    ensures s == Blank ==> buttons == []
  {
    match s
    case Welcome => [TableReservation, FlemmyngMenu]
    case PendingNotice => [LogOut]
    case BannedNotice => [LogOut]
    case Blank => []
  }

  /** Only the staff roles reach the reservation and menu buttons; the others can only log out, or see nothing. */
  lemma OnlyStaffCanNavigate(role: string)
    ensures TableReservation in ButtonsOf(ScreenFor(role)) <==> role == "Manager" || role == "Allowed"
    ensures LogOut in ButtonsOf(ScreenFor(role)) <==> role == "Pending" || role == "Banned"
  {
  }

  /** The assignment the logout handler makes to `document.cookie`. */
  const LogoutCookie: string := LogoutPair + ";" + LogoutAttributes

  /** The name-value part of the logout assignment: the value is two quote characters. */
  const LogoutPair: string := "auth_token=\"\""

  /** The attributes of the logout assignment; max-age is 60 seconds. */
  const LogoutAttributes: string := " path=/; max-age=60; Secure; SameSite=Strict"

  /**
   The cookie left by logout still carries a token: the two quote characters,
   which the pages' `!token` guard lets through.
   */
  lemma LogoutLeavesTruthyToken(assignment: string)
    requires assignment == LogoutCookie
    ensures AuthToken(StoredPair(assignment)) == Some("\"\"")
    ensures Truthy(AuthToken(StoredPair(assignment)))
  {
    assert LogoutPair == TokenPrefix + "\"\"";
    StoredPairOfAssignment(LogoutPair, LogoutAttributes);
    TokenOfSingleEntry("\"\"");
  }

  class LoggedInPage {
    const window: Window
    const header: ShowHeaderSettingsProvider

    constructor(window: Window, header: ShowHeaderSettingsProvider)
      ensures this.window == window && this.header == header
    {
      this.window := window;
      this.header := header;
    }

    /** The role read from the settings register at render. */
    function Screen(): Screen
      reads header
    {
      ScreenFor(header.settings.role)
    }

    /** `logoutHandler`: writes the cookie, resets the settings to (false, "Pending") and goes home. */
    method Logout()
      modifies window`cookieWrites, window`history, header`settings
      ensures window.cookieWrites == old(window.cookieWrites) + [LogoutCookie]
      ensures header.provided ==> header.settings == DefaultSettings
      ensures !header.provided ==> header.settings == old(header.settings)
      ensures window.history == old(window.history) + ["/"]
    {
      window.WriteCookie(LogoutCookie);
      header.SetSettingsHandler(false, "Pending");
      window.Navigate("/");
    }

    /** `goToTableReservationHandler`. */
    method GoToTableReservation()
      modifies window`history
      ensures window.history == old(window.history) + ["/table-reservation-overview"]
    {
      window.Navigate("/table-reservation-overview");
    }

    /** `goToFlemmyngMenuHandler`. */
    method GoToFlemmyngMenu()
      modifies window`history
      ensures window.history == old(window.history) + ["/flemmyng-menu-overview"]
    {
      window.Navigate("/flemmyng-menu-overview");
    }
  }
}
