/**
 The signed-in user's profile: loaded once behind the token guard, shown with
 the full name, and offering the two edit pages for the loaded id.
 */
module ViewUserDetails {
  import opened Wrappers
  import opened Js
  import opened Fetch
  import opened Browser
  import opened Cookies
  import opened AlertInfoContext
  import opened Guard
  import Names

  datatype UserDetails = UserDetails(
    firstName: string,
    middleName: Option<string>,
    lastName: string,
    email: string,
    role: string,
    id: string)

  function FetchFailedAlert(reply: Reply<Option<UserDetails>>): (a: AlertInfo)
    ensures a.heading == "Error Fetching Details" && a.linkURL == "/" && a.errorCode == Some("500")
  {
    CaughtAlert("Error Fetching Details", reply, "Failed to fetch user details.", "Something went wrong.", "Back to Home", "/", "500")
  }

  /** The effect of one load: the Unauthorized alert without a token, the failure alert on a bad answer, else none. */
  function FetchOutcome(token: Option<string>, reply: Reply<Option<UserDetails>>): (e: Effect)
    ensures !Truthy(token) ==> e == AlertEffect(UnauthorizedAlert)
    ensures Truthy(token) && !OkAndNotFail(reply) ==> e == AlertEffect(FetchFailedAlert(reply))
    ensures Truthy(token) && OkAndNotFail(reply) ==> e == NoEffect
  {
    if !Truthy(token) then AlertEffect(UnauthorizedAlert)
    else if !OkAndNotFail(reply) then AlertEffect(FetchFailedAlert(reply))
    else NoEffect
  }

  /** The path of the details editor for a user id. */
  function EditDetailsPath(id: string): string
  {
    "/user-details/edit-user-details/" + id
  }

  /** The path of the password editor for a user id. */
  function EditPasswordPath(id: string): string
  {
    "/user-details/edit-user-password/" + id
  }

  /** The two edit paths differ for every id, and differ between ids. */
  lemma EditPathsAreDistinct(id: string, other: string)
    ensures EditDetailsPath(id) != EditPasswordPath(other)
    ensures EditDetailsPath(id) == EditDetailsPath(other) <==> id == other
    ensures EditPasswordPath(id) == EditPasswordPath(other) <==> id == other
  {
    assert EditDetailsPath(id)[24] == 'd' && EditPasswordPath(other)[24] == 'p';
    if EditDetailsPath(id) == EditDetailsPath(other) {
      assert id == EditDetailsPath(id)[32..];
    }
    if EditPasswordPath(id) == EditPasswordPath(other) {
      assert id == EditPasswordPath(id)[33..];
    }
  }

  class ViewUserDetailsPage {
    const window: Window
    const alerts: AlertInfoProvider
    /** The token read from `document.cookie` at render. */
    const token: Option<string>
    /** None until a record arrives, and after an ok answer that carries no `payload`. */
    var userDetails: Option<UserDetails>
    var loading: bool

    /** The profile card is shown only once loading is over and a record is there. */
    predicate ShowsCard()
      reads this
    {
      !loading && userDetails.Some?
    }

    constructor(window: Window, alerts: AlertInfoProvider, cookie: string)
      ensures this.window == window && this.alerts == alerts
      ensures token == AuthToken(cookie)
      ensures userDetails.None? && loading
    {
      this.window := window;
      this.alerts := alerts;
      token := AuthToken(cookie);
      userDetails := None;
      loading := true;
    }

    /**
     `fetchUserDetails` with the server's answer `reply`; `sent` says whether the
     request went out. Without a token `loading` keeps its value, so the loader
     stays up behind the alert.
     */
    method FetchUserDetails(reply: Reply<Option<UserDetails>>) returns (sent: bool)
      modifies this`userDetails, this`loading, window`history, alerts`alertInfo
      ensures sent <==> Truthy(token)
      ensures !sent ==> userDetails == old(userDetails) && loading == old(loading)
      ensures sent ==> !loading
      ensures sent ==> userDetails == (if OkAndNotFail(reply) then reply.payload else old(userDetails))
      ensures sent && OkAndNotFail(reply) && reply.payload.None? ==> !ShowsCard()
      ensures AlertApplied(window, alerts, FetchOutcome(token, reply), old(window.history), old(alerts.alertInfo))
    {
      if !Truthy(token) {
        ApplyAlert(window, alerts, AlertEffect(UnauthorizedAlert));
        return false;
      }
      loading := true;
      if OkAndNotFail(reply) {
        userDetails := reply.payload;
        assert window.history + [] == window.history;
      } else {
        ApplyAlert(window, alerts, AlertEffect(FetchFailedAlert(reply)));
      }
      loading := false;
      sent := true;
    }

    /** `fullName()`: "" before anything is loaded. */
    function FullName(): (name: string)
      reads this
      ensures userDetails.None? ==> name == ""
      ensures userDetails.Some? ==>
        name == Join(Names.NameParts(userDetails.value.firstName, userDetails.value.middleName, userDetails.value.lastName), " ")
    {
      if userDetails.None? then ""
      else
        var u := userDetails.value;
        Names.FullNameJoinsParts(u.firstName, u.middleName, u.lastName);
        Names.FullName(u.firstName, u.middleName, u.lastName)
    }

    /** `goToEditUserDetails`: nothing before anything is loaded. */
    method GoToEditUserDetails()
      modifies window`history
      ensures window.history == old(window.history) + (if userDetails.Some? then [EditDetailsPath(userDetails.value.id)] else [])
    {
      if userDetails.Some? {
        window.Navigate(EditDetailsPath(userDetails.value.id));
      } else {
        assert window.history + [] == window.history;
      }
    }

    /** `goToEditUserPassword`: nothing before anything is loaded. */
    method GoToEditUserPassword()
      modifies window`history
      ensures window.history == old(window.history) + (if userDetails.Some? then [EditPasswordPath(userDetails.value.id)] else [])
    {
      if userDetails.Some? {
        window.Navigate(EditPasswordPath(userDetails.value.id));
      } else {
        assert window.history + [] == window.history;
      }
    }
  }
}
