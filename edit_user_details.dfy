/**
 The details editor of a signed-in user: the record is loaded behind the token
 guard and prefills four uncontrolled inputs; a submit sends whatever the inputs
 hold, all four fields every time.
 */
module EditUserDetails {
  import opened Wrappers
  import opened Js
  import opened Fetch
  import opened Browser
  import opened Cookies
  import opened AlertInfoContext
  import opened Guard

  datatype UserDetails = UserDetails(firstName: string, middleName: Option<string>, lastName: string, email: string)

  /** The four input values, and the JSON body of the update. */
  datatype Fields = Fields(firstName: string, middleName: string, lastName: string, email: string)

  /** The `defaultValue` of each input: an absent or null middle name shows as "". */
  function Prefill(user: UserDetails): (f: Fields)
    ensures f.firstName == user.firstName && f.lastName == user.lastName && f.email == user.email
    ensures f.middleName == (if user.middleName.Some? then user.middleName.value else "")
  {
    Fields(user.firstName, if user.middleName.Some? then user.middleName.value else "", user.lastName, user.email)
  }

  /** Saving untouched inputs sends the loaded record back, with the middle name as "" rather than left out. */
  lemma UntouchedSaveSendsRecordBack(user: UserDetails)
    requires user.middleName.None?
    ensures Prefill(user) == Fields(user.firstName, "", user.lastName, user.email)
  {
  }

  function FetchFailedAlert(reply: Reply<Option<UserDetails>>): (a: AlertInfo)
    ensures a.heading == "Error Fetching Details" && a.linkURL == "/logged-in" && a.errorCode == Some("500")
  {
    CaughtAlert("Error Fetching Details", reply, "Failed to fetch user details.", "Something went wrong.", "Back to Dashboard", "/logged-in", "500")
  }

  function UpdateFailedAlert(reply: Reply<()>): (a: AlertInfo)
    ensures a.heading == "Update Failed" && a.linkURL == "/logged-in" && a.errorCode == Some("500")
  {
    CaughtAlert("Update Failed", reply, "Update failed", "Something went wrong while updating your details.", "Back to Dashboard", "/logged-in", "500")
  }

  /** The effect of one load. */
  function FetchOutcome(token: Option<string>, reply: Reply<Option<UserDetails>>): (e: Effect)
    ensures !Truthy(token) ==> e == AlertEffect(UnauthorizedAlert)
    ensures Truthy(token) && !OkAndNotFail(reply) ==> e == AlertEffect(FetchFailedAlert(reply))
    ensures Truthy(token) && OkAndNotFail(reply) ==> e == NoEffect
  {
    if !Truthy(token) then AlertEffect(UnauthorizedAlert)
    else if !OkAndNotFail(reply) then AlertEffect(FetchFailedAlert(reply))
    else NoEffect
  }

  /** A submit is sent only with a token, a loaded user and an id in the route. */
  predicate CanSubmit(token: Option<string>, user: Option<UserDetails>, id: Option<string>)
  {
    Truthy(token) && user.Some? && Truthy(id)
  }

  /** The effect of one submit: nothing unless it can be sent, else the landing page or the failure alert. */
  function SubmitOutcome(canSubmit: bool, reply: Reply<()>): (e: Effect)
    ensures !canSubmit ==> e == NoEffect
    ensures canSubmit && OkAndNotFail(reply) ==> e == NavigateEffect("/logged-in")
    ensures canSubmit && !OkAndNotFail(reply) ==> e == AlertEffect(UpdateFailedAlert(reply))
  {
    if !canSubmit then NoEffect
    else if OkAndNotFail(reply) then NavigateEffect("/logged-in")
    else AlertEffect(UpdateFailedAlert(reply))
  }

  /** A sent update always leaves the page, and every way out leads back to the landing page. */
  lemma SentUpdateEndsAtLandingPage(reply: Reply<()>)
    ensures |SubmitOutcome(true, reply).navigations| == 1
    ensures SubmitOutcome(true, reply).navigations[0] == "/logged-in" || SubmitOutcome(true, reply).alert.value.linkURL == "/logged-in"
  {
  }

  class EditUserDetailsPage {
    const window: Window
    const alerts: AlertInfoProvider
    /** The `:id` route parameter. */
    const id: Option<string>
    /** The token read from `document.cookie` at render. */
    const token: Option<string>
    /** None until a record arrives, and after an ok answer that carries no `payload`. */
    var user: Option<UserDetails>
    var loading: bool

    constructor(window: Window, alerts: AlertInfoProvider, id: Option<string>, cookie: string)
      ensures this.window == window && this.alerts == alerts && this.id == id
      ensures token == AuthToken(cookie)
      ensures user.None? && loading
    {
      this.window := window;
      this.alerts := alerts;
      this.id := id;
      token := AuthToken(cookie);
      user := None;
      loading := true;
    }

    /** The form is shown only once loading is over and a record is there. */
    predicate ShowsForm()
      reads this
    {
      !loading && user.Some?
    }

    /** `fetchUserDetails` with the server's answer `reply`; `sent` says whether the request went out. */
    method FetchUserDetails(reply: Reply<Option<UserDetails>>) returns (sent: bool)
      modifies this`user, this`loading, window`history, alerts`alertInfo
      ensures sent <==> Truthy(token)
      ensures !sent ==> user == old(user) && loading == old(loading)
      ensures sent ==> !loading
      ensures sent ==> user == (if OkAndNotFail(reply) then reply.payload else old(user))
      ensures sent && OkAndNotFail(reply) && reply.payload.None? ==> !ShowsForm()
      ensures AlertApplied(window, alerts, FetchOutcome(token, reply), old(window.history), old(alerts.alertInfo))
    {
      if !Truthy(token) {
        ApplyAlert(window, alerts, AlertEffect(UnauthorizedAlert));
        return false;
      }
      loading := true;
      if OkAndNotFail(reply) {
        user := reply.payload;
        assert window.history + [] == window.history;
      } else {
        ApplyAlert(window, alerts, AlertEffect(FetchFailedAlert(reply)));
      }
      loading := false;
      sent := true;
    }

    /**
     `handleSubmit` with the values the four inputs hold and the server's answer
     `reply`; `request` is the id and body sent, None when the submit was ignored.
     */
    method HandleSubmit(inputs: Fields, reply: Reply<()>) returns (request: Option<(string, Fields)>)
      modifies this`loading, window`history, alerts`alertInfo
      ensures request == (if CanSubmit(token, user, id) then Some((id.value, inputs)) else None)
      ensures loading == (if CanSubmit(token, user, id) then false else old(loading))
      ensures AlertApplied(window, alerts, SubmitOutcome(CanSubmit(token, user, id), reply), old(window.history), old(alerts.alertInfo))
    {
      if !CanSubmit(token, user, id) {
        assert window.history + [] == window.history;
        return None;
      }
      loading := true;
      request := Some((id.value, inputs));
      ApplyAlert(window, alerts, SubmitOutcome(true, reply));
      loading := false;
    }
  }
}
