/**
 The password change of a signed-in user: the token guard first, then the
 new-password confirmation, then the request; success returns to the landing
 page, a failure is announced on the alert page.
 */
module EditUserPassword {
  import opened Wrappers
  import opened Js
  import opened Fetch
  import opened Browser
  import opened Cookies
  import opened AlertInfoContext
  import opened Guard

  const MismatchMessage: string := "New password and Confirm New Password do not match."

  /** The JSON body of the update: the confirmation is not sent. */
  datatype Body = Body(currentPassword: string, newPassword: string)

  /** The update request: the `:id` route parameter goes into the path, as "undefined" when absent. */
  datatype Request = Request(id: Option<string>, body: Body)

  function FailedAlert(reply: Reply<()>): (a: AlertInfo)
    ensures a.heading == "Password Update Failed" && a.linkURL == "/logged-in" && a.errorCode == Some("500")
    ensures a.message != ""
  {
    CaughtAlert("Password Update Failed", reply, "Password update failed.",
      "Something went wrong while updating your password.", "Back to Dashboard", "/logged-in", "500")
  }

  /** The effect of an answered update: the landing page, or the failure alert when the answer is not ok or says "fail". */
  function ReplyEffect(reply: Reply<()>): (e: Effect)
    ensures OkAndNotFail(reply) ==> e == NavigateEffect("/logged-in")
    ensures !OkAndNotFail(reply) ==> e == AlertEffect(FailedAlert(reply))
  {
    if OkAndNotFail(reply) then NavigateEffect("/logged-in") else AlertEffect(FailedAlert(reply))
  }

  /** The effect of one submit, in the order of its checks. */
  function SubmitOutcome(token: Option<string>, newPassword: string, confirmNewPassword: string, reply: Reply<()>): (e: Effect)
    ensures !Truthy(token) ==> e == AlertEffect(UnauthorizedAlert)
    ensures Truthy(token) && newPassword != confirmNewPassword ==> e == NoEffect
    ensures Truthy(token) && newPassword == confirmNewPassword ==> e == ReplyEffect(reply)
  {
    if !Truthy(token) then AlertEffect(UnauthorizedAlert)
    else if newPassword != confirmNewPassword then NoEffect
    else ReplyEffect(reply)
  }

  /** The token check comes first: without a token even a mismatched pair goes to the Unauthorized alert. */
  lemma TokenCheckedBeforeMismatch(newPassword: string, confirmNewPassword: string, reply: Reply<()>)
    requires newPassword != confirmNewPassword
    ensures SubmitOutcome(None, newPassword, confirmNewPassword, reply).alert == Some(UnauthorizedAlert)
    ensures SubmitOutcome(Some(""), newPassword, confirmNewPassword, reply).alert == Some(UnauthorizedAlert)
  {
  }

  /** Every submit with a token and a matching pair ends on a page: the landing page exactly when the answer is ok and not "fail". */
  lemma SentUpdateAlwaysNavigates(token: Option<string>, password: string, reply: Reply<()>)
    requires Truthy(token)
    ensures |SubmitOutcome(token, password, password, reply).navigations| == 1
    ensures SubmitOutcome(token, password, password, reply).navigations[0] == "/logged-in" <==> OkAndNotFail(reply)
  {
  }

  class EditUserPasswordPage {
    const window: Window
    const alerts: AlertInfoProvider
    /** The `:id` route parameter. */
    const id: Option<string>
    /** The token read from `document.cookie` at render. */
    const token: Option<string>
    var currentPassword: string
    var newPassword: string
    var confirmNewPassword: string
    var loading: bool
    var validationError: string

    constructor(window: Window, alerts: AlertInfoProvider, id: Option<string>, cookie: string)
      ensures this.window == window && this.alerts == alerts && this.id == id
      ensures token == AuthToken(cookie)
      ensures currentPassword == "" && newPassword == "" && confirmNewPassword == ""
      ensures !loading && validationError == ""
    {
      this.window := window;
      this.alerts := alerts;
      this.id := id;
      token := AuthToken(cookie);
      currentPassword := "";
      newPassword := "";
      confirmNewPassword := "";
      loading := false;
      validationError := "";
    }

    /** `handleSubmit` with the server's answer `reply`; `request` is None when a check stopped the submit. */
    method HandleSubmit(reply: Reply<()>) returns (request: Option<Request>)
      modifies this`loading, this`validationError, window`history, alerts`alertInfo
      ensures !Truthy(token) ==> validationError == old(validationError)
      ensures Truthy(token) ==> validationError == (if newPassword != confirmNewPassword then MismatchMessage else "")
      ensures request == (if Truthy(token) && newPassword == confirmNewPassword
                          then Some(Request(id, Body(currentPassword, newPassword))) else None)
      ensures loading == (if request.Some? then false else old(loading))
      ensures AlertApplied(window, alerts, SubmitOutcome(token, newPassword, confirmNewPassword, reply),
                           old(window.history), old(alerts.alertInfo))
    {
      if !Truthy(token) {
        ApplyAlert(window, alerts, AlertEffect(UnauthorizedAlert));
        return None;
      }
      if newPassword != confirmNewPassword {
        validationError := MismatchMessage;
        assert window.history + [] == window.history;
        return None;
      }
      validationError := "";
      loading := true;
      request := Some(Request(id, Body(currentPassword, newPassword)));
      ApplyAlert(window, alerts, ReplyEffect(reply));
      loading := false;
    }

    /** The Cancel button: back to the landing page, whatever was typed. */
    method Cancel()
      modifies window`history
      ensures window.history == old(window.history) + ["/logged-in"]
    {
      window.Navigate("/logged-in");
    }
  }
}
