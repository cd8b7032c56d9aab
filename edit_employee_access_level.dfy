/**
 The manager's access-level editor for one employee: the record is loaded behind
 the token guard, and a submit sends the role picked in a four-option select.
 */
module EditEmployeeAccessLevel {
  import opened Wrappers
  import opened Js
  import opened Fetch
  import opened Browser
  import opened Cookies
  import opened AlertInfoContext
  import opened Guard
  import Names
  import ViewEmployeeAccessLevels

  type Employee = ViewEmployeeAccessLevels.Employee

  /** The list page a successful update and the Cancel button return to. */
  const AccessListPath: string := "/manager/employee-access-levels/view-employee-access-levels"

  /** The options of the role select, in order. */
  const SelectableRoles: seq<string> := ["Manager", "Allowed", "Pending", "Banned"]

  /** The roles offered are the four roles the landing page and the header know, with no duplicate. */
  lemma SelectableRolesAreTheFourRoles()
    ensures |SelectableRoles| == 4
    ensures forall r :: r in SelectableRoles <==> r == "Manager" || r == "Allowed" || r == "Pending" || r == "Banned"
    ensures forall i, j :: 0 <= i < j < |SelectableRoles| ==> SelectableRoles[i] != SelectableRoles[j]
  {
  }

  /** The message of the error a load catches: a bad answer's, or the format error of a missing payload. */
  function FetchError(reply: Reply<Option<Employee>>): string
  {
    if !OkAndNotFail(reply) then ErrorMessage(reply, "Failed to fetch employee data.") else "Unexpected response format."
  }

  function FetchFailedAlert(reply: Reply<Option<Employee>>): (a: AlertInfo)
    ensures a.heading == "Error Fetching Employee" && a.linkURL == "/logged-in" && a.errorCode == Some("500")
  {
    AlertInfo("Error Fetching Employee", Or(FetchError(reply), "Something went wrong while fetching employee details."),
      "Back to Dashboard", "/logged-in", Some("500"))
  }

  /** A load succeeds when the answer is ok, not "fail", and carries an object. */
  predicate Loaded(reply: Reply<Option<Employee>>)
  {
    OkAndNotFail(reply) && reply.payload.Some?
  }

  /** The effect of one load. */
  function FetchOutcome(token: Option<string>, reply: Reply<Option<Employee>>): (e: Effect)
    ensures !Truthy(token) ==> e == AlertEffect(UnauthorizedAlert)
    ensures Truthy(token) && !Loaded(reply) ==> e == AlertEffect(FetchFailedAlert(reply))
    ensures Truthy(token) && Loaded(reply) ==> e == NoEffect
  {
    if !Truthy(token) then AlertEffect(UnauthorizedAlert)
    else if !Loaded(reply) then AlertEffect(FetchFailedAlert(reply))
    else NoEffect
  }

  /** An ok answer without a record is a failure with the format message. */
  lemma MissingRecordIsAFailure(token: Option<string>, reply: Reply<Option<Employee>>)
    requires Truthy(token) && OkAndNotFail(reply) && reply.payload.None?
    ensures FetchOutcome(token, reply).alert.Some?
    ensures FetchOutcome(token, reply).alert.value.message == "Unexpected response format."
  {
  }

  /** The JSON body of the update. */
  datatype Body = Body(id: string, role: string)

  function UpdateFailedAlert(reply: Reply<()>): (a: AlertInfo)
    ensures a.heading == "Update Failed" && a.linkURL == "/logged-in" && a.errorCode == Some("500")
  {
    CaughtAlert("Update Failed", reply, "Update failed", "Something went wrong updating employee access.", "Back to Dashboard", "/logged-in", "500")
  }

  /** A submit is sent only with a token, a loaded record and a non-empty selected role. */
  predicate CanSubmit(token: Option<string>, employee: Option<Employee>, newRole: Option<string>)
  {
    Truthy(token) && employee.Some? && Truthy(newRole)
  }

  /** The effect of one submit. */
  function SubmitOutcome(canSubmit: bool, reply: Reply<()>): (e: Effect)
    ensures !canSubmit ==> e == NoEffect
    ensures canSubmit && OkAndNotFail(reply) ==> e == NavigateEffect(AccessListPath)
    ensures canSubmit && !OkAndNotFail(reply) ==> e == AlertEffect(UpdateFailedAlert(reply))
  {
    if !canSubmit then NoEffect
    else if OkAndNotFail(reply) then NavigateEffect(AccessListPath)
    else AlertEffect(UpdateFailedAlert(reply))
  }

  /** A successful update sets no alert: the list page is reached directly. */
  lemma SuccessSetsNoAlert(reply: Reply<()>)
    requires OkAndNotFail(reply)
    ensures SubmitOutcome(true, reply).alert.None?
    ensures SubmitOutcome(true, reply).navigations == [AccessListPath]
  {
  }

  /**
   A submit does anything at all exactly when the token, the loaded record and the
   selected role are all truthy; it then always navigates, and raises an alert
   exactly when the answer is not a good one.
   */
  lemma SubmitActsExactlyWhenReady(token: Option<string>, employee: Option<Employee>, newRole: Option<string>, reply: Reply<()>)
    ensures var e := SubmitOutcome(CanSubmit(token, employee, newRole), reply);
      (e != NoEffect <==> Truthy(token) && employee.Some? && Truthy(newRole)) &&
      (e != NoEffect ==> e.navigations != [] && (e.alert.None? <==> OkAndNotFail(reply)))
  {
    var e := SubmitOutcome(CanSubmit(token, employee, newRole), reply);
    if CanSubmit(token, employee, newRole) {
      assert e.navigations != [];
    }
  }

  /** Every option of the select is a truthy role, so the role check only stops a select with no value. */
  lemma SelectedOptionPassesRoleCheck(token: Option<string>, employee: Option<Employee>, k: nat)
    requires k < |SelectableRoles|
    ensures CanSubmit(token, employee, Some(SelectableRoles[k])) <==> Truthy(token) && employee.Some?
  {
  }

  class EditEmployeeAccessLevelPage {
    const window: Window
    const alerts: AlertInfoProvider
    /** The `:id` route parameter; it only goes into the load's path. */
    const id: Option<string>
    /** The token read from `document.cookie` at render. */
    const token: Option<string>
    var employee: Option<Employee>
    var loading: bool

    constructor(window: Window, alerts: AlertInfoProvider, id: Option<string>, cookie: string)
      ensures this.window == window && this.alerts == alerts && this.id == id
      ensures token == AuthToken(cookie)
      ensures employee.None? && loading
    {
      this.window := window;
      this.alerts := alerts;
      this.id := id;
      token := AuthToken(cookie);
      employee := None;
      loading := true;
    }

    /** The name line of the form: "" until a record is loaded. */
    function FullName(): (name: string)
      reads this
      ensures employee.None? ==> name == ""
      ensures employee.Some? ==>
        name == Join(Names.NameParts(employee.value.firstName, employee.value.middleName, employee.value.lastName), " ")
    {
      if employee.None? then ""
      else
        var e := employee.value;
        Names.FullNameJoinsParts(e.firstName, e.middleName, e.lastName);
        Names.FullName(e.firstName, e.middleName, e.lastName)
    }

    /** `fetchEmployeeDetails` with the server's answer `reply`; `sent` says whether the request went out. */
    method FetchEmployeeDetails(reply: Reply<Option<Employee>>) returns (sent: bool)
      modifies this`employee, this`loading, window`history, alerts`alertInfo
      ensures sent <==> Truthy(token)
      ensures !sent ==> employee == old(employee) && loading == old(loading)
      ensures sent ==> !loading
      ensures sent ==> employee == (if Loaded(reply) then reply.payload else old(employee))
      ensures AlertApplied(window, alerts, FetchOutcome(token, reply), old(window.history), old(alerts.alertInfo))
    {
      if !Truthy(token) {
        ApplyAlert(window, alerts, AlertEffect(UnauthorizedAlert));
        return false;
      }
      loading := true;
      if Loaded(reply) {
        employee := reply.payload;
        assert window.history + [] == window.history;
      } else {
        ApplyAlert(window, alerts, AlertEffect(FetchFailedAlert(reply)));
      }
      loading := false;
      sent := true;
    }

    /**
     `handleSubmit` with the select's value `newRole` and the server's answer
     `reply`; `request` is the body sent, None when the submit was ignored.
     */
    method HandleSubmit(newRole: Option<string>, reply: Reply<()>) returns (request: Option<Body>)
      modifies this`loading, window`history, alerts`alertInfo
      ensures request == (if CanSubmit(token, employee, newRole) then Some(Body(employee.value.id, newRole.value)) else None)
      ensures loading == (if request.Some? then false else old(loading))
      ensures AlertApplied(window, alerts, SubmitOutcome(CanSubmit(token, employee, newRole), reply), old(window.history), old(alerts.alertInfo))
    {
      if !CanSubmit(token, employee, newRole) {
        assert window.history + [] == window.history;
        return None;
      }
      loading := true;
      request := Some(Body(employee.value.id, newRole.value));
      ApplyAlert(window, alerts, SubmitOutcome(true, reply));
      loading := false;
    }

    /** The Cancel button. */
    method Cancel()
      modifies window`history
      ensures window.history == old(window.history) + [AccessListPath]
    {
      window.Navigate(AccessListPath);
    }
  }
}
