/**
 The manager's delete confirmation for one employee: the record is loaded behind
 the token guard; confirming sends the delete and always reports a deletion.
 */
module ConfirmDeleteEmployee {
  import opened Wrappers
  import opened Js
  import opened Fetch
  import opened Browser
  import opened Cookies
  import opened AlertInfoContext
  import opened Guard
  import Names
  import ViewEmployeeAccessLevels
  import EditEmployeeAccessLevel

  type Employee = ViewEmployeeAccessLevels.Employee

  function FetchFailedAlert(reply: Reply<Option<Employee>>): (a: AlertInfo)
    ensures a.heading == "Error Fetching Employee" && a.linkURL == "/logged-in" && a.errorCode == Some("500")
  {
    CaughtAlert("Error Fetching Employee", reply, "Failed to fetch employee.", "Something went wrong while loading employee details.",
      "Back to Dashboard", "/logged-in", "500")
  }

  /** The effect of one load. */
  function FetchOutcome(token: Option<string>, reply: Reply<Option<Employee>>): (e: Effect)
    ensures !Truthy(token) ==> e == AlertEffect(UnauthorizedAlert)
    ensures Truthy(token) && !OkAndNotFail(reply) ==> e == AlertEffect(FetchFailedAlert(reply))
    ensures Truthy(token) && OkAndNotFail(reply) ==> e == NoEffect
  {
    if !Truthy(token) then AlertEffect(UnauthorizedAlert)
    else if !OkAndNotFail(reply) then AlertEffect(FetchFailedAlert(reply))
    else NoEffect
  }

  /** The alert both the success and the failure branch of the delete set; no error code is passed. */
  const DeletedAlert: AlertInfo :=
    AlertInfo("Employee Deleted", "Employee has been successfully deleted", "View Employee Access List", EditEmployeeAccessLevel.AccessListPath, None)

  /** The effect of confirming: nothing without a token or id, else the deletion alert whatever the answer. */
  function DeleteOutcome(token: Option<string>, id: Option<string>, reply: Reply<()>): (e: Effect)
    ensures !Truthy(token) || !Truthy(id) ==> e == NoEffect
    ensures Truthy(token) && Truthy(id) ==> e == AlertEffect(DeletedAlert)
  {
    if !Truthy(token) || !Truthy(id) then NoEffect
    else if OkAndNotFail(reply) then AlertEffect(DeletedAlert)
    else AlertEffect(DeletedAlert)
  }

  /** The delete's outcome does not depend on the answer: a refused delete is reported as done. */
  lemma DeleteOutcomeIgnoresAnswer(token: Option<string>, id: Option<string>, reply: Reply<()>, other: Reply<()>)
    ensures DeleteOutcome(token, id, reply) == DeleteOutcome(token, id, other)
  {
  }

  class ConfirmDeleteEmployeePage {
    const window: Window
    const alerts: AlertInfoProvider
    /** The `:id` route parameter. */
    const id: Option<string>
    /** The token read from `document.cookie` at render. */
    const token: Option<string>
    /** None until a record arrives, and after an ok answer that carries no `payload`. */
    var employee: Option<Employee>
    var loading: bool

    /** The confirmation is shown only once loading is over and a record is there; otherwise the loader stays. */
    predicate ShowsDetails()
      reads this
    {
      !loading && employee.Some?
    }

    constructor(window: Window, alerts: AlertInfoProvider, id: Option<string>, cookie: string)
      ensures this.window == window && this.alerts == alerts && this.id == id
      ensures token == AuthToken(cookie)
      ensures employee.None? && loading
    {
      this.window := window;
      this.alerts := alerts;
      this.id := id;
      token := AuthToken(cookie);
      employee := None;
      loading := true;
    }

    /** The name line: "" until a record is loaded. */
    function FullName(): (name: string)
      reads this
      ensures employee.None? ==> name == ""
      ensures employee.Some? ==>
        name == Join(Names.NameParts(employee.value.firstName, employee.value.middleName, employee.value.lastName), " ")
    {
      if employee.None? then ""
      else
        var e := employee.value;
        Names.FullNameJoinsParts(e.firstName, e.middleName, e.lastName);
        Names.FullName(e.firstName, e.middleName, e.lastName)
    }

    /**
     `fetchEmployee` with the server's answer `reply`; `sent` says whether the
     request went out. It never sets `loading` to true itself.
     */
    method FetchEmployee(reply: Reply<Option<Employee>>) returns (sent: bool)
      modifies this`employee, this`loading, window`history, alerts`alertInfo
      ensures sent <==> Truthy(token)
      ensures !sent ==> employee == old(employee) && loading == old(loading)
      ensures sent ==> !loading
      ensures sent ==> employee == (if OkAndNotFail(reply) then reply.payload else old(employee))
      ensures sent && OkAndNotFail(reply) && reply.payload.None? ==> !ShowsDetails()
      ensures AlertApplied(window, alerts, FetchOutcome(token, reply), old(window.history), old(alerts.alertInfo))
    {
      if !Truthy(token) {
        ApplyAlert(window, alerts, AlertEffect(UnauthorizedAlert));
        return false;
      }
      if OkAndNotFail(reply) {
        employee := reply.payload;
        assert window.history + [] == window.history;
      } else {
        ApplyAlert(window, alerts, AlertEffect(FetchFailedAlert(reply)));
      }
      loading := false;
      sent := true;
    }

    /** `handleDelete` with the server's answer `reply`; `sent` says whether the delete went out. */
    method HandleDelete(reply: Reply<()>) returns (sent: bool)
      modifies this`loading, window`history, alerts`alertInfo
      ensures sent <==> Truthy(token) && Truthy(id)
      ensures loading == (if sent then false else old(loading))
      ensures AlertApplied(window, alerts, DeleteOutcome(token, id, reply), old(window.history), old(alerts.alertInfo))
    {
      if !Truthy(token) || !Truthy(id) {
        assert window.history + [] == window.history;
        return false;
      }
      loading := true;
      ApplyAlert(window, alerts, AlertEffect(DeletedAlert));
      loading := false;
      sent := true;
    }

    /** The Cancel button. */
    method Cancel()
      modifies window`history
      ensures window.history == old(window.history) + [EditEmployeeAccessLevel.AccessListPath]
    {
      window.Navigate(EditEmployeeAccessLevel.AccessListPath);
    }
  }
}
