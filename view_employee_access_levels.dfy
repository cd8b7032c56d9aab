/**
 The manager's list of employees and their access levels: loaded once behind the
 token guard, then filtered by role with five buttons. Each card links to the
 access-level editor and to the delete confirmation of that employee.
 */
module ViewEmployeeAccessLevels {
  import opened Wrappers
  import opened Js
  import opened Fetch
  import opened Browser
  import opened Cookies
  import opened AlertInfoContext
  import opened Guard

  datatype Employee = Employee(
    id: string,
    firstName: string,
    middleName: Option<string>,
    lastName: string,
    email: string,
    role: string)

  /** The five filter buttons. */
  datatype Filter = All | Manager | Allowed | Pending | Banned

  function Label(f: Filter): string
  {
    match f
    case All => "All"
    case Manager => "Manager"
    case Allowed => "Allowed"
    case Pending => "Pending"
    case Banned => "Banned"
  }

  /** `emp.role.toLowerCase() === filter.toLowerCase()`. */
  predicate RoleMatches(e: Employee, f: Filter)
  {
    LowerAscii(e.role) == LowerAscii(Label(f))
  }

  /** `filterEmployees()`: the whole list for "All", else the employees whose role matches, in list order. */
  function FilterEmployees(employees: seq<Employee>, f: Filter): (r: seq<Employee>)
    ensures |r| <= |employees|
    ensures f == All ==> r == employees
    ensures f != All ==> forall k :: 0 <= k < |r| ==> RoleMatches(r[k], f)
  {
    if f == All || employees == [] then employees
    else (if RoleMatches(employees[0], f) then [employees[0]] else []) + FilterEmployees(employees[1..], f)
  }

  /** An employee is listed exactly when it is loaded and its role matches the filter (or the filter is "All"). */
  lemma {:induction false} FilterKeepsExactlyMatching(employees: seq<Employee>, f: Filter, e: Employee)
    ensures e in FilterEmployees(employees, f) <==> e in employees && (f == All || RoleMatches(e, f))
  {
    if f != All && employees != [] {
      FilterKeepsExactlyMatching(employees[1..], f, e);
      assert employees == [employees[0]] + employees[1..];
    }
  }

  /** One step of the filter on a list with a first element. */
  lemma FilterCons(x: Employee, rest: seq<Employee>, f: Filter)
    requires f != All
    ensures FilterEmployees([x] + rest, f) == (if RoleMatches(x, f) then [x] else []) + FilterEmployees(rest, f)
  {
    assert ([x] + rest)[0] == x && ([x] + rest)[1..] == rest;
  }

  /** Filtering keeps the list order: it filters the two halves of a list separately. */
  lemma {:induction false} FilterOfConcat(a: seq<Employee>, b: seq<Employee>, f: Filter)
    ensures FilterEmployees(a + b, f) == FilterEmployees(a, f) + FilterEmployees(b, f)
    decreases |a|
  {
    if a == [] {
      assert a + b == b;
    } else if f != All {
      var x, tail := a[0], a[1..];
      var head := if RoleMatches(x, f) then [x] else [];
      assert a == [x] + tail;
      assert a + b == [x] + (tail + b);
      calc {
        FilterEmployees(a + b, f);
        == { FilterCons(x, tail + b, f); }
        head + FilterEmployees(tail + b, f);
        == { FilterOfConcat(tail, b, f); }
        head + (FilterEmployees(tail, f) + FilterEmployees(b, f));
        ==
        (head + FilterEmployees(tail, f)) + FilterEmployees(b, f);
        == { FilterCons(x, tail, f); }
        FilterEmployees(a, f) + FilterEmployees(b, f);
      }
    }
  }

  /** Filtering the filtered list again changes nothing. */
  lemma {:induction false} FilterIsIdempotent(employees: seq<Employee>, f: Filter)
    ensures FilterEmployees(FilterEmployees(employees, f), f) == FilterEmployees(employees, f)
  {
    if f != All && employees != [] {
      var head := if RoleMatches(employees[0], f) then [employees[0]] else [];
      FilterOfConcat(head, FilterEmployees(employees[1..], f), f);
      FilterIsIdempotent(employees[1..], f);
      if RoleMatches(employees[0], f) {
        assert FilterEmployees(head, f) == head by {
          assert head[1..] == [];
        }
      }
    }
  }

  /** The load's payload: `payload.employees` when it is an array, None otherwise. */
  datatype Payload = Payload(employees: Option<seq<Employee>>)

  /** The message of the error the load catches: a bad answer's, or the format error of a payload without an array. */
  function FetchError(reply: Reply<Payload>): string
  {
    if !OkAndNotFail(reply) then ErrorMessage(reply, "Failed to fetch employee data.")
    else "Unexpected response format."
  }

  function FetchFailedAlert(reply: Reply<Payload>): (a: AlertInfo)
    ensures a.heading == "Error Fetching Employees" && a.linkURL == "/" && a.errorCode == Some("500")
    ensures OkAndNotFail(reply) ==> a.message == "Unexpected response format."
  {
    AlertInfo("Error Fetching Employees", Or(FetchError(reply), "Something went wrong while fetching employee data."),
      "Back to Home", "/", Some("500"))
  }

  /** A load succeeds when the answer is ok, not "fail", and carries an array. */
  predicate Loaded(reply: Reply<Payload>)
  {
    OkAndNotFail(reply) && reply.payload.employees.Some?
  }

  /** The effect of one load. */
  function FetchOutcome(token: Option<string>, reply: Reply<Payload>): (e: Effect)
    ensures !Truthy(token) ==> e == AlertEffect(UnauthorizedAlert)
    ensures Truthy(token) && !Loaded(reply) ==> e == AlertEffect(FetchFailedAlert(reply))
    ensures Truthy(token) && Loaded(reply) ==> e == NoEffect
  {
    if !Truthy(token) then AlertEffect(UnauthorizedAlert)
    else if !Loaded(reply) then AlertEffect(FetchFailedAlert(reply))
    else NoEffect
  }

  /** An ok answer without an employee array is still a failure, with the format message. */
  lemma MissingArrayIsAFailure(token: Option<string>, reply: Reply<Payload>)
    requires Truthy(token) && OkAndNotFail(reply) && reply.payload.employees.None?
    ensures FetchOutcome(token, reply).alert.Some?
    ensures FetchOutcome(token, reply).alert.value.message == "Unexpected response format."
  {
  }

  function EditPath(id: string): string
  {
    "/manager/employee-access-levels/edit-employee-access-level/" + id
  }

  function DeletePath(id: string): string
  {
    "/manager/employee-access-levels/confirm-delete-employee/" + id
  }

  class ViewEmployeeAccessLevelsPage {
    const window: Window
    const alerts: AlertInfoProvider
    /** The token read from `document.cookie` at render. */
    const token: Option<string>
    var employees: seq<Employee>
    var loading: bool
    var filter: Filter

    constructor(window: Window, alerts: AlertInfoProvider, cookie: string)
      ensures this.window == window && this.alerts == alerts
      ensures token == AuthToken(cookie)
      ensures employees == [] && loading && filter == All
    {
      this.window := window;
      this.alerts := alerts;
      token := AuthToken(cookie);
      employees := [];
      loading := true;
      filter := All;
    }

    /** `fetchEmployees` with the server's answer `reply`; `sent` says whether the request went out. */
    method FetchEmployees(reply: Reply<Payload>) returns (sent: bool)
      modifies this`employees, this`loading, window`history, alerts`alertInfo
      ensures sent <==> Truthy(token)
      ensures !sent ==> employees == old(employees) && loading == old(loading)
      ensures sent ==> !loading
      ensures sent ==> employees == (if Loaded(reply) then reply.payload.employees.value else old(employees))
      ensures AlertApplied(window, alerts, FetchOutcome(token, reply), old(window.history), old(alerts.alertInfo))
    {
      if !Truthy(token) {
        ApplyAlert(window, alerts, AlertEffect(UnauthorizedAlert));
        return false;
      }
      loading := true;
      if Loaded(reply) {
        employees := reply.payload.employees.value;
        assert window.history + [] == window.history;
      } else {
        ApplyAlert(window, alerts, AlertEffect(FetchFailedAlert(reply)));
      }
      loading := false;
      sent := true;
    }

    /** One of the five filter buttons. */
    method SetFilter(f: Filter)
      modifies this`filter
      ensures filter == f
    {
      filter := f;
    }

    /** The cards on screen. */
    function Shown(): (r: seq<Employee>)
      reads this
      ensures forall e :: e in r <==> e in employees && (filter == All || RoleMatches(e, filter))
    {
      forall e ensures e in FilterEmployees(employees, filter) <==> e in employees && (filter == All || RoleMatches(e, filter)) {
        FilterKeepsExactlyMatching(employees, filter, e);
      }
      FilterEmployees(employees, filter)
    }

    /** The Edit button of card `k`. */
    method Edit(k: nat)
      requires k < |Shown()|
      modifies window`history
      ensures window.history == old(window.history) + [EditPath(Shown()[k].id)]
    {
      window.Navigate(EditPath(Shown()[k].id));
    }

    /** The Delete button of card `k`. */
    method Delete(k: nat)
      requires k < |Shown()|
      modifies window`history
      ensures window.history == old(window.history) + [DeletePath(Shown()[k].id)]
    {
      window.Navigate(DeletePath(Shown()[k].id));
    }

    /** The Close button: back to the landing page. */
    method GoToLoggedIn()
      modifies window`history
      ensures window.history == old(window.history) + ["/logged-in"]
    {
      window.Navigate("/logged-in");
    }
  }
}
