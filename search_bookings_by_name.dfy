/**
 The name search: at least one of the two names is needed, only the filled-in
 names are sent, and a non-success answer or a failed request ends on an alert.
 */
module SearchBookingsByName {
  import opened Wrappers
  import opened Js
  import opened Fetch
  import opened Browser
  import opened AlertInfoContext
  import opened Guard
  import opened Bookings

  const NoNameMessage: string := "Please enter at least a first name or last name."

  const NotFoundAlert: AlertInfo := AlertInfo(
    "No Bookings Found", "No bookings matched that name. Try adjusting your search.",
    "Go to Table Reservation Overview", OverviewPath, Some("404"))

  const FetchErrorAlert: AlertInfo := AlertInfo(
    "Fetch Error", "An error occurred while trying to find bookings. Please try again.",
    "Go to Table Reservation Overview", OverviewPath, None)

  /** The POST body: each key present exactly when its name is non-empty. */
  datatype NameQuery = NameQuery(firstName: Option<string>, lastName: Option<string>)

  function Query(firstName: string, lastName: string): (q: NameQuery)
    ensures q.firstName.Some? <==> firstName != ""
    ensures q.lastName.Some? <==> lastName != ""
    ensures q.firstName.Some? ==> q.firstName.value == firstName
    ensures q.lastName.Some? ==> q.lastName.value == lastName
  {
    NameQuery(if firstName != "" then Some(firstName) else None,
              if lastName != "" then Some(lastName) else None)
  }

  /** A query that is sent always names somebody. */
  lemma SentQueryIsNeverEmpty(firstName: string, lastName: string)
    requires firstName != "" || lastName != ""
    ensures Query(firstName, lastName) != NameQuery(None, None)
  {
  }

  /** The effect of a sent search: "404" for a non-success answer, a code-less alert for a failed request. */
  function SearchOutcome(reply: Reply<Option<seq<Booking>>>): (e: Effect)
    ensures StatusSuccess(reply) ==> e == NoEffect
    ensures reply.Answered? && !StatusSuccess(reply) ==> e == AlertEffect(NotFoundAlert)
    ensures reply.Rejected? ==> e == AlertEffect(FetchErrorAlert)
  {
    match reply
    case Rejected(_) => AlertEffect(FetchErrorAlert)
    case Answered(_, status, _, _) => if status == "success" then NoEffect else AlertEffect(NotFoundAlert)
  }

  class SearchBookingsByNamePage {
    const window: Window
    const alerts: AlertInfoProvider
    var firstName: string
    var lastName: string
    /** None when a success answer had no `bookings`: the results list then fails on `bookings.length`. */
    var bookings: Option<seq<Booking>>
    var error: string

    constructor(window: Window, alerts: AlertInfoProvider)
      ensures this.window == window && this.alerts == alerts
      ensures firstName == "" && lastName == "" && bookings == Some([]) && error == ""
    {
      this.window := window;
      this.alerts := alerts;
      firstName := "";
      lastName := "";
      bookings := Some([]);
      error := "";
    }

    method SetFirstName(name: string)
      modifies this`firstName
      ensures firstName == name
    {
      firstName := name;
    }

    method SetLastName(name: string)
      modifies this`lastName
      ensures lastName == name
    {
      lastName := name;
    }

    /** The Search button with the answer `reply`; results and error are cleared first, `request` is the body sent. */
    method FetchBookings(reply: Reply<Option<seq<Booking>>>) returns (request: Option<NameQuery>)
      modifies this`bookings, this`error, window`history, alerts`alertInfo
      ensures var named := firstName != "" || lastName != "";
        && request == (if named then Some(Query(firstName, lastName)) else None)
        && error == (if named then "" else NoNameMessage)
        && bookings == (if named && StatusSuccess(reply) then reply.payload else Some([]))
        && (bookings.None? <==> named && StatusSuccess(reply) && reply.payload.None?)
        && (!named ==> unchanged(window, alerts))
        && (named ==> AlertApplied(window, alerts, SearchOutcome(reply), old(window.history), old(alerts.alertInfo)))
    {
      error := "";
      bookings := Some([]);
      if firstName == "" && lastName == "" {
        error := NoNameMessage;
        return None;
      }
      request := Some(Query(firstName, lastName));
      if StatusSuccess(reply) {
        bookings := reply.payload;
        assert window.history + [] == window.history;
      } else {
        ApplyAlert(window, alerts, SearchOutcome(reply));
      }
    }

    /** A card's Edit button; this page lists no blocked slots apart. */
    method Edit(b: Booking)
      modifies window`history
      ensures window.history == old(window.history) + [EditBookingPrefix + b.id]
    {
      window.Navigate(EditBookingPrefix + b.id);
    }

    method Delete(b: Booking)
      modifies window`history
      ensures window.history == old(window.history) + [DeleteBookingPrefix + b.id]
    {
      window.Navigate(DeleteBookingPrefix + b.id);
    }

    method Cancel()
      modifies window`history
      ensures window.history == old(window.history) + [OverviewPath]
    {
      window.Navigate(OverviewPath);
    }
  }
}
