/**
 The email search: a non-empty email is sent verbatim, and a non-success
 answer or a failed request ends on an alert.
 */
module SearchBookingsByEmail {
  import opened Wrappers
  import opened Js
  import opened Fetch
  import opened Browser
  import opened AlertInfoContext
  import opened Guard
  import opened Bookings

  const NoEmailMessage: string := "Please enter an email address."

  const NotFoundAlert: AlertInfo := AlertInfo(
    "Search Failed!", "We could not find bookings for this email address.",
    "Go to Table Reservation Overview", OverviewPath, Some("404"))

  const FetchErrorAlert: AlertInfo := AlertInfo(
    "Fetch Error", "An error occurred while searching for bookings. Please try again.",
    "Go to Table Reservation Overview", OverviewPath, None)

  /** The effect of a sent search: "404" for a non-success answer, a code-less alert for a failed request. */
  function SearchOutcome(reply: Reply<Option<seq<Booking>>>): (e: Effect)
    ensures StatusSuccess(reply) ==> e == NoEffect
    ensures reply.Answered? && !StatusSuccess(reply) ==> e == AlertEffect(NotFoundAlert)
    ensures reply.Rejected? ==> e == AlertEffect(FetchErrorAlert)
  {
    match reply
    case Rejected(_) => AlertEffect(FetchErrorAlert)
    case Answered(_, status, _, _) => if status == "success" then NoEffect else AlertEffect(NotFoundAlert)
  }

  /** Only a server-reported failure carries a code; both alerts lead back to the overview. */
  lemma OnlyServerFailuresCarryACode(reply: Reply<Option<seq<Booking>>>)
    requires !StatusSuccess(reply)
    ensures SearchOutcome(reply).alert.value.errorCode.Some? <==> reply.Answered?
    ensures SearchOutcome(reply).alert.value.linkURL == OverviewPath
  {
  }

  class SearchBookingsByEmailPage {
    const window: Window
    const alerts: AlertInfoProvider
    var email: string
    /** None when a success answer had no `bookings`: the results list then fails on `bookings.length`. */
    var bookings: Option<seq<Booking>>
    var error: string

    constructor(window: Window, alerts: AlertInfoProvider)
      ensures this.window == window && this.alerts == alerts
      ensures email == "" && bookings == Some([]) && error == ""
    {
      this.window := window;
      this.alerts := alerts;
      email := "";
      bookings := Some([]);
      error := "";
    }

    method SetEmail(text: string)
      modifies this`email
      ensures email == text
    {
      email := text;
    }

    /** The Search button with the answer `reply`; results and error are cleared first, `request` is the email sent. */
    method FetchBookings(reply: Reply<Option<seq<Booking>>>) returns (request: Option<string>)
      modifies this`bookings, this`error, window`history, alerts`alertInfo
      ensures request == (if email != "" then Some(email) else None)
      ensures error == (if email != "" then "" else NoEmailMessage)
      ensures bookings == (if email != "" && StatusSuccess(reply) then reply.payload else Some([]))
      ensures bookings.None? <==> email != "" && StatusSuccess(reply) && reply.payload.None?
      ensures email == "" ==> unchanged(window, alerts)
      ensures email != "" ==> AlertApplied(window, alerts, SearchOutcome(reply), old(window.history), old(alerts.alertInfo))
    {
      error := "";
      bookings := Some([]);
      if email == "" {
        error := NoEmailMessage;
        return None;
      }
      request := Some(email);
      if StatusSuccess(reply) {
        bookings := reply.payload;
        assert window.history + [] == window.history;
      } else {
        ApplyAlert(window, alerts, SearchOutcome(reply));
      }
    }

    method Edit(b: Booking)
      modifies window`history
      ensures window.history == old(window.history) + [EditBookingPrefix + b.id]
    {
      window.Navigate(EditBookingPrefix + b.id);
    }

    method Delete(b: Booking)
      modifies window`history
      ensures window.history == old(window.history) + [DeleteBookingPrefix + b.id]
    {
      window.Navigate(DeleteBookingPrefix + b.id);
    }

    method Cancel()
      modifies window`history
      ensures window.history == old(window.history) + [OverviewPath]
    {
      window.Navigate(OverviewPath);
    }
  }
}
