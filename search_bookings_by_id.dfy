/**
 The id search: a non-empty id is fetched from `/table/<id>`, and the single
 booking found replaces the cleared result.
 */
module SearchBookingsById {
  import opened Wrappers
  import opened Js
  import opened Fetch
  import opened Browser
  import opened AlertInfoContext
  import opened Guard
  import opened Bookings

  const NoIdMessage: string := "Please enter a booking ID."

  const TablePrefix: string := "/table/"

  const NotFoundAlert: AlertInfo := AlertInfo(
    "Booking Not Found!", "We could not find a booking with this ID.",
    "Go to Table Reservation Overview", OverviewPath, Some("404"))

  const FetchErrorAlert: AlertInfo := AlertInfo(
    "Fetch Error", "An error occurred while trying to find this booking. Please try again.",
    "Go to Table Reservation Overview", OverviewPath, None)

  /** The request path below the server address; the id is the last segment. */
  function RequestPath(id: string): (path: string)
    ensures |path| == |TablePrefix| + |id|
    ensures path[..|TablePrefix|] == TablePrefix && path[|TablePrefix|..] == id
  {
    TablePrefix + id
  }

  /** Different ids are fetched from different paths. */
  lemma RequestPathIsInjective(a: string, b: string)
    requires RequestPath(a) == RequestPath(b)
    ensures a == b
  {
    assert a == RequestPath(a)[|TablePrefix|..];
  }

  /** The effect of a sent search: "404" for a non-success answer, a code-less alert for a failed request. */
  function SearchOutcome(reply: Reply<Option<Booking>>): (e: Effect)
    ensures StatusSuccess(reply) ==> e == NoEffect
    ensures reply.Answered? && !StatusSuccess(reply) ==> e == AlertEffect(NotFoundAlert)
    ensures reply.Rejected? ==> e == AlertEffect(FetchErrorAlert)
  {
    match reply
    case Rejected(_) => AlertEffect(FetchErrorAlert)
    case Answered(_, status, _, _) => if status == "success" then NoEffect else AlertEffect(NotFoundAlert)
  }

  class SearchBookingsByIdPage {
    const window: Window
    const alerts: AlertInfoProvider
    var bookingId: string
    var booking: Option<Booking>
    var error: string

    constructor(window: Window, alerts: AlertInfoProvider)
      ensures this.window == window && this.alerts == alerts
      ensures bookingId == "" && booking.None? && error == ""
    {
      this.window := window;
      this.alerts := alerts;
      bookingId := "";
      booking := None;
      error := "";
    }

    method SetBookingId(id: string)
      modifies this`bookingId
      ensures bookingId == id
    {
      bookingId := id;
    }

    /** The Search button with the answer `reply`; result and error are cleared first, `request` is the path fetched. */
    method FetchBooking(reply: Reply<Option<Booking>>) returns (request: Option<string>)
      modifies this`booking, this`error, window`history, alerts`alertInfo
      ensures request == (if bookingId != "" then Some(RequestPath(bookingId)) else None)
      ensures error == (if bookingId != "" then "" else NoIdMessage)
      ensures booking == (if bookingId != "" && StatusSuccess(reply) then reply.payload else None)
      ensures bookingId == "" ==> unchanged(window, alerts)
      ensures bookingId != "" ==> AlertApplied(window, alerts, SearchOutcome(reply), old(window.history), old(alerts.alertInfo))
    {
      error := "";
      booking := None;
      if bookingId == "" {
        error := NoIdMessage;
        return None;
      }
      request := Some(RequestPath(bookingId));
      if StatusSuccess(reply) {
        booking := reply.payload;
        assert window.history + [] == window.history;
      } else {
        ApplyAlert(window, alerts, SearchOutcome(reply));
      }
    }

    method Edit(b: Booking)
      modifies window`history
      ensures window.history == old(window.history) + [EditBookingPrefix + b.id]
    {
      window.Navigate(EditBookingPrefix + b.id);
    }

    method Delete(b: Booking)
      modifies window`history
      ensures window.history == old(window.history) + [DeleteBookingPrefix + b.id]
    {
      window.Navigate(DeleteBookingPrefix + b.id);
    }

    method Cancel()
      modifies window`history
      ensures window.history == old(window.history) + [OverviewPath]
    {
      window.Navigate(OverviewPath);
    }
  }
}
