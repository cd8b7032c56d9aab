/**
 The date view: one search per click, which clears the page first, refuses an
 empty date inline, and otherwise lists the day's bookings, blocked slots
 included, or alerts on a failed request.
 */
module ViewBookingsByDate {
  import opened Wrappers
  import opened Js
  import opened Fetch
  import opened Browser
  import opened AlertInfoContext
  import opened Guard
  import opened Bookings

  const NoDateMessage: string := "Please select a date."

  const FetchErrorAlert: AlertInfo := AlertInfo(
    "Fetch Error", "An error occurred while retrieving bookings for this date. Please try again.",
    "Go to Table Reservation Overview", OverviewPath, None)

  /** The ID line of a card: blocked slots have none. */
  function IdLine(b: Booking): (line: Option<string>)
    ensures line.None? <==> IsBlockedSlot(b)
    ensures line.Some? ==> line.value == b.id
  {
    if IsBlockedSlot(b) then None else Some(b.id)
  }

  /** The effect of a search that was sent: an alert unless `response.ok`; the status field is never read. */
  function SearchOutcome(reply: Reply<Option<seq<Booking>>>): (e: Effect)
    ensures TransportOk(reply) ==> e == NoEffect
    ensures !TransportOk(reply) ==> e == AlertEffect(FetchErrorAlert)
  {
    if TransportOk(reply) then NoEffect else AlertEffect(FetchErrorAlert)
  }

  /** An ok answer is listed whatever its status says. */
  lemma StatusIsIgnored(status: string, message: string, found: Option<seq<Booking>>)
    ensures SearchOutcome(Answered(true, status, message, found)) == NoEffect
  {
  }

  class ViewBookingsByDatePage {
    const window: Window
    const alerts: AlertInfoProvider
    var selectedDate: string
    /** None when a success answer had no `bookings`: the results list then fails on `bookings.length`. */
    var bookings: Option<seq<Booking>>
    var error: string

    constructor(window: Window, alerts: AlertInfoProvider)
      ensures this.window == window && this.alerts == alerts
      ensures selectedDate == "" && bookings == Some([]) && error == ""
    {
      this.window := window;
      this.alerts := alerts;
      selectedDate := "";
      bookings := Some([]);
      error := "";
    }

    method SetSelectedDate(date: string)
      modifies this`selectedDate
      ensures selectedDate == date
    {
      selectedDate := date;
    }

    /**
     The Search button with the server's answer `reply`: results and error are
     cleared first; `sent` tells whether a request went out.
     */
    method FetchBookings(reply: Reply<Option<seq<Booking>>>) returns (sent: bool)
      modifies this`bookings, this`error, window`history, alerts`alertInfo
      ensures sent == (selectedDate != "")
      ensures error == (if sent then "" else NoDateMessage)
      ensures bookings == (if sent && TransportOk(reply) then reply.payload else Some([]))
      ensures bookings.None? <==> sent && TransportOk(reply) && reply.payload.None?
      ensures !sent ==> unchanged(window, alerts)
      ensures sent ==> AlertApplied(window, alerts, SearchOutcome(reply), old(window.history), old(alerts.alertInfo))
    {
      error := "";
      bookings := Some([]);
      if selectedDate == "" {
        error := NoDateMessage;
        return false;
      }
      sent := true;
      if TransportOk(reply) {
        bookings := reply.payload;
        assert window.history + [] == window.history;
      } else {
        ApplyAlert(window, alerts, SearchOutcome(reply));
      }
    }

    /** A card's Edit button: a blocked slot opens the blocked-slot editor, any other booking the booking editor. */
    method Edit(b: Booking)
      modifies window`history
      ensures window.history == old(window.history) + [EditTarget(b)]
    {
      window.Navigate(EditTarget(b));
    }

    method Delete(b: Booking)
      modifies window`history
      ensures window.history == old(window.history) + [DeleteTarget(b)]
    {
      window.Navigate(DeleteTarget(b));
    }

    method Cancel()
      modifies window`history
      ensures window.history == old(window.history) + [OverviewPath]
    {
      window.Navigate(OverviewPath);
    }
  }
}
