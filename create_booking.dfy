/**
 The booking form: seven required fields and two optional ones, the payload
 with its colon-free time, and the outcome alerts, the blocked-slot answer first.
 */
module CreateBooking {
  import opened Wrappers
  import opened Js
  import opened Fetch
  import opened Browser
  import opened AlertInfoContext
  import opened Guard
  import opened Bookings

  /** The nine inputs, named as `handleChange` receives them. */
  datatype Field =
    | FirstName | LastName | Tel | Email | SelectedDate | SelectedTime | NumberOfGuests | Occasion | Requests

  datatype BookingForm = BookingForm(
    firstName: string, lastName: string, tel: string, email: string,
    selectedDate: string, selectedTime: string, numberOfGuests: string,
    occasion: string, requests: string)

  const EmptyForm: BookingForm := BookingForm("", "", "", "", "", "", "", "", "")

  /** The value of one input. */
  function Get(form: BookingForm, field: Field): string
  {
    match field
    case FirstName => form.firstName
    case LastName => form.lastName
    case Tel => form.tel
    case Email => form.email
    case SelectedDate => form.selectedDate
    case SelectedTime => form.selectedTime
    case NumberOfGuests => form.numberOfGuests
    case Occasion => form.occasion
    case Requests => form.requests
  }

  /** `handleChange`: the named input takes the value and every other input keeps its own. */
  function ChangeField(form: BookingForm, field: Field, value: string): (r: BookingForm)
    ensures Get(r, field) == value
    ensures forall f :: f != field ==> Get(r, f) == Get(form, f)
  {
    match field
    case FirstName => form.(firstName := value)
    case LastName => form.(lastName := value)
    case Tel => form.(tel := value)
    case Email => form.(email := value)
    case SelectedDate => form.(selectedDate := value)
    case SelectedTime => form.(selectedTime := value)
    case NumberOfGuests => form.(numberOfGuests := value)
    case Occasion => form.(occasion := value)
    case Requests => form.(requests := value)
  }

  /** The inputs that must be filled in. */
  predicate Required(field: Field)
  {
    field != Occasion && field != Requests
  }

  /** Every required input is non-empty. */
  predicate Complete(form: BookingForm)
  {
    form.firstName != "" && form.lastName != "" && form.email != "" && form.tel != ""
    && form.selectedDate != "" && form.selectedTime != "" && form.numberOfGuests != ""
  }

  /** A form is complete exactly when no required input is empty; the optional two never matter. */
  lemma CompleteIffRequiredFilled(form: BookingForm)
    ensures Complete(form) <==> forall f :: Required(f) ==> Get(form, f) != ""
  {
    if !Complete(form) {
      if form.firstName == "" { assert Required(FirstName) && Get(form, FirstName) == ""; }
      else if form.lastName == "" { assert Required(LastName) && Get(form, LastName) == ""; }
      else if form.email == "" { assert Required(Email) && Get(form, Email) == ""; }
      else if form.tel == "" { assert Required(Tel) && Get(form, Tel) == ""; }
      else if form.selectedDate == "" { assert Required(SelectedDate) && Get(form, SelectedDate) == ""; }
      else if form.selectedTime == "" { assert Required(SelectedTime) && Get(form, SelectedTime) == ""; }
      else { assert Required(NumberOfGuests) && Get(form, NumberOfGuests) == ""; }
    }
  }

  /** The POST body; the guest count stays text here. */
  datatype Payload = Payload(
    firstName: string, lastName: string, email: string, tel: string,
    selectedDate: string, selectedTime: string, numberOfGuests: string,
    termsAccepted: bool, occasion: Option<string>, requests: Option<string>)

  /** The body: the required inputs verbatim but for the time's first colon, terms always accepted, the optional inputs only when non-empty. */
  function BuildPayload(form: BookingForm): (p: Payload)
    ensures p.termsAccepted
    ensures p.selectedTime == StripColon(form.selectedTime)
    ensures p.firstName == form.firstName && p.lastName == form.lastName && p.email == form.email
    ensures p.tel == form.tel && p.selectedDate == form.selectedDate && p.numberOfGuests == form.numberOfGuests
    ensures p.occasion == (if form.occasion != "" then Some(form.occasion) else None)
    ensures p.requests == (if form.requests != "" then Some(form.requests) else None)
  {
    Payload(form.firstName, form.lastName, form.email, form.tel, form.selectedDate,
      StripColon(form.selectedTime), form.numberOfGuests, true,
      if form.occasion != "" then Some(form.occasion) else None,
      if form.requests != "" then Some(form.requests) else None)
  }

  /** A time typed as "HH:MM" is sent as four characters that the booking cards show as typed. */
  lemma SentTimeDisplaysAsTyped(form: BookingForm)
    requires |form.selectedTime| == 5 && form.selectedTime[2] == ':' && ':' !in form.selectedTime[..2]
    ensures |BuildPayload(form).selectedTime| == 4
    ensures ClockTime(BuildPayload(form).selectedTime) == form.selectedTime
  {
    TypedTimeIsDisplayedBack(form.selectedTime);
  }

  const RequiredMessage: string := "Please fill in all required fields."

  /** The server's exact answer for a blocked time. */
  const BlockedMessage: string := "This time slot is blocked and cannot be booked."

  const SlotBlockedAlert: AlertInfo := AlertInfo(
    "Time Slot Blocked",
    "This time slot has been blocked and cannot be booked. Please select another time.",
    "Back to Table Reservation Overview", OverviewPath, None)

  const CreatedAlert: AlertInfo := AlertInfo(
    "Booking Created!", "Your booking was successfully created.",
    "Go to Table Reservation Overview", OverviewPath, None)

  const FailedAlert: AlertInfo := AlertInfo(
    "Booking Failed", "There was an error submitting your booking. Please try again.",
    "Back to Table Reservation Overview", OverviewPath, None)

  /** The alert for the server's answer: the blocked-slot message is looked at before the status. */
  function ReplyAlert(reply: Reply<()>): (a: AlertInfo)
    ensures reply.Answered? && reply.message == BlockedMessage ==> a == SlotBlockedAlert
    ensures reply.Rejected? ==> a == FailedAlert
    ensures reply.Answered? && reply.message != BlockedMessage ==>
      a == (if reply.status == "success" then CreatedAlert else FailedAlert)
  {
    if reply.Answered? && reply.message == BlockedMessage then SlotBlockedAlert
    else if StatusSuccess(reply) then CreatedAlert
    else FailedAlert
  }

  /** The blocked-slot message wins even over a "success" status, and every answer leads back to the overview. */
  lemma BlockedMessageOverridesStatus(ok: bool, status: string)
    ensures ReplyAlert(Answered(ok, status, BlockedMessage, ())) == SlotBlockedAlert
  {
  }

  lemma EveryOutcomeLinksToOverview(reply: Reply<()>)
    ensures ReplyAlert(reply).linkURL == OverviewPath
    ensures ReplyAlert(reply).errorCode.None?
  {
  }

  /** The effect of one submit: nothing for an incomplete form, else the reply's alert. */
  function SubmitOutcome(complete: bool, reply: Reply<()>): (e: Effect)
    ensures !complete ==> e == NoEffect
    ensures complete ==> e == AlertEffect(ReplyAlert(reply))
  {
    if complete then AlertEffect(ReplyAlert(reply)) else NoEffect
  }

  class CreateBookingPage {
    const window: Window
    const alerts: AlertInfoProvider
    var form: BookingForm
    var error: string

    constructor(window: Window, alerts: AlertInfoProvider)
      ensures this.window == window && this.alerts == alerts
      ensures form == EmptyForm && error == ""
    {
      this.window := window;
      this.alerts := alerts;
      form := EmptyForm;
      error := "";
    }

    method HandleChange(field: Field, value: string)
      modifies this`form
      ensures form == ChangeField(old(form), field, value)
    {
      form := ChangeField(form, field, value);
    }

    /** `handleSubmit` with the server's answer `reply`; `request` is the body sent, None for an incomplete form. */
    method HandleSubmit(reply: Reply<()>) returns (request: Option<Payload>)
      modifies this`error, window`history, alerts`alertInfo
      ensures error == (if Complete(form) then "" else RequiredMessage)
      ensures request == (if Complete(form) then Some(BuildPayload(form)) else None)
      ensures AlertApplied(window, alerts, SubmitOutcome(Complete(form), reply), old(window.history), old(alerts.alertInfo))
    {
      error := "";
      if !Complete(form) {
        error := RequiredMessage;
        assert window.history + [] == window.history;
        return None;
      }
      request := Some(BuildPayload(form));
      ApplyAlert(window, alerts, SubmitOutcome(true, reply));
    }

    method Cancel()
      modifies window`history
      ensures window.history == old(window.history) + [OverviewPath]
    {
      window.Navigate(OverviewPath);
    }
  }
}
