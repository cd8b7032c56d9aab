/**
 The blocked-slot creator: a missing date or time goes straight to an alert;
 otherwise the date and the colon-free time are posted and only the HTTP
 `ok` flag decides the outcome.
 */
module CreateBlockedTimeSlot {
  import opened Wrappers
  import opened Js
  import opened Fetch
  import opened Browser
  import opened AlertInfoContext
  import opened Guard
  import opened Bookings

  datatype SlotForm = SlotForm(selectedDate: string, selectedTime: string)

  datatype SlotField = DateField | TimeField

  /** `handleChange`: replaces only the named input. */
  function ChangeField(form: SlotForm, field: SlotField, value: string): (r: SlotForm)
    ensures field == DateField ==> r == SlotForm(value, form.selectedTime)
    ensures field == TimeField ==> r == SlotForm(form.selectedDate, value)
  {
    match field
    case DateField => form.(selectedDate := value)
    case TimeField => form.(selectedTime := value)
  }

  const MissingAlert: AlertInfo := AlertInfo(
    "Missing Information", "Please select both a date and a time to block.",
    "Back to Table Reservation Overview", OverviewPath, None)

  const BlockedAlert: AlertInfo := AlertInfo(
    "Time Slot Blocked!", "The selected time slot has been blocked successfully.",
    "Go to Table Reservation Overview", OverviewPath, None)

  const BlockingFailedAlert: AlertInfo := AlertInfo(
    "Blocking Failed!", "Failed to create blocked slot. Please try again.",
    "Go to Table Reservation Overview", OverviewPath, None)

  /** The body sent: exactly the date and the time with its first colon removed. */
  function Body(form: SlotForm): (b: SlotForm)
    ensures b.selectedDate == form.selectedDate
    ensures |b.selectedTime| + (if ':' in form.selectedTime then 1 else 0) == |form.selectedTime|
    ensures ':' !in form.selectedTime ==> b.selectedTime == form.selectedTime
    ensures ':' in form.selectedTime ==>
      exists i :: 0 <= i < |form.selectedTime| && form.selectedTime[i] == ':' && ':' !in form.selectedTime[..i] &&
        b.selectedTime == form.selectedTime[..i] + form.selectedTime[i + 1..]
  {
    RemoveFirstSpec(form.selectedTime, ':');
    SlotForm(form.selectedDate, StripColon(form.selectedTime))
  }

  /** Both inputs are needed before anything is sent. */
  predicate Complete(form: SlotForm)
  {
    form.selectedDate != "" && form.selectedTime != ""
  }

  /** The alert a submit ends on: the missing-input alert, else decided by `response.ok` alone. */
  function SubmitAlert(form: SlotForm, reply: Reply<()>): (a: AlertInfo)
    ensures !Complete(form) ==> a == MissingAlert
    ensures Complete(form) ==> a == (if TransportOk(reply) then BlockedAlert else BlockingFailedAlert)
  {
    if !Complete(form) then MissingAlert
    else if TransportOk(reply) then BlockedAlert
    else BlockingFailedAlert
  }

  /** The status and message of the answer are never read. */
  lemma OnlyTheOkFlagMatters(form: SlotForm, ok: bool, s1: string, m1: string, s2: string, m2: string)
    ensures SubmitAlert(form, Answered(ok, s1, m1, ())) == SubmitAlert(form, Answered(ok, s2, m2, ()))
  {
  }

  /** Every submit, sent or not, ends on the alert page with a link to the overview. */
  lemma EverySubmitEndsAtAlert(form: SlotForm, reply: Reply<()>)
    ensures AlertEffect(SubmitAlert(form, reply)).navigations == ["/alert"]
    ensures SubmitAlert(form, reply).linkURL == OverviewPath
  {
  }

  class CreateBlockedTimeSlotPage {
    const window: Window
    const alerts: AlertInfoProvider
    var form: SlotForm

    constructor(window: Window, alerts: AlertInfoProvider)
      ensures this.window == window && this.alerts == alerts
      ensures form == SlotForm("", "")
    {
      this.window := window;
      this.alerts := alerts;
      form := SlotForm("", "");
    }

    method HandleChange(field: SlotField, value: string)
      modifies this`form
      ensures form == ChangeField(old(form), field, value)
    {
      form := ChangeField(form, field, value);
    }

    /** `handleSubmit` with the answer `reply`; `request` is the body posted, None when an input was empty. */
    method HandleSubmit(reply: Reply<()>) returns (request: Option<SlotForm>)
      modifies window`history, alerts`alertInfo
      ensures request == (if Complete(form) then Some(Body(form)) else None)
      ensures AlertApplied(window, alerts, AlertEffect(SubmitAlert(form, reply)), old(window.history), old(alerts.alertInfo))
    {
      request := if Complete(form) then Some(Body(form)) else None;
      ApplyAlert(window, alerts, AlertEffect(SubmitAlert(form, reply)));
    }

    method Cancel()
      modifies window`history
      ensures window.history == old(window.history) + [OverviewPath]
    {
      window.Navigate(OverviewPath);
    }
  }
}
