/**
 The blocked-slot editor: it loads the slot, shows its date and time in
 input-friendly forms, and sends the record back with the time's first
 colon removed.
 */
module EditBlockedTimeSlot {
  import opened Wrappers
  import opened Js
  import opened Fetch
  import opened Browser
  import opened AlertInfoContext
  import opened Guard
  import opened Bookings

  /** A stored blocked slot; its time is four characters without a colon. */
  datatype BlockedSlot = BlockedSlot(id: string, selectedDate: string, selectedTime: string)

  /** The two named inputs. */
  datatype SlotField = DateField | TimeField

  /** `handleChange`: nothing happens before a slot is loaded; afterwards only the named field changes. */
  function ChangeSlot(slot: Option<BlockedSlot>, field: SlotField, value: string): (r: Option<BlockedSlot>)
    ensures slot.None? ==> r.None?
    ensures slot.Some? ==> r.Some? && r.value.id == slot.value.id
    ensures slot.Some? && field == DateField ==> r.value == slot.value.(selectedDate := value)
    ensures slot.Some? && field == TimeField ==> r.value == slot.value.(selectedTime := value)
  {
    match slot
    case None => None
    case Some(s) =>
      Some(match field
        case DateField => s.(selectedDate := value)
        case TimeField => s.(selectedTime := value))
  }

  /** The date input shows the stored date's first ten characters, the `YYYY-MM-DD` of an ISO timestamp. */
  function ShownDate(slot: BlockedSlot): (d: string)
    ensures |d| <= 10
    ensures |slot.selectedDate| >= 10 ==> d == slot.selectedDate[..10]
  {
    Slice(slot.selectedDate, 0, 10)
  }

  /** The time input shows the stored time with a colon inserted when it has four characters. */
  function ShownTime(slot: BlockedSlot): string
  {
    EditableTime(slot.selectedTime)
  }

  /** The PATCH body: the record as held, with the first colon of its time removed. */
  function Body(slot: BlockedSlot): (b: BlockedSlot)
    ensures b.id == slot.id && b.selectedDate == slot.selectedDate
    ensures ':' !in slot.selectedTime ==> b.selectedTime == slot.selectedTime
    ensures ':' in slot.selectedTime ==>
      exists i :: 0 <= i < |slot.selectedTime| && slot.selectedTime[i] == ':' && ':' !in slot.selectedTime[..i] &&
        b.selectedTime == slot.selectedTime[..i] + slot.selectedTime[i + 1..]
  {
    RemoveFirstSpec(slot.selectedTime, ':');
    slot.(selectedTime := StripColon(slot.selectedTime))
  }

  /** Re-entering the time the input shows and saving sends the stored four-character time back unchanged. */
  lemma ShownTimeSavesBack(slot: BlockedSlot)
    requires |slot.selectedTime| == 4 && ':' !in slot.selectedTime
    ensures Body(ChangeSlot(Some(slot), TimeField, ShownTime(slot)).value) == slot
  {
    EditableTimeRoundTrip(slot.selectedTime);
  }

  const NotFoundAlert: AlertInfo := AlertInfo(
    "Blocked Slot Not Found!", "The blocked time slot could not be found.",
    "Go to Table Reservation Overview", OverviewPath, Some("404"))

  const LoadingFailedAlert: AlertInfo := AlertInfo(
    "Loading Failed!", "Failed to load the blocked time slot.",
    "Go to Table Reservation Overview", OverviewPath, None)

  const UpdateFailedAlert: AlertInfo := AlertInfo(
    "Update Failed!", "The blocked time slot could not be updated.",
    "Go to Table Reservation Overview", OverviewPath, Some("502"))

  const UnexpectedFailureAlert: AlertInfo := AlertInfo(
    "Update Failed!", "An unexpected error occurred while updating the blocked time slot.",
    "Go to Table Reservation Overview", OverviewPath, None)

  const UpdatedAlert: AlertInfo := AlertInfo(
    "Blocked Time Slot Updated!", "The blocked time slot has been updated successfully.",
    "Go to Table Reservation Overview", OverviewPath, None)

  /** The effect of a finished load: a "404" alert for a non-success answer, a code-less one for a failed request, nothing on success. */
  function LoadOutcome(reply: Reply<Option<BlockedSlot>>): (e: Effect)
    ensures StatusSuccess(reply) ==> e == NoEffect
    ensures reply.Answered? && !StatusSuccess(reply) ==> e == AlertEffect(NotFoundAlert)
    ensures reply.Rejected? ==> e == AlertEffect(LoadingFailedAlert)
  {
    match reply
    case Rejected(_) => AlertEffect(LoadingFailedAlert)
    case Answered(_, status, _, _) => if status == "success" then NoEffect else AlertEffect(NotFoundAlert)
  }

  /** The effect of a save: "502" for a non-success answer, a code-less alert for a failed request, "Updated" on success. */
  function UpdateOutcome(reply: Reply<()>): (e: Effect)
    ensures StatusSuccess(reply) ==> e == AlertEffect(UpdatedAlert)
    ensures reply.Answered? && !StatusSuccess(reply) ==> e == AlertEffect(UpdateFailedAlert)
    ensures reply.Rejected? ==> e == AlertEffect(UnexpectedFailureAlert)
  {
    match reply
    case Rejected(_) => AlertEffect(UnexpectedFailureAlert)
    case Answered(_, status, _, _) => if status == "success" then AlertEffect(UpdatedAlert) else AlertEffect(UpdateFailedAlert)
  }

  /** Every save ends on the alert page; only a server-reported failure carries a code. */
  lemma EverySaveEndsAtAlert(reply: Reply<()>)
    ensures UpdateOutcome(reply).navigations == ["/alert"]
    ensures UpdateOutcome(reply).alert.value.errorCode.Some? <==> reply.Answered? && !StatusSuccess(reply)
  {
  }

  class EditBlockedTimeSlotPage {
    const window: Window
    const alerts: AlertInfoProvider
    /** The loaded slot; None while loading, and for good if the answer held no payload. */
    var formData: Option<BlockedSlot>

    constructor(window: Window, alerts: AlertInfoProvider)
      ensures this.window == window && this.alerts == alerts && formData.None?
    {
      this.window := window;
      this.alerts := alerts;
      formData := None;
    }

    /** The load effect with the server's answer `reply`. */
    method FetchBlockedSlot(reply: Reply<Option<BlockedSlot>>)
      modifies this`formData, window`history, alerts`alertInfo
      ensures formData == (if StatusSuccess(reply) then reply.payload else old(formData))
      ensures AlertApplied(window, alerts, LoadOutcome(reply), old(window.history), old(alerts.alertInfo))
    {
      if StatusSuccess(reply) {
        formData := reply.payload;
        assert window.history + [] == window.history;
      } else {
        ApplyAlert(window, alerts, LoadOutcome(reply));
      }
    }

    method HandleChange(field: SlotField, value: string)
      modifies this`formData
      ensures formData == ChangeSlot(old(formData), field, value)
    {
      formData := ChangeSlot(formData, field, value);
    }

    /** The form's submit, which exists only once a slot is loaded; `request` is the body sent. */
    method HandleSubmit(reply: Reply<()>) returns (request: BlockedSlot)
      requires formData.Some?
      modifies window`history, alerts`alertInfo
      ensures request == Body(formData.value)
      ensures AlertApplied(window, alerts, UpdateOutcome(reply), old(window.history), old(alerts.alertInfo))
    {
      request := Body(formData.value);
      ApplyAlert(window, alerts, UpdateOutcome(reply));
    }

    method HandleCancel()
      modifies window`history
      ensures window.history == old(window.history) + [OverviewPath]
    {
      window.Navigate(OverviewPath);
    }
  }
}
