/**
 The blocked-slot deletion page: it loads the slot, shows its time and any
 reason, and deletes it on confirmation; its time line is
 the shared card display. Its load-failure alerts link to a
 path the route table does not declare.
 */
module DeleteBlockedTimeSlot {
  import opened Wrappers
  import opened Js
  import opened Fetch
  import opened Browser
  import opened AlertInfoContext
  import opened Guard
  import opened Bookings
  import App

  /** A stored blocked slot with its optional reason. */
  datatype BlockedSlot = BlockedSlot(id: string, selectedDate: string, selectedTime: string, reason: Option<string>)

  /** Where the load-failure alerts send the user back to. */
  const BlockedTimesPath: string := "/blocked-times-overview"

  /** The reason line appears only for a present, non-empty reason, and then shows it verbatim. */
  function ReasonLine(slot: BlockedSlot): (r: Option<string>)
    ensures r.Some? <==> Truthy(slot.reason)
    ensures r.Some? ==> r == slot.reason
  {
    if Truthy(slot.reason) then slot.reason else None
  }

  const NotFoundAlert: AlertInfo := AlertInfo(
    "Blocked Slot Not Found!", "The blocked time slot could not be found.",
    "Go to Blocked Times Overview", BlockedTimesPath, Some("404"))

  const LoadingFailedAlert: AlertInfo := AlertInfo(
    "Loading Failed!", "Failed to load blocked time slot data.",
    "Go to Blocked Times Overview", BlockedTimesPath, None)

  const DeletionFailedAlert: AlertInfo := AlertInfo(
    "Deletion Failed!", "The blocked time slot could not be deleted.",
    "Go to Blocked Times Overview", OverviewPath, Some("502"))

  const DeletionErrorAlert: AlertInfo := AlertInfo(
    "Deletion Failed!", "An error occurred while trying to delete the blocked time slot.",
    "Go to Blocked Times Overview", OverviewPath, None)

  const DeletedAlert: AlertInfo := AlertInfo(
    "Blocked Time Slot Deleted!", "The blocked time slot has been deleted successfully.",
    "Return to Blocked Times Overview", OverviewPath, None)

  /** The effect of a finished load: "404" for a non-success answer, a code-less alert for a failed request, nothing on success. */
  function LoadOutcome(reply: Reply<Option<BlockedSlot>>): (e: Effect)
    ensures StatusSuccess(reply) ==> e == NoEffect
    ensures reply.Answered? && !StatusSuccess(reply) ==> e == AlertEffect(NotFoundAlert)
    ensures reply.Rejected? ==> e == AlertEffect(LoadingFailedAlert)
  {
    match reply
    case Rejected(_) => AlertEffect(LoadingFailedAlert)
    case Answered(_, status, _, _) => if status == "success" then NoEffect else AlertEffect(NotFoundAlert)
  }

  /** Every failed load points its button at a path no route declares. */
  lemma LoadFailuresLinkNowhere(reply: Reply<Option<BlockedSlot>>)
    requires !StatusSuccess(reply)
    ensures App.Resolve(LoadOutcome(reply).alert.value.linkURL) == {}
  {
    App.BlockedTimesOverviewIsUndeclared(BlockedTimesPath);
  }

  /** The effect of a delete: "502" for a non-success answer, a code-less alert for a failed request, "Deleted" on success. */
  function DeleteOutcome(reply: Reply<()>): (e: Effect)
    ensures StatusSuccess(reply) ==> e == AlertEffect(DeletedAlert)
    ensures reply.Answered? && !StatusSuccess(reply) ==> e == AlertEffect(DeletionFailedAlert)
    ensures reply.Rejected? ==> e == AlertEffect(DeletionErrorAlert)
  {
    match reply
    case Rejected(_) => AlertEffect(DeletionErrorAlert)
    case Answered(_, status, _, _) => if status == "success" then AlertEffect(DeletedAlert) else AlertEffect(DeletionFailedAlert)
  }

  /** Unlike the load alerts, every delete alert links to the declared overview. */
  lemma DeleteAlertsLinkToOverview(reply: Reply<()>)
    ensures DeleteOutcome(reply).alert.value.linkURL == OverviewPath
    ensures DeleteOutcome(reply).navigations == ["/alert"]
  {
  }

  class DeleteBlockedTimeSlotPage {
    const window: Window
    const alerts: AlertInfoProvider
    /** The loaded slot; None while loading. */
    var slot: Option<BlockedSlot>

    constructor(window: Window, alerts: AlertInfoProvider)
      ensures this.window == window && this.alerts == alerts && slot.None?
    {
      this.window := window;
      this.alerts := alerts;
      slot := None;
    }

    /** The load effect with the server's answer `reply`. */
    method FetchSlot(reply: Reply<Option<BlockedSlot>>)
      modifies this`slot, window`history, alerts`alertInfo
      ensures slot == (if StatusSuccess(reply) then reply.payload else old(slot))
      ensures AlertApplied(window, alerts, LoadOutcome(reply), old(window.history), old(alerts.alertInfo))
    {
      if StatusSuccess(reply) {
        slot := reply.payload;
        assert window.history + [] == window.history;
      } else {
        ApplyAlert(window, alerts, LoadOutcome(reply));
      }
    }

    /** The Confirm Delete button, with the server's answer `reply`. */
    method HandleDelete(reply: Reply<()>)
      modifies window`history, alerts`alertInfo
      ensures AlertApplied(window, alerts, DeleteOutcome(reply), old(window.history), old(alerts.alertInfo))
    {
      ApplyAlert(window, alerts, DeleteOutcome(reply));
    }

    method HandleCancel()
      modifies window`history
      ensures window.history == old(window.history) + [OverviewPath]
    {
      window.Navigate(OverviewPath);
    }
  }
}
