/**
 What the table-reservation pages share: the booking record their cards show,
 the blocked-slot sentinel, the four-digit stored time with its display forms
 and the colon stripping applied before sending, and the card action paths.
 */
module Bookings {
  import opened Wrappers
  import opened Js

  /** A booking as the cards show it; `occasion` and `requests` may be absent. Guests, phone and date are left out. */
  datatype Booking = Booking(
    id: string,
    email: string,
    firstName: string,
    lastName: string,
    selectedTime: string,
    occasion: Option<string>,
    requests: Option<string>)

  const OverviewPath: string := "/table-reservation-overview"

  /** A blocked slot is stored as a booking named exactly "Blocked" "Slot". */
  predicate IsBlockedSlot(b: Booking)
  {
    b.firstName == "Blocked" && b.lastName == "Slot"
  }

  /** The card's time: characters 0-1, a colon, characters 2-3, with `slice` clamping. */
  function ClockTime(t: string): (r: string)
    ensures |r| <= 5
  {
    Slice(t, 0, 2) + ":" + Slice(t, 2, 4)
  }

  /** The time input of the blocked-slot editor: a four-character time gets a colon after its second character; any other is shown as stored. */
  function EditableTime(t: string): (r: string)
    ensures |t| != 4 ==> r == t
    ensures |t| == 4 ==> |r| == 5 && r[2] == ':' && r[..2] == t[..2] && r[3..] == t[2..]
  {
    if |t| == 4 then t[..2] + ":" + t[2..] else t
  }

  /** `time.replace(":", "")`: the first colon is removed, any later one is kept. */
  function StripColon(t: string): (r: string)
  {
    RemoveFirst(t, ':')
  }

  /** A stored four-character time is shown the same way on the cards and in the editor. */
  lemma FourCharacterTimesDisplayAlike(t: string)
    requires |t| == 4
    ensures ClockTime(t) == EditableTime(t)
  {
  }

  /** Characters past the fourth never reach a card. */
  lemma ClockTimeIgnoresTail(t: string)
    requires |t| >= 4
    ensures ClockTime(t) == ClockTime(t[..4])
  {
  }

  /** A time without a colon is sent unchanged. */
  lemma StripColonWithoutColon(t: string)
    requires ':' !in t
    ensures StripColon(t) == t
  {
    RemoveFirstSpec(t, ':');
  }

  /** "HH:MM" from a time input is sent as "HHMM". */
  lemma StripColonOfTypedTime(t: string)
    requires |t| == 5 && t[2] == ':' && ':' !in t[..2]
    ensures StripColon(t) == t[..2] + t[3..]
  {
    RemoveFirstSpec(t, ':');
    var i :| 0 <= i < |t| && t[i] == ':' && ':' !in t[..i] && StripColon(t) == t[..i] + t[i + 1..];
  }

  /** Editing round trip: a colon-free four-character stored time, shown in the editor and sent back, is the stored time again. */
  lemma EditableTimeRoundTrip(t: string)
    requires |t| == 4 && ':' !in t
    ensures StripColon(EditableTime(t)) == t
  {
    var shown := EditableTime(t);
    assert ':' !in shown[..2] by {
      assert shown[..2] == t[..2];
    }
    StripColonOfTypedTime(shown);
    assert shown[..2] + shown[3..] == t[..2] + t[2..];
    assert t[..2] + t[2..] == t;
  }

  /** Creation round trip: a typed "HH:MM" is sent as four characters that the cards display as the typed text. */
  lemma TypedTimeIsDisplayedBack(t: string)
    requires |t| == 5 && t[2] == ':' && ':' !in t[..2]
    ensures |StripColon(t)| == 4
    ensures ClockTime(StripColon(t)) == t
  {
    StripColonOfTypedTime(t);
    var s := t[..2] + t[3..];
    assert Slice(s, 0, 2) == t[..2];
    assert Slice(s, 2, 4) == t[3..];
    assert t == t[..2] + [':'] + t[3..];
  }

  const EditBookingPrefix: string := "/table-reservation-overview/edit-booking/"
  const DeleteBookingPrefix: string := "/table-reservation-overview/delete-booking/"
  const EditBlockedSlotPrefix: string := "/table-reservation-overview/edit-blocked-time-slot/"
  const DeleteBlockedSlotPrefix: string := "/table-reservation-overview/delete-blocked-time-slot/"

  /** The card actions of the date view: blocked slots go to the blocked-slot pages, every other booking to the booking pages, with the id appended. */
  function EditTarget(b: Booking): (path: string)
    ensures IsBlockedSlot(b) ==> path == EditBlockedSlotPrefix + b.id
    ensures !IsBlockedSlot(b) ==> path == EditBookingPrefix + b.id
  {
    (if IsBlockedSlot(b) then EditBlockedSlotPrefix else EditBookingPrefix) + b.id
  }

  function DeleteTarget(b: Booking): (path: string)
    ensures IsBlockedSlot(b) ==> path == DeleteBlockedSlotPrefix + b.id
    ensures !IsBlockedSlot(b) ==> path == DeleteBookingPrefix + b.id
  {
    (if IsBlockedSlot(b) then DeleteBlockedSlotPrefix else DeleteBookingPrefix) + b.id
  }

  /** The path alone tells which page a card action opens: it starts with the blocked-slot prefix exactly for blocked slots, and ends with the id. */
  lemma TargetsTellBlockedSlotsApart(b: Booking)
    ensures IsBlockedSlot(b) <==> EditBlockedSlotPrefix <= EditTarget(b)
    ensures IsBlockedSlot(b) <==> DeleteBlockedSlotPrefix <= DeleteTarget(b)
    ensures EditTarget(b)[|EditTarget(b)| - |b.id|..] == b.id
    ensures DeleteTarget(b)[|DeleteTarget(b)| - |b.id|..] == b.id
  {
    if !IsBlockedSlot(b) {
      assert EditTarget(b)[34] == 'o' != EditBlockedSlotPrefix[34];
      assert DeleteTarget(b)[36] == 'o' != DeleteBlockedSlotPrefix[36];
    }
  }
}
