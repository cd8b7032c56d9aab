/**
 The menu-item editor: it loads one item of a category, fills the shared form
 with it, shows the category's inputs, and sends a partial update.
 */
module EditMenuItem {
  import opened Wrappers
  import opened Js
  import opened Fetch
  import opened Browser
  import opened AlertInfoContext
  import opened Guard
  import opened CreateMenuItem

  /** An item as the server returns it; any field may be absent. The price is its `toString()` text. */
  datatype ItemRecord = ItemRecord(
    name: Option<string>,
    description: Option<string>,
    price: Option<string>,
    options: Option<seq<string>>,
    allergens: Option<seq<string>>)

  /** `text || ""`. */
  function TextOrEmpty(text: Option<string>): (r: string)
    ensures text.None? ==> r == ""
    ensures text.Some? ==> r == text.value
  {
    match text
    case None => ""
    case Some(t) => t
  }

  /** `list || []`: an array is truthy even when empty. */
  function ListOrEmpty(list: Option<seq<string>>): (r: seq<string>)
    ensures list.None? ==> r == []
    ensures list.Some? ==> r == list.value
  {
    match list
    case None => []
    case Some(l) => l
  }

  /** The form a loaded record fills: every absent field becomes empty. */
  function Prefill(item: ItemRecord): (f: MenuForm)
    ensures f.name == TextOrEmpty(item.name) && f.description == TextOrEmpty(item.description)
    ensures f.price == TextOrEmpty(item.price)
    ensures f.options == ListOrEmpty(item.options) && f.allergens == ListOrEmpty(item.allergens)
  {
    MenuForm(TextOrEmpty(item.name), TextOrEmpty(item.description), TextOrEmpty(item.price),
      ListOrEmpty(item.options), ListOrEmpty(item.allergens))
  }

  const LoadFailedAlert: AlertInfo :=
    AlertInfo("Load Failed", "Could not load item data. Please try again.", "Back to Flemmyng Menu", MenuPath, None)

  const UpdatedAlert: AlertInfo :=
    AlertInfo("Menu Item Updated", "Menu item successfully updated.", "Back to Flemmyng Menu", MenuPath, None)

  const UpdateFailedAlert: AlertInfo :=
    AlertInfo("Update Failed", "There was an error updating this item. Please try again.", "Back to Flemmyng Menu", MenuPath, None)

  /** A load succeeds when the status is "success" and a payload object is there to destructure. */
  predicate Loaded(reply: Reply<Option<ItemRecord>>)
  {
    StatusSuccess(reply) && reply.payload.Some?
  }

  /** The effect of a finished load: nothing on success, the "Load Failed" alert otherwise. */
  function LoadOutcome(reply: Reply<Option<ItemRecord>>): (e: Effect)
    ensures Loaded(reply) ==> e == NoEffect
    ensures !Loaded(reply) ==> e == AlertEffect(LoadFailedAlert)
  {
    if Loaded(reply) then NoEffect else AlertEffect(LoadFailedAlert)
  }

  /** A success status without a payload object is a failure, not an empty form. */
  lemma MissingPayloadIsAFailure(ok: bool, message: string)
    ensures LoadOutcome(Answered(ok, "success", message, None)) == AlertEffect(LoadFailedAlert)
  {
  }

  /** The PATCH body: allergens are always sent, the other optional keys only when non-empty. */
  datatype UpdatePayload = UpdatePayload(
    name: string,
    description: Option<string>,
    allergens: seq<string>,
    options: Option<seq<string>>)

  function BuildUpdate(form: MenuForm, category: string): (p: UpdatePayload)
    ensures p.name == form.name && p.allergens == form.allergens
    ensures p.description.Some? <==> form.description != ""
    ensures p.options.Some? <==> form.options != [] && category != "while-you-wait"
    ensures p.description.Some? ==> p.description.value == form.description
    ensures p.options.Some? ==> p.options.value == form.options
  {
    UpdatePayload(form.name,
      if form.description != "" then Some(form.description) else None,
      form.allergens,
      if form.options != [] && category != "while-you-wait" then Some(form.options) else None)
  }

  /** An update carries what a create would, except that it always sends the allergens, even an empty list. */
  lemma UpdateDiffersFromCreateOnlyInAllergens(form: MenuForm, category: string)
    ensures BuildUpdate(form, category).name == BuildPayload(form, category).name
    ensures BuildUpdate(form, category).description == BuildPayload(form, category).description
    ensures BuildUpdate(form, category).options == BuildPayload(form, category).options
    ensures BuildPayload(form, category).allergens ==
      (if form.allergens == [] then None else Some(BuildUpdate(form, category).allergens))
  {
  }

  /** Saving an untouched form loaded from a complete record sends the record's own fields back. */
  lemma UntouchedSaveSendsRecordBack(name: string, description: string, price: string,
                                     options: seq<string>, allergens: seq<string>, category: string)
    requires description != "" && options != [] && category != "while-you-wait"
    ensures BuildUpdate(Prefill(ItemRecord(Some(name), Some(description), Some(price), Some(options), Some(allergens))), category)
      == UpdatePayload(name, Some(description), allergens, Some(options))
  {
  }

  /** Name, price, category and id are all required. */
  predicate CanUpdate(form: MenuForm, category: Option<string>, id: Option<string>)
  {
    form.name != "" && form.price != "" && Truthy(category) && Truthy(id)
  }

  /** The effect of one submit: nothing when a required value is missing, else an alert decided by the status alone. */
  function UpdateOutcome(canSubmit: bool, reply: Reply<()>): (e: Effect)
    ensures !canSubmit ==> e == NoEffect
    ensures canSubmit && StatusSuccess(reply) ==> e == AlertEffect(UpdatedAlert)
    ensures canSubmit && !StatusSuccess(reply) ==> e == AlertEffect(UpdateFailedAlert)
  {
    if !canSubmit then NoEffect
    else if StatusSuccess(reply) then AlertEffect(UpdatedAlert)
    else AlertEffect(UpdateFailedAlert)
  }

  class EditMenuItemPage {
    const window: Window
    const alerts: AlertInfoProvider
    /** The `:category` and `:id` route parameters. */
    const category: Option<string>
    const id: Option<string>
    var form: MenuForm
    var error: string
    var loading: bool
    var showOptions: bool
    var showAllergens: bool
    var showDescription: bool

    constructor(window: Window, alerts: AlertInfoProvider, category: Option<string>, id: Option<string>)
      ensures this.window == window && this.alerts == alerts
      ensures this.category == category && this.id == id
      ensures form == EmptyForm && error == "" && loading
      ensures !showOptions && !showAllergens && !showDescription
    {
      this.window := window;
      this.alerts := alerts;
      this.category := category;
      this.id := id;
      form := EmptyForm;
      error := "";
      loading := true;
      showOptions := false;
      showAllergens := false;
      showDescription := false;
    }

    /**
     The effect that loads the item, with the server's answer `reply`. Without both
     route parameters nothing is fetched and the page keeps loading; otherwise the
     form and the category's inputs are set only on success, and loading ends either way.
     */
    method FetchAndConfigure(reply: Reply<Option<ItemRecord>>) returns (sent: bool)
      modifies this`form, this`loading, this`showOptions, this`showAllergens, this`showDescription
      modifies window`history, alerts`alertInfo
      ensures sent == (Truthy(category) && Truthy(id))
      ensures !sent ==> form == old(form) && loading == old(loading) && unchanged(window, alerts)
      ensures !sent ==> showOptions == old(showOptions) && showAllergens == old(showAllergens) && showDescription == old(showDescription)
      ensures sent ==> !loading
      ensures form == (if sent && Loaded(reply) then Prefill(reply.payload.value) else old(form))
      ensures showDescription == (old(showDescription) || (sent && Loaded(reply) && CategoryVisibility(category).description))
      ensures showOptions == (old(showOptions) || (sent && Loaded(reply) && CategoryVisibility(category).options))
      ensures showAllergens == (old(showAllergens) || (sent && Loaded(reply) && CategoryVisibility(category).allergens))
      ensures sent ==> AlertApplied(window, alerts, LoadOutcome(reply), old(window.history), old(alerts.alertInfo))
    {
      if !Truthy(category) || !Truthy(id) {
        return false;
      }
      sent := true;
      if Loaded(reply) {
        form := Prefill(reply.payload.value);
        var v := CategoryVisibility(category);
        if v.description {
          showDescription := true;
        }
        if v.options {
          showOptions := true;
        }
        if v.allergens {
          showAllergens := true;
        }
        assert window.history + [] == window.history;
      } else {
        ApplyAlert(window, alerts, LoadOutcome(reply));
      }
      loading := false;
    }

    method HandleChange(field: TextField, value: string)
      modifies this`form
      ensures form == ChangeField(old(form), field, value)
    {
      form := ChangeField(form, field, value);
    }

    method HandleCheckboxChange(kind: ListKind, value: string)
      modifies this`form
      ensures form == ToggleIn(old(form), kind, value)
    {
      form := ToggleIn(form, kind, value);
    }

    /** `handleSubmit` with the server's answer `reply`; `request` is the body sent, None when a required value was missing. */
    method HandleSubmit(reply: Reply<()>) returns (request: Option<UpdatePayload>)
      modifies this`error, window`history, alerts`alertInfo
      ensures error == (if CanUpdate(form, category, id) then "" else RequiredMessage)
      ensures request == (if CanUpdate(form, category, id) then Some(BuildUpdate(form, category.value)) else None)
      ensures AlertApplied(window, alerts, UpdateOutcome(CanUpdate(form, category, id), reply), old(window.history), old(alerts.alertInfo))
    {
      error := "";
      if !CanUpdate(form, category, id) {
        error := RequiredMessage;
        assert window.history + [] == window.history;
        return None;
      }
      request := Some(BuildUpdate(form, category.value));
      ApplyAlert(window, alerts, UpdateOutcome(true, reply));
    }

    /** The Cancel button. */
    method Cancel()
      modifies window`history
      ensures window.history == old(window.history) + [MenuPath]
    {
      window.Navigate(MenuPath);
    }
  }
}
