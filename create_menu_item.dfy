/**
 The menu-item creator for one menu category: which optional inputs the category
 shows, the checkbox lists, the payload with its conditional keys, and the
 outcome alerts.
 */
module CreateMenuItem {
  import opened Wrappers
  import opened Js
  import opened Fetch
  import opened Browser
  import opened AlertInfoContext
  import opened Guard

  /** The dietary option checkboxes. */
  const Options: seq<string> := ["GF", "DF", "GF/DF", "GF available", "DF available", "GF/DF available"]

  /** The allergen checkboxes. */
  const Allergens: seq<string> :=
    ["Ce", "Cr", "E", "F", "G", "Lu", "Mi", "Mo", "Mu", "N", "Pnut", "Se", "So", "Sd", "V", "Vg"]

  /** Which of the three optional inputs are shown. */
  datatype Visibility = Visibility(description: bool, options: bool, allergens: bool)

  /** The flags each category raises; an unknown or missing category raises none. */
  function CategoryVisibility(category: Option<string>): (v: Visibility)
    ensures category == Some("while-you-wait") ==> v == Visibility(false, false, true)
    ensures category == Some("starters") || category == Some("mains") ==> v == Visibility(true, true, true)
    ensures category == Some("sides") ==> v == Visibility(false, true, true)
    ensures category == Some("desserts") ==> v == Visibility(true, true, false)
    ensures category.None? ==> v == Visibility(false, false, false)
  {
    match category
    case None => Visibility(false, false, false)
    case Some(c) =>
      if c == "while-you-wait" then Visibility(false, false, true)
      else if c == "starters" || c == "mains" then Visibility(true, true, true)
      else if c == "sides" then Visibility(false, true, true)
      else if c == "desserts" then Visibility(true, true, false)
      else Visibility(false, false, false)
  }

  /** Only the five named categories show anything; every other category, unknown ones included, hides the options, as "while-you-wait" does. */
  lemma KnownCategoriesOnly(c: string)
    ensures CategoryVisibility(Some(c)) != Visibility(false, false, false) <==>
      c in {"while-you-wait", "starters", "mains", "sides", "desserts"}
    ensures !CategoryVisibility(Some(c)).options <==> c !in {"starters", "mains", "sides", "desserts"}
  {
  }

  /** `list.filter((item) => item !== value)`. */
  function RemoveAll(list: seq<string>, value: string): (r: seq<string>)
    ensures |r| <= |list|
  {
    if list == [] then []
    else (if list[0] == value then [] else [list[0]]) + RemoveAll(list[1..], value)
  }

  /** The filter keeps every other item, drops every copy of `value`, and keeps the order. */
  lemma {:induction false} RemoveAllKeepsOthers(list: seq<string>, value: string)
    ensures forall x :: x in RemoveAll(list, value) <==> x in list && x != value
    ensures value !in list ==> RemoveAll(list, value) == list
  {
    if list != [] {
      RemoveAllKeepsOthers(list[1..], value);
      assert list == [list[0]] + list[1..];
    }
  }

  /** No item occurs twice. */
  predicate NoDuplicates(list: seq<string>)
  {
    forall i, j :: 0 <= i < j < |list| ==> list[i] != list[j]
  }

  /** Dropping items keeps a list free of duplicates. */
  lemma {:induction false} RemoveAllKeepsNoDuplicates(list: seq<string>, value: string)
    requires NoDuplicates(list)
    ensures NoDuplicates(RemoveAll(list, value))
  {
    if list != [] {
      RemoveAllKeepsNoDuplicates(list[1..], value);
      RemoveAllKeepsOthers(list[1..], value);
      assert list[0] !in list[1..] by {
        forall k | 0 <= k < |list[1..]| ensures list[1..][k] != list[0] {
          assert list[1..][k] == list[k + 1];
        }
      }
    }
  }

  /** `handleCheckboxChange` on one list: a checked value is removed everywhere, an unchecked one appended. */
  function Toggle(list: seq<string>, value: string): (r: seq<string>)
    ensures value in list ==> r == RemoveAll(list, value)
    ensures value !in list ==> r == list + [value]
  {
    if value in list then RemoveAll(list, value) else list + [value]
  }

  /** After a toggle the value is in the list exactly when it was not before, and nothing else changes membership. */
  lemma ToggleFlipsMembership(list: seq<string>, value: string)
    ensures value in Toggle(list, value) <==> value !in list
    ensures forall x :: x != value ==> (x in Toggle(list, value) <==> x in list)
  {
    RemoveAllKeepsOthers(list, value);
  }

  /** Toggling keeps a duplicate-free list duplicate-free. */
  lemma ToggleKeepsNoDuplicates(list: seq<string>, value: string)
    requires NoDuplicates(list)
    ensures NoDuplicates(Toggle(list, value))
  {
    if value in list {
      RemoveAllKeepsNoDuplicates(list, value);
    }
  }

  /** Checking and unchecking a box that was unchecked restores the list. */
  lemma ToggleTwiceRestores(list: seq<string>, value: string)
    requires value !in list
    ensures Toggle(Toggle(list, value), value) == list
  {
    RemoveAllKeepsOthers(list, value);
    RemoveAllOfAppended(list, value);
  }

  /** Filtering out a value appended to a list without it gives back the list. */
  lemma {:induction false} RemoveAllOfAppended(list: seq<string>, value: string)
    requires value !in list
    ensures RemoveAll(list + [value], value) == list
  {
    if list == [] {
      assert [value][1..] == [];
    } else {
      assert (list + [value])[1..] == list[1..] + [value];
      RemoveAllOfAppended(list[1..], value);
      assert list == [list[0]] + list[1..];
    }
  }

  /** The form's state; the price stays text until the payload is built. */
  datatype MenuForm = MenuForm(name: string, description: string, price: string, options: seq<string>, allergens: seq<string>)

  const EmptyForm: MenuForm := MenuForm("", "", "", [], [])

  /** The two checkbox lists. */
  datatype ListKind = OptionsList | AllergensList

  /** `handleCheckboxChange(type, value)`: toggles one list and leaves the rest of the form alone. */
  function ToggleIn(form: MenuForm, kind: ListKind, value: string): (r: MenuForm)
    ensures kind == OptionsList ==> r == form.(options := Toggle(form.options, value))
    ensures kind == AllergensList ==> r == form.(allergens := Toggle(form.allergens, value))
  {
    match kind
    case OptionsList => form.(options := Toggle(form.options, value))
    case AllergensList => form.(allergens := Toggle(form.allergens, value))
  }

  /** The three text inputs `handleChange` writes by name. */
  datatype TextField = NameField | DescriptionField | PriceField

  /** `handleChange`: replaces only the named field. */
  function ChangeField(form: MenuForm, field: TextField, value: string): (r: MenuForm)
    ensures r.options == form.options && r.allergens == form.allergens
    ensures r.name == (if field == NameField then value else form.name)
    ensures r.description == (if field == DescriptionField then value else form.description)
    ensures r.price == (if field == PriceField then value else form.price)
  {
    match field
    case NameField => form.(name := value)
    case DescriptionField => form.(description := value)
    case PriceField => form.(price := value)
  }

  /** The JSON payload of a create, without its numeric price. */
  datatype Payload = Payload(
    name: string,
    category: string,
    description: Option<string>,
    allergens: Option<seq<string>>,
    options: Option<seq<string>>)

  /** The payload: the optional keys are present only when their value is non-empty, and options never for "while-you-wait". */
  function BuildPayload(form: MenuForm, category: string): (p: Payload)
    ensures p.name == form.name && p.category == category
    ensures p.description.Some? <==> form.description != ""
    ensures p.allergens.Some? <==> form.allergens != []
    ensures p.options.Some? <==> form.options != [] && category != "while-you-wait"
    ensures p.description.Some? ==> p.description.value == form.description
    ensures p.allergens.Some? ==> p.allergens.value == form.allergens
    ensures p.options.Some? ==> p.options.value == form.options
  {
    Payload(form.name, category,
      if form.description != "" then Some(form.description) else None,
      if form.allergens != [] then Some(form.allergens) else None,
      if form.options != [] && category != "while-you-wait" then Some(form.options) else None)
  }

  const RequiredMessage: string := "Please fill in all required fields."

  const MenuPath: string := "/flemmyng-menu-overview"

  const CreatedAlert: AlertInfo :=
    AlertInfo("Menu Item Created", "New menu item successfully created.", "Back to Flemmyng Menu", MenuPath, None)

  const CreateFailedAlert: AlertInfo :=
    AlertInfo("Create Failed", "There was an error creating this item. Please try again.", "Back to Flemmyng Menu", MenuPath, None)

  /** Name, price and category are required; the other inputs are not. */
  predicate CanSubmit(form: MenuForm, category: Option<string>)
  {
    form.name != "" && form.price != "" && Truthy(category)
  }

  /** The effect of one submit: nothing when a required field is empty, else one of the two alerts, decided by the status alone. */
  function SubmitOutcome(canSubmit: bool, reply: Reply<()>): (e: Effect)
    ensures !canSubmit ==> e == NoEffect
    ensures canSubmit && StatusSuccess(reply) ==> e == AlertEffect(CreatedAlert)
    ensures canSubmit && !StatusSuccess(reply) ==> e == AlertEffect(CreateFailedAlert)
  {
    if !canSubmit then NoEffect
    else if StatusSuccess(reply) then AlertEffect(CreatedAlert)
    else AlertEffect(CreateFailedAlert)
  }

  /** Every sent create ends on the alert page, whose button leads back to the menu. */
  lemma SentCreateReturnsToMenu(reply: Reply<()>)
    ensures SubmitOutcome(true, reply).navigations == ["/alert"]
    ensures SubmitOutcome(true, reply).alert.value.linkURL == MenuPath
  {
  }

  class CreateMenuItemPage {
    const window: Window
    const alerts: AlertInfoProvider
    /** The `:category` route parameter. */
    const category: Option<string>
    var form: MenuForm
    var error: string
    var showOptions: bool
    var showAllergens: bool
    var showDescription: bool

    constructor(window: Window, alerts: AlertInfoProvider, category: Option<string>)
      ensures this.window == window && this.alerts == alerts && this.category == category
      ensures form == EmptyForm && error == ""
      ensures !showOptions && !showAllergens && !showDescription
    {
      this.window := window;
      this.alerts := alerts;
      this.category := category;
      form := EmptyForm;
      error := "";
      showOptions := false;
      showAllergens := false;
      showDescription := false;
    }

    /** The effect on `category`: it only ever raises flags, never clears one. */
    method ConfigureVisibility()
      modifies this`showOptions, this`showAllergens, this`showDescription
      ensures showDescription == (old(showDescription) || CategoryVisibility(category).description)
      ensures showOptions == (old(showOptions) || CategoryVisibility(category).options)
      ensures showAllergens == (old(showAllergens) || CategoryVisibility(category).allergens)
    {
      var v := CategoryVisibility(category);
      if v.description {
        showDescription := true;
      }
      if v.options {
        showOptions := true;
      }
      if v.allergens {
        showAllergens := true;
      }
    }

    method HandleChange(field: TextField, value: string)
      modifies this`form
      ensures form == ChangeField(old(form), field, value)
    {
      form := ChangeField(form, field, value);
    }

    method HandleCheckboxChange(kind: ListKind, value: string)
      modifies this`form
      ensures form == ToggleIn(old(form), kind, value)
    {
      form := ToggleIn(form, kind, value);
    }

    /** `handleSubmit` with the server's answer `reply`; `request` is the payload sent, None when a required field was empty. */
    method HandleSubmit(reply: Reply<()>) returns (request: Option<Payload>)
      modifies this`error, window`history, alerts`alertInfo
      ensures error == (if CanSubmit(form, category) then "" else RequiredMessage)
      ensures request == (if CanSubmit(form, category) then Some(BuildPayload(form, category.value)) else None)
      ensures AlertApplied(window, alerts, SubmitOutcome(CanSubmit(form, category), reply), old(window.history), old(alerts.alertInfo))
    {
      error := "";
      if !CanSubmit(form, category) {
        error := RequiredMessage;
        assert window.history + [] == window.history;
        return None;
      }
      request := Some(BuildPayload(form, category.value));
      ApplyAlert(window, alerts, SubmitOutcome(true, reply));
    }

    /** The Cancel button. */
    method Cancel()
      modifies window`history
      ensures window.history == old(window.history) + [MenuPath]
    {
      window.Navigate(MenuPath);
    }
  }
}
