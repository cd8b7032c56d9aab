/**
 The short menu-item card: the allergen line it renders from an item's
 optional allergen list.
 */
module MenuItem {
  import opened Wrappers
  import opened Js

  const AllergenSeparator: string := ", "

  /** The allergen paragraph: empty without a list, else the list joined by ", " inside parentheses (an empty array is truthy). */
  function AllergenLine(allergens: Option<seq<string>>): (r: string)
    ensures allergens.None? ==> r == ""
    ensures allergens.Some? ==> |r| >= 2 && r[0] == '(' && r[|r| - 1] == ')'
  {
    match allergens
    case None => ""
    case Some(list) => "(" + Join(list, AllergenSeparator) + ")"
  }

  /** A present list always shows its parentheses, even when empty. */
  lemma EmptyListShowsParentheses()
    ensures AllergenLine(Some([])) == "()"
    ensures AllergenLine(None) == ""
  {
  }

  /** The text between the parentheses splits back into the list, as long as no code holds a comma. */
  lemma AllergenLineRoundTrip(list: seq<string>)
    requires |list| >= 1
    requires forall k :: 0 <= k < |list| ==> ',' !in list[k]
    ensures var r := AllergenLine(Some(list)); Split(r[1..|r| - 1], AllergenSeparator) == list
  {
    var r := AllergenLine(Some(list));
    assert r[1..|r| - 1] == Join(list, AllergenSeparator);
    SplitJoin(list, AllergenSeparator);
  }

  /** An empty list and a list holding one empty code render the same, so the line alone cannot tell them apart. */
  lemma EmptyListLooksLikeOneEmptyCode()
    ensures AllergenLine(Some([])) == AllergenLine(Some([""]))
  {
  }
}
