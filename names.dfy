/**
 The display name the user-details and employee pages build:
 `${firstName} ${middleName ? middleName + " " : ""}${lastName}`.
 */
module Names {
  import opened Wrappers
  import opened Js

  function FullName(first: string, middle: Option<string>, last: string): string
  {
    first + " " + (if Truthy(middle) then middle.value + " " else "") + last
  }

  /** The words of a name: the middle one only when it is present and non-empty. */
  function NameParts(first: string, middle: Option<string>, last: string): (parts: seq<string>)
    ensures |parts| == (if Truthy(middle) then 3 else 2)
    ensures parts[0] == first && parts[|parts| - 1] == last
  {
    if Truthy(middle) then [first, middle.value, last] else [first, last]
  }

  /** The full name is the present name parts joined with single spaces. */
  lemma FullNameJoinsParts(first: string, middle: Option<string>, last: string)
    ensures FullName(first, middle, last) == Join(NameParts(first, middle, last), " ")
  {
    if Truthy(middle) {
      calc {
        Join([first, middle.value, last], " ");
        first + " " + Join([middle.value, last], " ");
        first + " " + (middle.value + " " + last);
      }
    }
  }

  /** An absent, null or empty middle name leaves exactly one space between first and last names. */
  lemma FalsyMiddleIsOmitted(first: string, middle: Option<string>, last: string)
    requires !Truthy(middle)
    ensures FullName(first, middle, last) == first + " " + last
  {
  }

  /**
   When no part holds a space, splitting the full name on " " gives back the
   parts: the formatting loses nothing and adds no empty word.
   */
  lemma FullNameWordsRoundTrip(first: string, middle: Option<string>, last: string)
    requires ' ' !in first && ' ' !in last
    requires middle.Some? ==> ' ' !in middle.value
    ensures Split(FullName(first, middle, last), " ") == NameParts(first, middle, last)
  {
    FullNameJoinsParts(first, middle, last);
    SplitJoin(NameParts(first, middle, last), " ");
  }
}
