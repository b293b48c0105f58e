/**
 * The contact search box's guard against browser autofill: a value that
 * looks like a URL, an API key or a model name is cleared when the page
 * loads and whenever the box gains or loses focus.
 */
module Events {
  import opened Js
  import opened ClientState
  import opened Chat

  /** Values longer than this (in UTF-16 code units) that contain a dot are cleared. */
  const MaxDottedLength: nat := 20

  /** `isAutofillGarbage`. */
  predicate IsAutofillGarbage(value: string)
    ensures IsAutofillGarbage(value) ==> value != ""
  {
    EmptyContainsNothing("http");
    EmptyContainsNothing("openrouter");
    EmptyContainsNothing("api");
    || Contains(value, "http")
    || Contains(value, "openrouter")
    || Contains(value, "api")
    || (Contains(value, ".") && Utf16Length(value) > MaxDottedLength)
  }

  /** Nothing is contained in the empty string but the empty string. */
  lemma EmptyContainsNothing(pattern: string)
    requires pattern != ""
    ensures !Contains("", pattern)
  {
    forall i | 0 <= i <= 0 ensures !OccursAt("", pattern, i) {
    }
  }

  /** The empty value is never garbage, so a cleared box stays as it is. */
  lemma EmptyIsNotGarbage()
    ensures !IsAutofillGarbage("")
  {
    EmptyContainsNothing("http");
    EmptyContainsNothing("openrouter");
    EmptyContainsNothing("api");
  }

  /** A dotted value of at most 20 code units without the three keywords is a legitimate search. */
  lemma ShortDottedValueIsKept(value: string)
    requires !Contains(value, "http") && !Contains(value, "openrouter") && !Contains(value, "api")
    requires Utf16Length(value) <= MaxDottedLength
    ensures !IsAutofillGarbage(value)
  {
  }

  /** The box's value after a check: cleared when it is garbage, untouched otherwise. */
  function CheckedValue(value: string): (r: string)
    ensures IsAutofillGarbage(value) ==> r == ""
    ensures !IsAutofillGarbage(value) ==> r == value
    ensures !IsAutofillGarbage(r)
  {
    EmptyIsNotGarbage();
    if IsAutofillGarbage(value) then "" else value
  }

  /** Checking twice is checking once: the focus and blur handlers never clear a value the load check kept. */
  lemma CheckIsIdempotent(value: string)
    ensures CheckedValue(CheckedValue(value)) == CheckedValue(value)
  {
  }

  /** A cleared box filters nothing: the contact list shows every contact again. */
  lemma ClearedBoxShowsEveryContact(contacts: seq<ClientConversation>, value: string)
    requires IsAutofillGarbage(value)
    ensures multiset(VisibleContacts(contacts, CheckedValue(value))) == multiset(contacts)
  {
    VisibleContactsSpec(contacts, "");
  }

  /** The contact search box. */
  class SearchBox {
    var value: string

    constructor (initial: string)
      ensures value == initial
    {
      value := initial;
    }

    /** The check run on load, on focus and on blur: it reports whether it cleared the box. */
    method ClearIfAutofill() returns (cleared: bool)
      modifies this
      ensures cleared == IsAutofillGarbage(old(value))
      ensures value == CheckedValue(old(value))
    {
      cleared := IsAutofillGarbage(value);
      if cleared {
        value := "";
      }
    }
  }
}
