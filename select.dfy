/** The generic dropdown: the lookup of the selected option, the label
    search, and the open / search state guarded by `disabled`. */
module Select {
  import opened Wrappers
  import opened Strings

  /** An option; `caption` is its `label` (a reserved word in Dafny). */
  datatype SelectOption = SelectOption(value: string, caption: string, description: Option<string>)

  /** selectedOption: `options.find(opt => opt.value === value)`. An absent
      `value` (undefined) equals no option's value. */
  function SelectedOption(options: seq<SelectOption>, value: Option<string>): (r: Option<SelectOption>)
    ensures r.None? <==> forall o :: o in options ==> value != Some(o.value)
    ensures r.Some? ==> exists k :: 0 <= k < |options| && options[k] == r.value
                          && value == Some(r.value.value)
                          && forall j :: 0 <= j < k ==> value != Some(options[j].value)
  {
    if options == [] then None
    else if value == Some(options[0].value) then Some(options[0])
    else
      var r := SelectedOption(options[1..], value);
      assert forall o :: o in options ==> o == options[0] || o in options[1..];
      if r.Some? then
        var k' :| 0 <= k' < |options[1..]| && options[1..][k'] == r.value
                  && value == Some(r.value.value)
                  && forall j :: 0 <= j < k' ==> value != Some(options[1..][j].value);
        assert options[k' + 1] == r.value;
        assert forall j :: 1 <= j < k' + 1 ==> options[j] == options[1..][j - 1];
        r
      else r
  }

  /** The text on the button: `selectedOption?.label || placeholder`. */
  function DisplayedText(options: seq<SelectOption>, value: Option<string>, placeholder: string): string {
    match SelectedOption(options, value)
    case Some(o) => if o.caption != "" then o.caption else placeholder
    case None => placeholder
  }

  /** The placeholder is shown when no option has the current value, and the
      label of the first option that has it otherwise, unless that label is empty. */
  lemma DisplayedTextMeaning(options: seq<SelectOption>, value: Option<string>, placeholder: string, k: nat)
    requires k < |options| && value == Some(options[k].value)
    requires forall j :: 0 <= j < k ==> options[j].value != options[k].value
    ensures options[k].caption != "" ==> DisplayedText(options, value, placeholder) == options[k].caption
    ensures options[k].caption == "" ==> DisplayedText(options, value, placeholder) == placeholder
  {
    var r := SelectedOption(options, value);
    var k' :| 0 <= k' < |options| && options[k'] == r.value
              && value == Some(r.value.value)
              && forall j :: 0 <= j < k' ==> value != Some(options[j].value);
    assert k' == k;
  }

  /** With no option holding the current value, the placeholder is shown. */
  lemma DisplayedTextNoMatch(options: seq<SelectOption>, value: Option<string>, placeholder: string)
    requires forall o :: o in options ==> value != Some(o.value)
    ensures DisplayedText(options, value, placeholder) == placeholder
  {
  }

  /** The search matches the label only, ignoring case. */
  predicate OptionMatches(o: SelectOption, query: string) {
    ContainsIgnoreCase(o.caption, query)
  }

  /** filteredOptions: the searched options when searchable, all of them otherwise. */
  function FilteredOptions(options: seq<SelectOption>, searchable: bool, query: string): (r: seq<SelectOption>)
    ensures searchable ==> forall o :: o in r <==> o in options && ContainsIgnoreCase(o.caption, query)
    ensures !searchable ==> r == options
  {
    if searchable then Filter(options, o => OptionMatches(o, query)) else options
  }

  /** The value and the description are never searched: options with equal
      labels are kept or dropped together. */
  lemma FilteredOptionsByLabelOnly(options: seq<SelectOption>, query: string, a: SelectOption, b: SelectOption)
    requires a in options && b in options && a.caption == b.caption
    ensures a in FilteredOptions(options, true, query) <==> b in FilteredOptions(options, true, query)
  {
  }

  /** The dropdown's own state. */
  class SelectState {
    var isOpen: bool
    var searchQuery: string

    constructor ()
      ensures !isOpen && searchQuery == ""
    {
      isOpen := false;
      searchQuery := "";
    }

    /** The button flips the dropdown unless the select is disabled. */
    method Toggle(disabled: bool)
      modifies this`isOpen
      ensures disabled ==> isOpen == old(isOpen)
      ensures !disabled ==> isOpen == !old(isOpen)
    {
      if !disabled {
        isOpen := !isOpen;
      }
    }

    /** Typing in the search box of the dropdown. */
    method SetSearchQuery(query: string)
      modifies this`searchQuery
      ensures searchQuery == query
    {
      searchQuery := query;
    }

    /** handleSelect: the value goes to `onChange`, the dropdown closes and
        the search is cleared. */
    method HandleSelect(optionValue: string) returns (changed: string)
      modifies this
      ensures changed == optionValue
      ensures !isOpen && searchQuery == ""
    {
      changed := optionValue;
      isOpen := false;
      searchQuery := "";
    }

    /** A mousedown anywhere: outside the select it closes the dropdown and
        clears the search; inside it changes nothing. */
    method MouseDown(inside: bool)
      modifies this
      ensures !inside ==> !isOpen && searchQuery == ""
      ensures inside ==> isOpen == old(isOpen) && searchQuery == old(searchQuery)
    {
      if !inside {
        isOpen := false;
        searchQuery := "";
      }
    }
  }
}
