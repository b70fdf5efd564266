/** The amount field with its currency picker: the keystroke filter that only
    lets decimal text through, the currency search, and the open / search
    state of the currency dropdown. */
module AmountInput {
  import opened Wrappers
  import opened Strings

  datatype Currency = Currency(symbol: string, name: string)

  /** The test `/^\d*\.?\d*$/.test(s)`. The digit class and '.' are disjoint,
      so the match is decided greedily: the leading digits, then either the
      end of the text or a '.' followed by nothing but digits. */
  predicate IsDecimalText(s: string) {
    var k := LeadingDigits(s);
    k == |s| || (s[k] == '.' && AllDigits(s[k + 1..]))
  }

  /** Every character is a digit or a '.', and there is at most one '.'. */
  predicate DigitsWithAtMostOneDot(s: string) {
    && (forall i :: 0 <= i < |s| ==> IsDigit(s[i]) || s[i] == '.')
    && (forall i, j :: 0 <= i < |s| && 0 <= j < |s| && s[i] == '.' && s[j] == '.' ==> i == j)
  }

  /** The decimal pattern accepts exactly the texts made of digits with at most one '.'. */
  lemma DecimalTextMeaning(s: string)
    ensures IsDecimalText(s) <==> DigitsWithAtMostOneDot(s)
  {
    var k := LeadingDigits(s);
    assert forall i :: 0 <= i < k ==> IsDigit(s[..k][i]);
    if IsDecimalText(s) && k < |s| {
      forall i | k < i < |s|
        ensures IsDigit(s[i])
      {
        assert s[i] == s[k + 1..][i - k - 1];
      }
    }
    if DigitsWithAtMostOneDot(s) && k < |s| {
      assert s[k] == '.';
      forall i | k < i < |s|
        ensures IsDigit(s[i])
      {
      }
    }
  }

  /** handleAmountChange: the text handed to `onAmountChange`, or None when
      the keystroke is silently ignored. */
  function AmountChange(value: string): (emitted: Option<string>)
    ensures emitted.Some? <==> DigitsWithAtMostOneDot(value)
    ensures emitted.Some? ==> emitted.value == value
  {
    DecimalTextMeaning(value);
    if IsDecimalText(value) then Some(value) else None
  }

  /** The search of the currency list: symbol or name, ignoring case. */
  predicate CurrencyMatches(c: Currency, query: string) {
    ContainsIgnoreCase(c.symbol, query) || ContainsIgnoreCase(c.name, query)
  }

  /** filteredCurrencies: the searched list when the picker is searchable, the whole list otherwise. */
  function FilteredCurrencies(currencies: seq<Currency>, searchable: bool, query: string): (r: seq<Currency>)
    ensures searchable ==> forall c :: c in r <==> c in currencies && CurrencyMatches(c, query)
    ensures !searchable ==> r == currencies
  {
    if searchable then Filter(currencies, c => CurrencyMatches(c, query)) else currencies
  }

  /** An empty search shows every currency, in order. */
  lemma FilteredCurrenciesEmptyQuery(currencies: seq<Currency>, searchable: bool)
    ensures FilteredCurrencies(currencies, searchable, "") == currencies
  {
    forall c | c in currencies
      ensures CurrencyMatches(c, "")
    {
      ContainsEmpty(Lower(c.symbol));
    }
    FilterKeepsAll(currencies, c => CurrencyMatches(c, ""));
  }

  /** The dropdown is drawn only while open and when there is something to pick. */
  predicate DropdownShown(isCurrencyOpen: bool, currencies: seq<Currency>) {
    isCurrencyOpen && |currencies| > 0
  }

  /** After the currency button is clicked (`ToggleCurrency`'s new state
      `isOpen` from the old one `wasOpen`), the dropdown is shown exactly when
      the list is non-empty and it was closed: an empty list never shows it. */
  lemma ToggleShowsDropdown(wasOpen: bool, isOpen: bool, currencies: seq<Currency>)
    requires |currencies| > 0 ==> isOpen == !wasOpen
    requires |currencies| == 0 ==> isOpen == wasOpen
    ensures DropdownShown(isOpen, currencies) <==> |currencies| > 0 && !wasOpen
  {
  }

  /** The picker's own state: whether the dropdown is open and the search text. */
  class CurrencyPicker {
    var isCurrencyOpen: bool
    var searchQuery: string

    constructor ()
      ensures !isCurrencyOpen && searchQuery == ""
    {
      isCurrencyOpen := false;
      searchQuery := "";
    }

    /** The currency button flips the dropdown, but only when there are currencies. */
    method ToggleCurrency(currencies: seq<Currency>)
      modifies this`isCurrencyOpen
      ensures |currencies| > 0 ==> isCurrencyOpen == !old(isCurrencyOpen)
      ensures |currencies| == 0 ==> isCurrencyOpen == old(isCurrencyOpen)
      ensures DropdownShown(isCurrencyOpen, currencies) <==> |currencies| > 0 && !old(isCurrencyOpen)
    {
      var wasOpen := isCurrencyOpen;
      if |currencies| > 0 {
        isCurrencyOpen := !isCurrencyOpen;
      }
      ToggleShowsDropdown(wasOpen, isCurrencyOpen, currencies);
    }

    /** Typing in the search box of the dropdown. */
    method SetSearchQuery(query: string)
      modifies this`searchQuery
      ensures searchQuery == query
    {
      searchQuery := query;
    }

    /** Choosing a row: the currency goes to `onCurrencyChange`, the dropdown
        closes and the search is cleared. */
    method SelectCurrency(curr: Currency) returns (chosen: Currency)
      modifies this
      ensures chosen == curr
      ensures !isCurrencyOpen && searchQuery == ""
    {
      chosen := curr;
      isCurrencyOpen := false;
      searchQuery := "";
    }

    /** A mousedown anywhere: outside the picker it closes the dropdown and
        clears the search; inside it changes nothing. */
    method MouseDown(inside: bool)
      modifies this
      ensures !inside ==> !isCurrencyOpen && searchQuery == ""
      ensures inside ==> isCurrencyOpen == old(isCurrencyOpen) && searchQuery == old(searchQuery)
    {
      if !inside {
        isCurrencyOpen := false;
        searchQuery := "";
      }
    }
  }
}
