/** The recipient screen: a bank picked from a fixed catalogue, an account
    number normalised on every keystroke, a simulated verification that runs
    on a cancellable timer, and the guard of the "Next" button. */
module RecipientDetails {
  import opened Wrappers
  import opened Strings

  datatype Bank = Bank(id: string, name: string, code: string)

  /** The bank catalogue, in display order. */
  const Banks: seq<Bank> := [
    Bank("1", "Access Bank", "044"),
    Bank("2", "First Bank", "011"),
    Bank("3", "GTBank", "058"),
    Bank("4", "UBA", "033"),
    Bank("5", "Zenith Bank", "057"),
    Bank("6", "Kuda Bank", "090267"),
    Bank("7", "Opay", "999992"),
    Bank("8", "Palmpay", "999991"),
    Bank("9", "Moniepoint", "999993"),
    Bank("10", "Sterling Bank", "232")
  ]

  /** The name every verification resolves to. */
  const MockAccountName: string := "ODUTUGA GBEKE"

  /** The length of a complete account number. */
  const AccountNumberLength: nat := 10

  const NoBankError: string := "Please select a bank"
  const BadNumberError: string := "Please enter a valid 10-digit account number"
  const UnverifiedError: string := "Unable to verify account. Please try again."

  /** The data handed to `onNext`. */
  datatype NextData = NextData(bank: Bank, accountNumber: string, accountName: string)

  /** `value.replace(/\D/g, "")`. */
  function StripNonDigits(s: string): string {
    Filter(s, IsDigit)
  }

  /** The digit filter works character by character and keeps the order. */
  lemma StripNonDigitsMeaning(a: string, b: string, c: char)
    ensures StripNonDigits(a + b) == StripNonDigits(a) + StripNonDigits(b)
    ensures StripNonDigits([c]) == if IsDigit(c) then [c] else []
  {
    FilterAppend(a, b, IsDigit);
    assert [c][1..] == [];
  }

  /** handleAccountNumberChange's normalisation: drop the non-digits, then
      keep at most the first ten characters (`slice(0, 10)`). */
  function NormalizeAccountNumber(raw: string): (r: string)
    ensures AllDigits(r)
    ensures |r| <= AccountNumberLength
    ensures forall c :: c in raw && IsDigit(c) && |StripNonDigits(raw)| <= AccountNumberLength ==> c in r
    ensures r <= StripNonDigits(raw)
    ensures |r| == if |StripNonDigits(raw)| < AccountNumberLength then |StripNonDigits(raw)| else AccountNumberLength
  {
    var digits := StripNonDigits(raw);
    assert forall i :: 0 <= i < |digits| ==> digits[i] in digits;
    if |digits| <= AccountNumberLength then digits else digits[..AccountNumberLength]
  }

  /** Text that is already digits only is left alone by the digit filter. */
  lemma StripDigitsOnly(s: string)
    requires AllDigits(s)
    ensures StripNonDigits(s) == s
  {
    forall c | c in s
      ensures IsDigit(c)
    {
      var i :| 0 <= i < |s| && s[i] == c;
    }
    FilterKeepsAll(s, IsDigit);
  }

  /** A complete or partial account number is its own normal form. */
  lemma NormalizeFixesDigits(s: string)
    requires AllDigits(s) && |s| <= AccountNumberLength
    ensures NormalizeAccountNumber(s) == s
  {
    StripDigitsOnly(s);
  }

  /** Normalising twice is normalising once. */
  lemma NormalizeIdempotent(raw: string)
    ensures NormalizeAccountNumber(NormalizeAccountNumber(raw)) == NormalizeAccountNumber(raw)
  {
    NormalizeFixesDigits(NormalizeAccountNumber(raw));
  }

  /** The bank search: the name, ignoring case; the code is not searched. */
  predicate BankMatches(b: Bank, query: string) {
    ContainsIgnoreCase(b.name, query)
  }

  /** filteredBanks: the catalogue banks whose name contains the query. */
  function FilteredBanks(query: string): (r: seq<Bank>)
    ensures forall b :: b in r <==> b in Banks && ContainsIgnoreCase(b.name, query)
    ensures |r| <= |Banks|
  {
    Filter(Banks, b => BankMatches(b, query))
  }

  /** An empty search lists the whole catalogue, in order. */
  lemma FilteredBanksEmptyQuery()
    ensures FilteredBanks("") == Banks
    ensures |FilteredBanks("")| == 10
  {
    forall b | b in Banks
      ensures BankMatches(b, "")
    {
      ContainsEmpty(Lower(b.name));
    }
    FilterKeepsAll(Banks, b => BankMatches(b, ""));
  }

  /** A catalogue bank whose name starts with the query, up to case, is
      listed. */
  lemma FilteredBanksFindsPrefix(query: string, b: Bank)
    requires b in Banks
    requires |query| <= |b.name|
    requires forall i :: 0 <= i < |query| ==> LowerChar(b.name[i]) == LowerChar(query[i])
    ensures b in FilteredBanks(query)
  {
    ContainsIgnoreCaseAtStart(b.name, query);
  }

  /** A bank whose name lacks the query's first letter, in either case, is
      not listed. */
  lemma FilteredBanksSkipsMissingLetter(query: string, b: Bank)
    requires |query| > 0
    requires forall i :: 0 <= i < |b.name| ==> LowerChar(b.name[i]) != LowerChar(query[0])
    ensures b !in FilteredBanks(query)
  {
    if ContainsIgnoreCase(b.name, query) {
      ContainsIgnoreCaseFirstLetter(b.name, query);
    }
  }

  /** The first check of handleNext that fails, in the order the handler makes them. */
  function NextError(selectedBank: Option<Bank>, accountNumber: string, accountName: string): (r: Option<string>)
    ensures r.None? <==> selectedBank.Some? && |accountNumber| == AccountNumberLength && accountName != ""
    ensures r in {None, Some(NoBankError), Some(BadNumberError), Some(UnverifiedError)}
    ensures selectedBank.None? ==> r == Some(NoBankError)
    ensures selectedBank.Some? && |accountNumber| != AccountNumberLength ==> r == Some(BadNumberError)
    ensures selectedBank.Some? && |accountNumber| == AccountNumberLength && accountName == "" ==> r == Some(UnverifiedError)
  {
    if selectedBank.None? then Some(NoBankError)
    else if |accountNumber| != AccountNumberLength then Some(BadNumberError)
    else if accountName == "" then Some(UnverifiedError)
    else None
  }

  /** isFormValid, the flag that enables the "Next" button. */
  predicate IsFormValid(selectedBank: Option<Bank>, accountNumber: string, accountName: string, isLoading: bool) {
    selectedBank.Some? && |accountNumber| == AccountNumberLength && accountName != "" && !isLoading
  }

  /** Whenever the button is enabled, handleNext's own checks all pass: its
      error messages are defence in depth. */
  lemma FormValidPassesNext(selectedBank: Option<Bank>, accountNumber: string, accountName: string, isLoading: bool)
    requires IsFormValid(selectedBank, accountNumber, accountName, isLoading)
    ensures NextError(selectedBank, accountNumber, accountName) == None
  {
  }

  /** The screen's state. The verification timer is explicit: `timerPending`
      says whether a timer is armed and `timerId` is the handle of the most
      recently started one; clearing a timer drops the pending flag. */
  class RecipientForm {
    var selectedBank: Option<Bank>
    var accountNumber: string
    var accountName: string
    var isLoading: bool
    var isBankDropdownOpen: bool
    var searchQuery: string
    var error: string
    var timerPending: bool
    var timerId: nat

    /** What every handler preserves: the account number is normal, a name
        appears only as the verified one, only for a complete number with a
        bank and never beside a pending timer or the spinner, and a pending
        timer belongs to a complete number with a bank, with the spinner on. */
    ghost predicate Valid()
      reads this
    {
      && AllDigits(accountNumber) && |accountNumber| <= AccountNumberLength
      && (accountName == "" || accountName == MockAccountName)
      && (accountName != "" ==> |accountNumber| == AccountNumberLength && selectedBank.Some? && !isLoading)
      && (timerPending ==> |accountNumber| == AccountNumberLength && selectedBank.Some? && isLoading && accountName == "")
    }

    /** The first render, followed by the first run of the verification
        effect (which takes its "else" branch). */
    constructor ()
      ensures Valid()
      ensures selectedBank.None? && accountNumber == "" && accountName == "" && !isLoading
      ensures !isBankDropdownOpen && searchQuery == "" && error == "" && !timerPending
    {
      selectedBank := None;
      accountNumber := "";
      accountName := "";
      isLoading := false;
      isBankDropdownOpen := false;
      searchQuery := "";
      error := "";
      timerPending := false;
      timerId := 0;
    }

    /** The verification effect, run after a render in which `accountNumber`
        or `selectedBank` changed: the previous run's cleanup clears its timer,
        then a complete number with a bank starts a fresh verification, and
        anything else only clears the name. The spinner is left as it was. */
    method VerificationEffect()
      requires AllDigits(accountNumber) && |accountNumber| <= AccountNumberLength
      requires accountName == "" || accountName == MockAccountName
      modifies this`isLoading, this`error, this`accountName, this`timerPending, this`timerId
      ensures Valid()
      ensures |accountNumber| == AccountNumberLength && selectedBank.Some? ==>
                isLoading && error == "" && accountName == "" && timerPending && timerId == old(timerId) + 1
      ensures !(|accountNumber| == AccountNumberLength && selectedBank.Some?) ==>
                isLoading == old(isLoading) && error == old(error) && accountName == ""
                && !timerPending && timerId == old(timerId)
    {
      timerPending := false;
      if |accountNumber| == AccountNumberLength && selectedBank.Some? {
        isLoading := true;
        error := "";
        accountName := "";
        timerId := timerId + 1;
        timerPending := true;
      } else {
        accountName := "";
      }
    }

    /** The timer with handle `id` goes off. Only the armed, most recent timer
        does anything: a cleared or superseded one never fires. */
    method FireVerification(id: nat)
      requires Valid()
      modifies this`accountName, this`isLoading, this`timerPending
      ensures Valid()
      ensures old(timerPending) && id == timerId ==> accountName == MockAccountName && !isLoading
      ensures !(old(timerPending) && id == timerId) ==>
                accountName == old(accountName) && isLoading == old(isLoading) && timerPending == old(timerPending)
    {
      if timerPending && id == timerId {
        accountName := MockAccountName;
        isLoading := false;
        timerPending := false;
      }
    }

    /** handleAccountNumberChange: the normalised text becomes the account
        number; a short number clears the name and the error at once; if the
        number changed, the verification effect runs. */
    method HandleAccountNumberChange(raw: string)
      requires Valid()
      modifies this`accountNumber, this`isLoading, this`error, this`accountName, this`timerPending, this`timerId
      ensures Valid()
      ensures accountNumber == NormalizeAccountNumber(raw)
      ensures |accountNumber| < AccountNumberLength ==> accountName == "" && error == ""
      ensures old(isLoading) ==> isLoading
      ensures accountNumber == old(accountNumber) ==>
                && isLoading == old(isLoading) && timerPending == old(timerPending) && timerId == old(timerId)
                && accountName == old(accountName)
                && error == (if |accountNumber| < AccountNumberLength then "" else old(error))
      ensures accountNumber != old(accountNumber) && |accountNumber| == AccountNumberLength && selectedBank.Some? ==>
                isLoading && error == "" && accountName == "" && timerPending && timerId == old(timerId) + 1
      ensures accountNumber != old(accountNumber) && !(|accountNumber| == AccountNumberLength && selectedBank.Some?) ==>
                && isLoading == old(isLoading) && accountName == "" && !timerPending && timerId == old(timerId)
                && error == (if |accountNumber| < AccountNumberLength then "" else old(error))
    {
      var value := NormalizeAccountNumber(raw);
      var changed := value != accountNumber;
      accountNumber := value;
      if |value| < AccountNumberLength {
        accountName := "";
        error := "";
      }
      if changed {
        VerificationEffect();
      }
    }

    /** A row of the bank dropdown: the bank is selected, the dropdown closes
        and the search is cleared; if the bank changed, the verification
        effect runs. */
    method SelectBank(bank: Bank)
      requires Valid()
      modifies this
      ensures Valid()
      ensures selectedBank == Some(bank) && !isBankDropdownOpen && searchQuery == ""
      ensures accountNumber == old(accountNumber)
      ensures old(isLoading) ==> isLoading
      ensures old(selectedBank) == Some(bank) ==>
                && isLoading == old(isLoading) && error == old(error) && accountName == old(accountName)
                && timerPending == old(timerPending) && timerId == old(timerId)
      ensures old(selectedBank) != Some(bank) && |accountNumber| == AccountNumberLength ==>
                isLoading && error == "" && accountName == "" && timerPending && timerId == old(timerId) + 1
      ensures old(selectedBank) != Some(bank) && |accountNumber| != AccountNumberLength ==>
                && isLoading == old(isLoading) && error == old(error) && accountName == ""
                && !timerPending && timerId == old(timerId)
    {
      var changed := selectedBank != Some(bank);
      selectedBank := Some(bank);
      isBankDropdownOpen := false;
      searchQuery := "";
      if changed {
        VerificationEffect();
      }
    }

    /** The bank button flips the dropdown. */
    method ToggleBankDropdown()
      modifies this`isBankDropdownOpen
      ensures isBankDropdownOpen == !old(isBankDropdownOpen)
    {
      isBankDropdownOpen := !isBankDropdownOpen;
    }

    /** Typing in the bank search box. */
    method SetSearchQuery(query: string)
      modifies this`searchQuery
      ensures searchQuery == query
    {
      searchQuery := query;
    }

    /** A mousedown anywhere: outside the bank picker it closes the dropdown
        and clears the search; inside it changes nothing. */
    method MouseDown(inside: bool)
      modifies this`isBankDropdownOpen, this`searchQuery
      ensures !inside ==> !isBankDropdownOpen && searchQuery == ""
      ensures inside ==> isBankDropdownOpen == old(isBankDropdownOpen) && searchQuery == old(searchQuery)
    {
      if !inside {
        isBankDropdownOpen := false;
        searchQuery := "";
      }
    }

    /** handleNext: the first failing check sets its message; when all pass,
        the recipient goes to `onNext` and the error is left as it was. */
    method HandleNext() returns (next: Option<NextData>)
      requires Valid()
      modifies this`error
      ensures Valid()
      ensures NextError(selectedBank, accountNumber, accountName).Some? ==>
                next.None? && error == NextError(selectedBank, accountNumber, accountName).value
      ensures NextError(selectedBank, accountNumber, accountName).None? ==>
                error == old(error) && next == Some(NextData(selectedBank.value, accountNumber, MockAccountName))
    {
      var failure := NextError(selectedBank, accountNumber, accountName);
      if failure.Some? {
        error := failure.value;
        next := None;
      } else {
        next := Some(NextData(selectedBank.value, accountNumber, accountName));
      }
    }

    /** isFormValid of the current state. Given the invariant, the spinner
        test is implied by the others, and a valid form carries the verified name. */
    method FormValid() returns (valid: bool)
      requires Valid()
      ensures valid <==> selectedBank.Some? && |accountNumber| == AccountNumberLength && accountName == MockAccountName
      ensures valid ==> NextError(selectedBank, accountNumber, accountName).None?
    {
      valid := IsFormValid(selectedBank, accountNumber, accountName, isLoading);
    }

    /** The screen unmounts: the effect's last cleanup clears a pending timer. */
    method Unmount()
      requires Valid()
      modifies this`timerPending
      ensures Valid() && !timerPending
    {
      timerPending := false;
    }
  }

  /** A second complete number typed before the first verification fires
      supersedes it: the first timer never writes, the second one does. */
  method SupersedeExample(bank: Bank, first: string, second: string)
    requires AllDigits(first) && AllDigits(second)
    requires |first| == AccountNumberLength && |second| == AccountNumberLength && first != second
  {
    var form := new RecipientForm();
    form.SelectBank(bank);
    NormalizeFixesDigits(first);
    form.HandleAccountNumberChange(first);
    var firstTimer := form.timerId;
    NormalizeFixesDigits(second);
    form.HandleAccountNumberChange(second);
    assert form.timerPending && form.timerId == firstTimer + 1;
    form.FireVerification(firstTimer);
    assert form.accountName == "" && form.isLoading;
    form.FireVerification(form.timerId);
    assert form.accountName == MockAccountName && !form.isLoading;
  }

  /** Deleting a digit while a verification is pending cancels it and clears
      the name at once, but the spinner stays on and "Next" stays disabled. */
  method CancelKeepsSpinnerExample(bank: Bank, complete: string)
    requires AllDigits(complete) && |complete| == AccountNumberLength
  {
    var form := new RecipientForm();
    form.SelectBank(bank);
    NormalizeFixesDigits(complete);
    form.HandleAccountNumberChange(complete);
    var shorter := complete[..AccountNumberLength - 1];
    NormalizeFixesDigits(shorter);
    form.HandleAccountNumberChange(shorter);
    assert !form.timerPending && form.accountName == "" && form.isLoading;
    var valid := form.FormValid();
    assert !valid;
  }
}
