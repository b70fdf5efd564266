/** The conversion screen: the pay / receive form with its derived receive
    amount, the three-check validation and the delayed submission, and the
    waitlist form shown on the two tabs that are not built yet. */
module CryptoToCashWidget {
  import opened Wrappers
  import opened Strings
  import opened AmountInput

  datatype Tab = CryptoToCash | CashToCrypto | CryptoToFiatLoan

  datatype Wallet = Wallet(id: string, name: string, description: Option<string>)

  /** The keys of the error map. */
  datatype Field = PayAmountField | PayFromField | PayToField

  /** The data handed to `onConvert`. The receive amount is the number
      before `toFixed(2)` formats it. */
  datatype ConvertData = ConvertData(
    payAmount: string, payCurrency: Currency,
    receiveAmount: real, receiveCurrency: Currency,
    payFrom: Option<Wallet>, payTo: string)

  const PayCurrencies: seq<Currency> := [
    Currency("ETH", "Ethereum"),
    Currency("USDT - CELO", "CELO"),
    Currency("USDT - TON", "TON"),
    Currency("USDT - BNB", "BNB")
  ]

  const ReceiveCurrencies: seq<Currency> := [
    Currency("NGN", "Nigerian Naira"),
    Currency("GHS", "Ghanaian Cedi"),
    Currency("KES", "Kenyan Shilling"),
    Currency("ZAR", "South African Rand")
  ]

  const Wallets: seq<Wallet> := [
    Wallet("metamask", "Metamask", None),
    Wallet("rainbow", "Rainbow", None),
    Wallet("walletconnect", "WalletConnect", None),
    Wallet("other", "Other Crypto Wallets", Some("Binance, Coinbase, Bybit etc"))
  ]

  const PayoutMethods: seq<string> := ["Bank Account", "Mobile Money", "Cash Pickup"]

  const EmptyEmailError: string := "Please enter your email"
  const InvalidEmailError: string := "Please enter a valid email address"

  function ErrorMessage(f: Field): string {
    match f
    case PayAmountField => "Please enter a valid amount"
    case PayFromField => "Please select a wallet"
    case PayToField => "Please select a payment method"
  }

  // ---------------------------------------------------------------------
  // Amounts

  predicate HasDigit(s: string) {
    exists i :: 0 <= i < |s| && IsDigit(s[i])
  }

  predicate HasNonzeroDigit(s: string) {
    exists i :: 0 <= i < |s| && '1' <= s[i] <= '9'
  }

  /** The value of a run of decimal digits. */
  function DigitsValue(d: string): (v: nat)
    requires AllDigits(d)
    ensures v > 0 <==> HasNonzeroDigit(d)
  {
    if d == [] then 0
    else
      var init := d[..|d| - 1];
      assert forall i :: 0 <= i < |init| ==> init[i] == d[i];
      assert HasNonzeroDigit(d) <==> HasNonzeroDigit(init) || d[|d| - 1] != '0';
      DigitsValue(init) * 10 + (d[|d| - 1] as int - '0' as int)
  }

  function Pow10(n: nat): (p: nat)
    ensures p > 0
  {
    if n == 0 then 1 else 10 * Pow10(n - 1)
  }

  /** How a decimal text splits around its '.', and where its digits sit. */
  lemma DecimalTextParts(s: string)
    requires IsDecimalText(s)
    ensures var k := LeadingDigits(s);
            var fraction := if k < |s| then s[k + 1..] else "";
            && AllDigits(fraction)
            && (HasDigit(s) <==> s[..k] != "" || fraction != "")
            && (HasNonzeroDigit(s) <==> HasNonzeroDigit(s[..k]) || HasNonzeroDigit(fraction))
  {
    var k := LeadingDigits(s);
    var fraction := if k < |s| then s[k + 1..] else "";
    if k < |s| {
      assert s[k] == '.';
      assert forall i :: k < i < |s| ==> s[i] == fraction[i - k - 1];
      assert forall i :: 0 <= i < |fraction| ==> fraction[i] == s[k + 1 + i];
    }
    assert forall i :: 0 <= i < k ==> s[..k][i] == s[i];
    if HasDigit(s) {
      var i :| 0 <= i < |s| && IsDigit(s[i]);
      if i >= k {
        assert i > k;
      }
    }
    if s[..k] != "" {
      assert IsDigit(s[0]);
    }
    if fraction != "" {
      assert IsDigit(s[k + 1]);
    }
    if HasNonzeroDigit(s) {
      var i :| 0 <= i < |s| && '1' <= s[i] <= '9';
      if i >= k {
        assert i > k;
      }
    }
  }

  /** `parseFloat` on decimal text, None standing for NaN. Texts the amount
      field refuses are not given a value. */
  function ParseAmount(s: string): (r: Option<real>)
    ensures r.Some? <==> IsDecimalText(s) && HasDigit(s)
    ensures r.Some? ==> r.value >= 0.0 && (r.value > 0.0 <==> HasNonzeroDigit(s))
  {
    if !IsDecimalText(s) then None
    else
      var k := LeadingDigits(s);
      var fraction := if k < |s| then s[k + 1..] else "";
      DecimalTextParts(s);
      if s[..k] == "" && fraction == "" then None
      else
        Some(DecimalValue(DigitsValue(s[..k]), DigitsValue(fraction), Pow10(|fraction|)))
  }

  /** The number `whole.fraction`, the fraction's digits read as `fraction / scale`. */
  function DecimalValue(whole: nat, fraction: nat, scale: nat): (v: real)
    requires scale > 0
    ensures v >= 0.0 && (v > 0.0 <==> whole > 0 || fraction > 0)
  {
    var part := fraction as real / scale as real;
    assert fraction > 0 ==> part > 0.0;
    whole as real + part
  }

  /** The amount check of validateForm: `payAmount` is non-empty and parses to a number above zero. */
  predicate IsPositiveAmount(s: string) {
    s != "" && ParseAmount(s).Some? && ParseAmount(s).value > 0.0
  }

  /** `parseFloat(payAmount) || 0`. */
  function AmountOrZero(s: string): (r: real)
    ensures r >= 0.0
    ensures r > 0.0 <==> IsDecimalText(s) && HasNonzeroDigit(s)
  {
    match ParseAmount(s)
    case Some(v) => v
    case None => 0.0
  }

  /** The hard-coded rate: one figure for "ETH", another for every other symbol. */
  function Rate(symbol: string): real {
    if symbol == "ETH" then 3500000.0 else 1500.0
  }

  /** The receive amount the effect derives from the pay amount and currency. */
  function ReceiveAmount(payAmount: string, payCurrency: Currency): (r: real)
    ensures r >= 0.0
    ensures r > 0.0 <==> IsDecimalText(payAmount) && HasNonzeroDigit(payAmount)
  {
    AmountOrZero(payAmount) * Rate(payCurrency.symbol)
  }

  /** Two units of ETH receive 7,000,000; two units of any other pay currency receive 3,000. */
  lemma ReceiveAmountExamples(other: Currency)
    requires other.symbol != "ETH"
    ensures ReceiveAmount("2", PayCurrencies[0]) == 7000000.0
    ensures ReceiveAmount("2", other) == 3000.0
  {
    assert LeadingDigits("2") == 1;
    assert "2"[..1] == "2";
    assert DigitsValue("2") == 2;
  }

  /** The amount the form starts with passes validation. */
  lemma DefaultAmountIsPositive()
    ensures IsPositiveAmount("1.00")
  {
    DecimalTextMeaning("1.00");
    assert "1.00"[0] == '1';
  }

  // ---------------------------------------------------------------------
  // Validation

  /** The error map validateForm builds: three independent checks, each
      adding its field's message. */
  method BuildErrors(payAmount: string, payFrom: Option<Wallet>, payTo: string) returns (newErrors: map<Field, string>)
    ensures PayAmountField in newErrors <==> !IsPositiveAmount(payAmount)
    ensures IsDecimalText(payAmount) ==> (PayAmountField in newErrors <==> !HasNonzeroDigit(payAmount))
    ensures PayFromField in newErrors <==> payFrom.None?
    ensures PayToField in newErrors <==> payTo == ""
    ensures forall f :: f in newErrors ==> newErrors[f] == ErrorMessage(f)
  {
    newErrors := map[];
    if !IsPositiveAmount(payAmount) {
      newErrors := newErrors[PayAmountField := ErrorMessage(PayAmountField)];
    }
    if payFrom.None? {
      newErrors := newErrors[PayFromField := ErrorMessage(PayFromField)];
    }
    if payTo == "" {
      newErrors := newErrors[PayToField := ErrorMessage(PayToField)];
    }
  }

  /** An error map is empty exactly when none of the three fields has an error. */
  lemma NoErrorsIffNoFields(m: map<Field, string>)
    ensures m == map[] <==> PayAmountField !in m && PayFromField !in m && PayToField !in m
  {
    if PayAmountField !in m && PayFromField !in m && PayToField !in m {
      forall f | f in m
        ensures false
      {
        match f
        case PayAmountField =>
        case PayFromField =>
        case PayToField =>
      }
      assert m.Keys == {};
    }
  }

  /** A snapshot that passed validation, with the receive amount derived from it. */
  predicate ValidSnapshot(d: ConvertData) {
    && IsPositiveAmount(d.payAmount) && d.payFrom.Some? && d.payTo != ""
    && d.receiveAmount == ReceiveAmount(d.payAmount, d.payCurrency)
  }

  // ---------------------------------------------------------------------
  // Email

  /** A run matched by `[^\s@]+`. */
  predicate IsEmailPart(s: string) {
    |s| > 0 && forall i :: 0 <= i < |s| ==> !IsWhitespace(s[i]) && s[i] != '@'
  }

  /** `/^[^\s@]+@[^\s@]+\.[^\s@]+$/.test(s)`: the text splits as a part,
      '@', a part, '.', a part. */
  predicate IsValidEmail(s: string) {
    exists at, dot :: 0 <= at < dot < |s| && s[at] == '@' && s[dot] == '.'
      && IsEmailPart(s[..at]) && IsEmailPart(s[at + 1..dot]) && IsEmailPart(s[dot + 1..])
  }

  /** The same shape in words: no whitespace, exactly one '@', something
      before it, and a '.' in the domain that is neither its first nor its last character. */
  predicate EmailShape(s: string) {
    && (forall i :: 0 <= i < |s| ==> !IsWhitespace(s[i]))
    && exists at :: 0 < at < |s| && s[at] == '@'
         && (forall j :: 0 <= j < |s| && s[j] == '@' ==> j == at)
         && (exists dot :: at + 1 < dot < |s| - 1 && s[dot] == '.')
  }

  lemma EmailRegexMeaning(s: string)
    ensures IsValidEmail(s) <==> EmailShape(s)
  {
    if IsValidEmail(s) {
      var at, dot :| 0 <= at < dot < |s| && s[at] == '@' && s[dot] == '.'
        && IsEmailPart(s[..at]) && IsEmailPart(s[at + 1..dot]) && IsEmailPart(s[dot + 1..]);
      forall i | 0 <= i < |s| && i != at && i != dot
        ensures !IsWhitespace(s[i]) && s[i] != '@'
      {
        if i < at {
          assert s[i] == s[..at][i];
        } else if i < dot {
          assert s[i] == s[at + 1..dot][i - at - 1];
        } else {
          assert s[i] == s[dot + 1..][i - dot - 1];
        }
      }
      assert |s[..at]| > 0 && |s[at + 1..dot]| > 0 && |s[dot + 1..]| > 0;
      assert EmailShape(s);
    }
    if EmailShape(s) {
      var at :| 0 < at < |s| && s[at] == '@'
         && (forall j :: 0 <= j < |s| && s[j] == '@' ==> j == at)
         && (exists dot :: at + 1 < dot < |s| - 1 && s[dot] == '.');
      var dot :| at + 1 < dot < |s| - 1 && s[dot] == '.';
      assert IsEmailPart(s[..at]);
      assert IsEmailPart(s[at + 1..dot]);
      assert IsEmailPart(s[dot + 1..]);
    }
  }

  // ---------------------------------------------------------------------
  // The component's state

  /** The screen's state. `pendingConverts` holds the snapshots of the
      submissions still waiting for their delay, in the order they were made;
      `waitlistPending` counts the waitlist submissions still waiting. */
  class Widget {
    var activeTab: Tab
    var payAmount: string
    var payCurrency: Currency
    var receiveAmount: real
    var receiveCurrency: Currency
    var payFrom: Option<Wallet>
    var payTo: string
    var errors: map<Field, string>
    var isSubmitting: bool
    var isPayFromDropdownOpen: bool
    var isPayToDropdownOpen: bool
    var pendingConverts: seq<ConvertData>
    var waitlistEmail: string
    var waitlistError: string
    var waitlistSuccess: bool
    var waitlistLoading: bool
    var waitlistPending: nat

    /** What every handler preserves: the amount is decimal text (the amount
        field lets nothing else through), the receive amount is derived from the
        pay side, every error carries its field's message, the spinner is on
        only while a submission waits, and every waiting submission passed
        validation. */
    ghost predicate Valid()
      reads this
    {
      && IsDecimalText(payAmount)
      && receiveAmount == ReceiveAmount(payAmount, payCurrency)
      && (forall f :: f in errors ==> errors[f] == ErrorMessage(f))
      && (isSubmitting ==> |pendingConverts| > 0)
      && (forall i :: 0 <= i < |pendingConverts| ==> ValidSnapshot(pendingConverts[i]))
      && (waitlistLoading ==> waitlistPending > 0)
    }

    /** The first render, followed by the effects' first runs (the receive
        amount is derived from the initial amount). */
    constructor ()
      ensures Valid()
      ensures activeTab == CryptoToCash && payAmount == "1.00" && payCurrency == PayCurrencies[0]
      ensures IsPositiveAmount(payAmount)
      ensures receiveCurrency == ReceiveCurrencies[0] && payFrom.None? && payTo == ""
      ensures errors == map[] && !isSubmitting && pendingConverts == []
      ensures !isPayFromDropdownOpen && !isPayToDropdownOpen
      ensures waitlistEmail == "" && waitlistError == "" && !waitlistSuccess && !waitlistLoading && waitlistPending == 0
    {
      activeTab := CryptoToCash;
      payAmount := "1.00";
      payCurrency := PayCurrencies[0];
      receiveAmount := ReceiveAmount("1.00", PayCurrencies[0]);
      receiveCurrency := ReceiveCurrencies[0];
      payFrom := None;
      payTo := "";
      errors := map[];
      isSubmitting := false;
      isPayFromDropdownOpen := false;
      isPayToDropdownOpen := false;
      pendingConverts := [];
      waitlistEmail := "";
      waitlistError := "";
      waitlistSuccess := false;
      waitlistLoading := false;
      waitlistPending := 0;
      DefaultAmountIsPositive();
    }

    /** validateForm: installs a freshly built error map and reports whether it is empty. */
    method ValidateForm() returns (ok: bool)
      requires Valid()
      modifies this`errors
      ensures Valid()
      ensures PayAmountField in errors <==> !IsPositiveAmount(payAmount)
      ensures PayFromField in errors <==> payFrom.None?
      ensures PayToField in errors <==> payTo == ""
      ensures ok <==> errors == map[]
      ensures ok <==> IsPositiveAmount(payAmount) && payFrom.Some? && payTo != ""
    {
      errors := BuildErrors(payAmount, payFrom, payTo);
      ok := |errors| == 0;
      assert ok <==> errors.Keys == {};
      NoErrorsIffNoFields(errors);
    }

    /** handleConvert, up to its delay: a failed validation returns at once;
        otherwise the spinner goes on and the current fields are captured for
        `onConvert`. */
    method HandleConvert() returns (ok: bool)
      requires Valid()
      modifies this`errors, this`isSubmitting, this`pendingConverts
      ensures Valid()
      ensures PayAmountField in errors <==> !IsPositiveAmount(payAmount)
      ensures PayFromField in errors <==> payFrom.None?
      ensures PayToField in errors <==> payTo == ""
      ensures ok <==> errors == map[]
      ensures ok <==> IsPositiveAmount(payAmount) && payFrom.Some? && payTo != ""
      ensures !ok ==> isSubmitting == old(isSubmitting) && pendingConverts == old(pendingConverts)
      ensures ok ==>
                && isSubmitting
                && pendingConverts == old(pendingConverts) +
                     [ConvertData(payAmount, payCurrency, receiveAmount, receiveCurrency, payFrom, payTo)]
    {
      ok := ValidateForm();
      if !ok {
        return;
      }
      isSubmitting := true;
      pendingConverts := pendingConverts + [ConvertData(payAmount, payCurrency, receiveAmount, receiveCurrency, payFrom, payTo)];
    }

    /** The delay of the oldest waiting handleConvert ends: the spinner goes
        off and the snapshot taken at the click goes to `onConvert`. */
    method CompleteConvert() returns (payload: Option<ConvertData>)
      requires Valid()
      modifies this`isSubmitting, this`pendingConverts
      ensures Valid()
      ensures payload.Some? ==> ValidSnapshot(payload.value)
      ensures old(pendingConverts) == [] ==>
                payload.None? && isSubmitting == old(isSubmitting) && pendingConverts == []
      ensures old(pendingConverts) != [] ==>
                payload == Some(old(pendingConverts)[0]) && !isSubmitting && pendingConverts == old(pendingConverts)[1..]
    {
      if pendingConverts == [] {
        payload := None;
      } else {
        isSubmitting := false;
        payload := Some(pendingConverts[0]);
        pendingConverts := pendingConverts[1..];
      }
    }

    /** handlePayAmountChange: the amount is set, its error (only) is cleared,
        and the effect derives the receive amount again. Its only caller is
        the amount field's `onAmountChange`, which passes decimal text only
        (`AmountInput.AmountChange`). */
    method HandlePayAmountChange(amount: string)
      requires Valid()
      requires IsDecimalText(amount)
      modifies this`payAmount, this`errors, this`receiveAmount
      ensures Valid()
      ensures payAmount == amount && errors == old(errors) - {PayAmountField}
      ensures receiveAmount == ReceiveAmount(amount, payCurrency)
    {
      payAmount := amount;
      errors := errors - {PayAmountField};
      receiveAmount := ReceiveAmount(payAmount, payCurrency);
    }

    /** handlePayFromChange: the wallet is set and its error (only) is cleared. */
    method HandlePayFromChange(wallet: Wallet)
      requires Valid()
      modifies this`payFrom, this`errors
      ensures Valid()
      ensures payFrom == Some(wallet) && errors == old(errors) - {PayFromField}
    {
      payFrom := Some(wallet);
      errors := errors - {PayFromField};
    }

    /** handlePayToChange: the payout method is set and its error (only) is cleared. */
    method HandlePayToChange(option: string)
      requires Valid()
      modifies this`payTo, this`errors
      ensures Valid()
      ensures payTo == option && errors == old(errors) - {PayToField}
    {
      payTo := option;
      errors := errors - {PayToField};
    }

    /** A row of the wallet dropdown: the wallet is chosen and the dropdown closes. */
    method PickWallet(wallet: Wallet)
      requires Valid()
      modifies this`payFrom, this`errors, this`isPayFromDropdownOpen
      ensures Valid()
      ensures payFrom == Some(wallet) && errors == old(errors) - {PayFromField} && !isPayFromDropdownOpen
    {
      HandlePayFromChange(wallet);
      isPayFromDropdownOpen := false;
    }

    /** A row of the payout dropdown: the method is chosen and the dropdown closes. */
    method PickPayoutMethod(option: string)
      requires Valid()
      modifies this`payTo, this`errors, this`isPayToDropdownOpen
      ensures Valid()
      ensures payTo == option && errors == old(errors) - {PayToField} && !isPayToDropdownOpen
    {
      HandlePayToChange(option);
      isPayToDropdownOpen := false;
    }

    method TogglePayFromDropdown()
      modifies this`isPayFromDropdownOpen
      ensures isPayFromDropdownOpen == !old(isPayFromDropdownOpen)
    {
      isPayFromDropdownOpen := !isPayFromDropdownOpen;
    }

    method TogglePayToDropdown()
      modifies this`isPayToDropdownOpen
      ensures isPayToDropdownOpen == !old(isPayToDropdownOpen)
    {
      isPayToDropdownOpen := !isPayToDropdownOpen;
    }

    /** A mousedown anywhere closes each dropdown the pointer is outside of.
        The two dropdowns exist only on the conversion tab; elsewhere their
        references are empty and nothing closes. */
    method MouseDown(insidePayFrom: bool, insidePayTo: bool)
      modifies this`isPayFromDropdownOpen, this`isPayToDropdownOpen
      ensures isPayFromDropdownOpen ==
                if activeTab == CryptoToCash && !insidePayFrom then false else old(isPayFromDropdownOpen)
      ensures isPayToDropdownOpen ==
                if activeTab == CryptoToCash && !insidePayTo then false else old(isPayToDropdownOpen)
    {
      if activeTab == CryptoToCash {
        if !insidePayFrom {
          isPayFromDropdownOpen := false;
        }
        if !insidePayTo {
          isPayToDropdownOpen := false;
        }
      }
    }

    /** The pay-side currency picker's `onCurrencyChange`; the effect derives the receive amount again. */
    method SetPayCurrency(c: Currency)
      requires Valid()
      modifies this`payCurrency, this`receiveAmount
      ensures Valid()
      ensures payCurrency == c && receiveAmount == ReceiveAmount(payAmount, c)
    {
      payCurrency := c;
      receiveAmount := ReceiveAmount(payAmount, payCurrency);
    }

    /** The receive-side currency picker's `onCurrencyChange`: nothing is derived from it. */
    method SetReceiveCurrency(c: Currency)
      modifies this`receiveCurrency
      ensures receiveCurrency == c
    {
      receiveCurrency := c;
    }

    /** A tab is clicked. When the tab actually changes, the effect on
        `activeTab` resets the waitlist form. Waiting submissions are not
        cancelled. */
    method SetActiveTab(tab: Tab)
      requires Valid()
      modifies this`activeTab, this`waitlistEmail, this`waitlistError, this`waitlistSuccess, this`waitlistLoading
      ensures Valid()
      ensures activeTab == tab
      ensures tab != old(activeTab) ==>
                waitlistEmail == "" && waitlistError == "" && !waitlistSuccess && !waitlistLoading
      ensures tab == old(activeTab) ==>
                && waitlistEmail == old(waitlistEmail) && waitlistError == old(waitlistError)
                && waitlistSuccess == old(waitlistSuccess) && waitlistLoading == old(waitlistLoading)
    {
      if tab != activeTab {
        activeTab := tab;
        waitlistEmail := "";
        waitlistError := "";
        waitlistSuccess := false;
        waitlistLoading := false;
      }
    }

    /** Typing in the waitlist email field clears any error. */
    method HandleWaitlistEmailChange(email: string)
      requires Valid()
      modifies this`waitlistEmail, this`waitlistError
      ensures Valid()
      ensures waitlistEmail == email && waitlistError == ""
    {
      waitlistEmail := email;
      waitlistError := "";
    }

    /** handleWaitlistSubmit, up to its delay: an empty or malformed email
        sets its message and stops; a well-formed one clears the error, turns
        the spinner on and starts the delay. */
    method HandleWaitlistSubmit()
      requires Valid()
      modifies this`waitlistError, this`waitlistLoading, this`waitlistPending
      ensures Valid()
      ensures waitlistEmail == "" ==>
                waitlistError == EmptyEmailError
                && waitlistLoading == old(waitlistLoading) && waitlistPending == old(waitlistPending)
      ensures waitlistEmail != "" && !EmailShape(waitlistEmail) ==>
                waitlistError == InvalidEmailError
                && waitlistLoading == old(waitlistLoading) && waitlistPending == old(waitlistPending)
      ensures EmailShape(waitlistEmail) ==>
                waitlistError == "" && waitlistLoading && waitlistPending == old(waitlistPending) + 1
    {
      EmailRegexMeaning(waitlistEmail);
      if waitlistEmail == "" {
        waitlistError := EmptyEmailError;
        return;
      }
      if !IsValidEmail(waitlistEmail) {
        waitlistError := InvalidEmailError;
        return;
      }
      waitlistLoading := true;
      waitlistError := "";
      waitlistPending := waitlistPending + 1;
    }

    /** The delay of a waiting waitlist submission ends: spinner off, success
        on, email cleared -- whatever tab is showing by then. */
    method CompleteWaitlistSubmit()
      requires Valid()
      modifies this`waitlistLoading, this`waitlistSuccess, this`waitlistEmail, this`waitlistPending
      ensures Valid()
      ensures old(waitlistPending) > 0 ==>
                !waitlistLoading && waitlistSuccess && waitlistEmail == "" && waitlistPending == old(waitlistPending) - 1
      ensures old(waitlistPending) == 0 ==>
                && waitlistLoading == old(waitlistLoading) && waitlistSuccess == old(waitlistSuccess)
                && waitlistEmail == old(waitlistEmail) && waitlistPending == 0
    {
      if waitlistPending > 0 {
        waitlistPending := waitlistPending - 1;
        waitlistLoading := false;
        waitlistSuccess := true;
        waitlistEmail := "";
      }
    }
  }

  /** Submitting the untouched form reports the wallet and the payout
      method together and starts nothing; choosing a wallet then clears
      only the wallet's error. */
  method ValidationExample(wallet: Wallet) {
    var w := new Widget();
    var ok := w.HandleConvert();
    assert !ok && w.pendingConverts == [];
    assert PayAmountField !in w.errors && PayFromField in w.errors && PayToField in w.errors;
    w.PickWallet(wallet);
    assert PayAmountField !in w.errors && PayFromField !in w.errors && PayToField in w.errors;
    ok := w.HandleConvert();
    assert !ok && !w.isSubmitting;
    assert PayAmountField !in w.errors && PayFromField !in w.errors && PayToField in w.errors;
  }

  /** A waitlist submission that is still waiting when the tab changes lands
      on the new tab: the reset does not cancel it. */
  method LateWaitlistExample(email: string)
    requires EmailShape(email)
  {
    var w := new Widget();
    w.SetActiveTab(CashToCrypto);
    w.HandleWaitlistEmailChange(email);
    w.HandleWaitlistSubmit();
    w.SetActiveTab(CryptoToFiatLoan);
    assert !w.waitlistSuccess && !w.waitlistLoading;
    w.CompleteWaitlistSubmit();
    assert w.activeTab == CryptoToFiatLoan && w.waitlistSuccess;
  }
}
