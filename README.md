# Crypto-to-cash UI: a verified model of its state logic

The application is a two-screen web flow. On the conversion screen the user
enters an amount of crypto, picks a pay currency, a wallet and a payout
method, and submits. On the recipient screen the user picks a bank and types
an account number, which is then "verified" after a delay. Beneath the
rendering there is a thin layer of state logic. This project models that
layer in Dafny and proves what it promises:

- `strings.dfy` (module `Strings`): the string operations the components use.
  - the `\d` and `\s` classes of JavaScript regular expressions;
  - `toLowerCase`, restricted to ASCII;
  - `String.prototype.includes`;
  - `Array.prototype.filter`, with its order and membership properties.
- `amount_input.dfy` (module `AmountInput`): the amount field and its currency picker.
  - the keystroke filter `/^\d*\.?\d*$/`, proved to mean "digits with at most one '.'";
  - the currency search over symbol or name;
  - the picker's open and search state (`CurrencyPicker`).
- `select.dfy` (module `Select`): the generic dropdown.
  - the selected-option lookup (first match) and the text on its button;
  - the search, which matches the label only;
  - the open and search state guarded by `disabled` (`SelectState`).
- `crypto_to_cash.dfy` (module `CryptoToCashWidget`): the conversion screen, as class `Widget`.
  - the derived receive amount: amount × rate, where the rate is 3,500,000 for "ETH" and 1,500 otherwise;
  - the three independent validation checks;
  - a field edit clears only that field's error;
  - submission is gated on validation. The asynchronous submission is split into its start (`HandleConvert`) and the end of its delay (`CompleteConvert`);
  - the waitlist form of the two unfinished tabs: the email pattern, proved equivalent to a description in words, the submission and its completion, and the reset on a tab change.
- `recipient_details.dfy` (module `RecipientDetails`): the recipient screen, as class `RecipientForm`.
  - account-number normalisation: strip the non-digits, then keep the first ten. It is proved idempotent;
  - the case-insensitive bank search;
  - the verification effect with an explicit, cancellable timer;
  - the ordered three-step guard of "Next" and the `isFormValid` flag.
- `page.dfy` (module `Page`): the page that switches between the two screens.
- `wrappers.dfy` (module `Wrappers`): an `Option` type.

Each stateful component is a class. Its fields are the component's state
variables and its methods are the event handlers. A ghost predicate `Valid()`
holds the invariant the handlers preserve:

- `Widget.Valid()`:
  - the pay amount is decimal text, the only text the amount field emits;
  - the receive amount is always the one derived from the pay side;
  - every error carries its field's message;
  - every waiting submission passed validation.
- `RecipientForm.Valid()`:
  - the account number is digits only, with at most ten of them;
  - a name appears only as the verified one, for a complete number with a bank, and never while the spinner is on;
  - a pending timer belongs to a complete number with a bank.

Timers and awaited delays are explicit events:

- The recipient screen's verification timer is started, fired or cancelled.
  It carries a generation number, so a superseded timer never writes.
  Cancelling a pending verification (dropping below ten digits, or the
  screen unmounting) leaves `isLoading` as it was, exactly as the code does.
  `RecipientDetails.CancelKeepsSpinnerExample` walks through this case.
- A conversion submission records a snapshot of the fields when it is
  clicked. `CompleteConvert` later delivers that snapshot.
- A waitlist submission still waiting is counted. A tab change does not
  cancel it: `CryptoToCashWidget.LateWaitlistExample` shows one landing on
  the tab switched to.

## Model

| member | source | states |
|---|---|---|
| Strings.Lower | src/components/screens/RecipientDetails.tsx:78 | `toLowerCase` keeps the length and lower-cases every character |
| Strings.ContainsIffOccurs | src/components/screens/RecipientDetails.tsx:78 | `includes` holds exactly when the query occurs at some index of the text |
| Strings.ContainsEmpty | src/components/ui/AmountInput.tsx:67-68 | every text includes the empty query |
| Strings.ContainsFirstChar | src/components/screens/RecipientDetails.tsx:78 | a non-empty query occurs only in a text holding its first character |
| Strings.ContainsIgnoreCaseAtStart | src/components/screens/RecipientDetails.tsx:78 | a text that starts with the query, up to case, includes it ignoring case |
| Strings.ContainsIgnoreCaseFirstLetter | src/components/screens/RecipientDetails.tsx:78 | a text that includes the query ignoring case holds the query's first letter in some case |
| Strings.Filter | src/components/screens/RecipientDetails.tsx:77-79 | the result holds exactly the elements of the input that pass the test, and is no longer than it |
| Strings.FilterAppend | src/components/screens/RecipientDetails.tsx:77-79 | filtering distributes over concatenation, so it keeps the input's order |
| Strings.FilterKeepsAll | src/components/ui/AmountInput.tsx:64-70 | when every element passes, the filter returns the input unchanged |
| AmountInput.DecimalTextMeaning | src/components/ui/AmountInput.tsx:59 | `/^\d*\.?\d*$/` accepts a text iff it is made of digits with at most one '.' (the empty text included) |
| AmountInput.AmountChange | src/components/ui/AmountInput.tsx:57-62 | `onAmountChange` receives the new text unchanged iff it is digits with at most one '.'; otherwise nothing is emitted |
| AmountInput.ToggleShowsDropdown | src/components/ui/AmountInput.tsx:92-116 | after the currency button's toggle, the dropdown is shown iff the list is non-empty and it was closed; an empty list never shows it |
| AmountInput.FilteredCurrencies | src/components/ui/AmountInput.tsx:64-70 | when searchable: a currency is listed iff it is in the list and its symbol or name contains the query ignoring case; otherwise the list itself |
| AmountInput.FilteredCurrenciesEmptyQuery | src/components/ui/AmountInput.tsx:64-70 | an empty search lists every currency, in order, searchable or not |
| AmountInput.CurrencyPicker.constructor | src/components/ui/AmountInput.tsx:34-35 | the dropdown starts closed with an empty search |
| AmountInput.CurrencyPicker.ToggleCurrency | src/components/ui/AmountInput.tsx:92-116 | the button flips the dropdown only when there are currencies, with none it changes nothing; afterwards the dropdown is shown iff the list is non-empty and it was closed |
| AmountInput.CurrencyPicker.SetSearchQuery | src/components/ui/AmountInput.tsx:138 | typing sets the search text |
| AmountInput.CurrencyPicker.SelectCurrency | src/components/ui/AmountInput.tsx:155-159 | the chosen currency is the one handed to `onCurrencyChange`; the dropdown closes and the search clears |
| AmountInput.CurrencyPicker.MouseDown | src/components/ui/AmountInput.tsx:39-49 | a mousedown outside closes the dropdown and clears the search; one inside changes nothing |
| Select.SelectedOption | src/components/ui/Select.tsx:38 | None iff no option has the value; otherwise the option at the first index whose value equals it |
| Select.DisplayedTextMeaning | src/components/ui/Select.tsx:95 | the button shows the label of the first option with the current value, or the placeholder when that label is empty |
| Select.DisplayedTextNoMatch | src/components/ui/Select.tsx:95 | when no option has the current value (or there is none), the placeholder is shown |
| Select.FilteredOptions | src/components/ui/Select.tsx:40-44 | when searchable: an option is listed iff its label contains the query ignoring case; otherwise all options |
| Select.FilteredOptionsByLabelOnly | src/components/ui/Select.tsx:40-44 | options with equal labels are listed or dropped together: the value and the description are never searched |
| Select.SelectState.constructor | src/components/ui/Select.tsx:33-34 | the dropdown starts closed with an empty search |
| Select.SelectState.Toggle | src/components/ui/Select.tsx:80 | the button flips the dropdown unless disabled; disabled, it changes nothing |
| Select.SelectState.SetSearchQuery | src/components/ui/Select.tsx:132 | typing sets the search text |
| Select.SelectState.HandleSelect | src/components/ui/Select.tsx:64-68 | `onChange` receives the option's value; the dropdown closes and the search clears |
| Select.SelectState.MouseDown | src/components/ui/Select.tsx:46-56 | a mousedown outside closes the dropdown and clears the search; one inside changes nothing |
| RecipientDetails.StripNonDigitsMeaning | src/components/screens/RecipientDetails.tsx:82 | the `\D` removal works character by character: it distributes over concatenation and keeps exactly the digits |
| RecipientDetails.NormalizeAccountNumber | src/components/screens/RecipientDetails.tsx:82 | the result is digits only, at most ten of them, a prefix of the input's digits in order, and all of them when there are at most ten |
| RecipientDetails.StripDigitsOnly | src/components/screens/RecipientDetails.tsx:82 | text that is digits only is left unchanged by the digit filter |
| RecipientDetails.NormalizeFixesDigits | src/components/screens/RecipientDetails.tsx:82 | up to ten digits are their own normal form |
| RecipientDetails.NormalizeIdempotent | src/components/screens/RecipientDetails.tsx:82 | normalising twice equals normalising once |
| RecipientDetails.FilteredBanks | src/components/screens/RecipientDetails.tsx:77-79 | a bank is listed iff it is in the catalogue and its name (never its code) contains the query ignoring case; at most ten banks |
| RecipientDetails.FilteredBanksEmptyQuery | src/components/screens/RecipientDetails.tsx:77-79 | an empty search lists all ten banks in catalogue order |
| RecipientDetails.FilteredBanksFindsPrefix | src/components/screens/RecipientDetails.tsx:77-79 | a catalogue bank whose name starts with the query, in any case, is listed |
| RecipientDetails.FilteredBanksSkipsMissingLetter | src/components/screens/RecipientDetails.tsx:77-79 | a bank whose name lacks the query's first letter in either case is not listed |
| RecipientDetails.NextError | src/components/screens/RecipientDetails.tsx:90-102 | the checks run in order: no bank gives "Please select a bank"; a bank with a number not of ten digits gives the 10-digit message; a bank and ten digits with no name gives "Unable to verify account"; no error iff all three pass |
| RecipientDetails.FormValidPassesNext | src/components/screens/RecipientDetails.tsx:90-111 | whenever `isFormValid` holds, all of handleNext's checks pass |
| RecipientDetails.RecipientForm.constructor | src/components/screens/RecipientDetails.tsx:38-44 | the initial state: no bank, empty number, name and error, no spinner, no timer; the invariant holds |
| RecipientDetails.RecipientForm.VerificationEffect | src/components/screens/RecipientDetails.tsx:60-75 | the old timer is cleared; ten digits with a bank turn the spinner on, clear error and name and arm a new timer; anything else only clears the name and leaves the spinner |
| RecipientDetails.RecipientForm.FireVerification | src/components/screens/RecipientDetails.tsx:66-69 | only the armed, most recent timer writes: the mock name appears and the spinner goes off; any other changes nothing |
| RecipientDetails.RecipientForm.HandleAccountNumberChange | src/components/screens/RecipientDetails.tsx:81-88 | the number becomes the normalised input; fewer than ten digits clear name and error; a changed number runs the effect; the spinner is never turned off |
| RecipientDetails.RecipientForm.SelectBank | src/components/screens/RecipientDetails.tsx:191-195 | the bank is selected, the dropdown closes and the search clears; a different bank runs the effect |
| RecipientDetails.RecipientForm.ToggleBankDropdown | src/components/screens/RecipientDetails.tsx:136 | the button flips the bank dropdown |
| RecipientDetails.RecipientForm.SetSearchQuery | src/components/screens/RecipientDetails.tsx:173 | typing sets the bank search text |
| RecipientDetails.RecipientForm.MouseDown | src/components/screens/RecipientDetails.tsx:48-58 | a mousedown outside closes the dropdown and clears the search; one inside changes nothing |
| RecipientDetails.RecipientForm.HandleNext | src/components/screens/RecipientDetails.tsx:90-109 | the first failing check's message is set and nothing is sent; when all pass, `onNext` gets the bank, the number and the verified name, and the error is left alone |
| RecipientDetails.RecipientForm.FormValid | src/components/screens/RecipientDetails.tsx:111 | `isFormValid` iff a bank, ten digits and the verified name; then handleNext's checks all pass |
| RecipientDetails.RecipientForm.Unmount | src/components/screens/RecipientDetails.tsx:71 | the effect's cleanup on unmount leaves no timer armed |
| CryptoToCashWidget.DigitsValue | src/components/screens/CryptoToCashWidget.tsx:124 | the value of a digit run is positive iff it holds a non-zero digit |
| CryptoToCashWidget.DecimalTextParts | src/components/screens/CryptoToCashWidget.tsx:124 | a decimal text splits into whole digits and fraction digits, and holds a (non-zero) digit iff one of the parts does |
| CryptoToCashWidget.ParseAmount | src/components/screens/CryptoToCashWidget.tsx:124 | the model's reading of `parseFloat`: the exact rational a decimal text denotes, defined (not NaN) iff the text has a digit; never negative, and positive iff some digit is non-zero |
| CryptoToCashWidget.AmountOrZero | src/components/screens/CryptoToCashWidget.tsx:116 | the model's `parseFloat(payAmount) \|\| 0`: the exact rational or 0, never negative, and positive iff the text is decimal with a non-zero digit |
| CryptoToCashWidget.ReceiveAmount | src/components/screens/CryptoToCashWidget.tsx:115-119 | amount × rate is never negative and is positive iff the amount has a non-zero digit |
| CryptoToCashWidget.ReceiveAmountExamples | src/components/screens/CryptoToCashWidget.tsx:117-118 | the rate is 3,500,000 for "ETH" and 1,500 for every other symbol (2 → 7,000,000 and 3,000) |
| CryptoToCashWidget.DefaultAmountIsPositive | src/components/screens/CryptoToCashWidget.tsx:86 | the initial amount "1.00" passes the amount check |
| CryptoToCashWidget.BuildErrors | src/components/screens/CryptoToCashWidget.tsx:121-136 | the map has the amount key iff the amount is empty, not a number or not above zero; the wallet key iff no wallet; the payout key iff no method; each with its own message |
| CryptoToCashWidget.NoErrorsIffNoFields | src/components/screens/CryptoToCashWidget.tsx:138 | an error map has no keys iff none of the three fields is in it |
| CryptoToCashWidget.EmailRegexMeaning | src/components/screens/CryptoToCashWidget.tsx:194 | the email pattern holds iff: no whitespace, exactly one '@' with something before it, and a '.' in the domain that is neither its first nor its last character |
| CryptoToCashWidget.Widget.constructor | src/components/screens/CryptoToCashWidget.tsx:84-96 | the initial state: amount "1.00" in the first pay currency with its derived receive amount, no wallet, no method, no errors; the invariant holds |
| CryptoToCashWidget.Widget.ValidateForm | src/components/screens/CryptoToCashWidget.tsx:121-139 | installs the three-check error map and returns true iff it is empty, i.e. iff the amount is positive, a wallet and a method are chosen |
| CryptoToCashWidget.Widget.HandleConvert | src/components/screens/CryptoToCashWidget.tsx:141-146 | on failure the spinner and the waiting submissions are untouched; on success the spinner goes on and a snapshot of the current fields is queued |
| CryptoToCashWidget.Widget.CompleteConvert | src/components/screens/CryptoToCashWidget.tsx:147-157 | the end of the oldest delay turns the spinner off and hands its snapshot, one that passed validation, to `onConvert` |
| CryptoToCashWidget.Widget.HandlePayAmountChange | src/components/screens/CryptoToCashWidget.tsx:160-165 | the amount (decimal text, the only text the amount field emits) is set, only its error is removed, and the receive amount is derived again |
| CryptoToCashWidget.Widget.HandlePayFromChange | src/components/screens/CryptoToCashWidget.tsx:167-172 | the wallet is set and only its error is removed |
| CryptoToCashWidget.Widget.HandlePayToChange | src/components/screens/CryptoToCashWidget.tsx:174-179 | the payout method is set and only its error is removed |
| CryptoToCashWidget.Widget.PickWallet | src/components/screens/CryptoToCashWidget.tsx:331-334 | a wallet row sets the wallet, removes only its error and closes the dropdown |
| CryptoToCashWidget.Widget.PickPayoutMethod | src/components/screens/CryptoToCashWidget.tsx:383-386 | a payout row sets the method, removes only its error and closes the dropdown |
| CryptoToCashWidget.Widget.TogglePayFromDropdown | src/components/screens/CryptoToCashWidget.tsx:305 | the wallet button flips its dropdown |
| CryptoToCashWidget.Widget.TogglePayToDropdown | src/components/screens/CryptoToCashWidget.tsx:360 | the payout button flips its dropdown |
| CryptoToCashWidget.Widget.MouseDown | src/components/screens/CryptoToCashWidget.tsx:101-113 | on the conversion tab each dropdown the pointer is outside of closes, independently; on the other tabs nothing closes |
| CryptoToCashWidget.Widget.SetPayCurrency | src/components/screens/CryptoToCashWidget.tsx:279 | the pay currency is set and the receive amount is derived again at its rate |
| CryptoToCashWidget.Widget.SetReceiveCurrency | src/components/screens/CryptoToCashWidget.tsx:293 | the receive currency is set; nothing is derived from it |
| CryptoToCashWidget.Widget.SetActiveTab | src/components/screens/CryptoToCashWidget.tsx:186-191 | the tab is set; an actual change resets email, error, success and loading; the same tab changes nothing |
| CryptoToCashWidget.Widget.HandleWaitlistEmailChange | src/components/screens/CryptoToCashWidget.tsx:242-245 | typing sets the email and clears any error |
| CryptoToCashWidget.Widget.HandleWaitlistSubmit | src/components/screens/CryptoToCashWidget.tsx:193-205 | an empty email sets its message, a malformed one the other, both leaving loading untouched; a well-formed one clears the error, turns loading on and starts the delay |
| CryptoToCashWidget.Widget.CompleteWaitlistSubmit | src/components/screens/CryptoToCashWidget.tsx:206-209 | the end of a waiting delay sets loading off, success on and the email to "", whatever the tab |
| Page.Home.constructor | src/app/page.tsx:10 | the page opens on the conversion screen |
| Page.Home.OnConvert | src/app/page.tsx:15 | `onConvert` shows the recipient screen, whatever its payload |
| Page.Home.OnBack | src/app/page.tsx:19 | `onBack` shows the conversion screen |
| Page.Home.OnNext | src/app/page.tsx:20 | `onNext` leaves the screen as it is |
| Page.ConversionDelayEnds | src/app/page.tsx:15 | when a submission's delay ends, the page moves to the recipient screen iff a submission was waiting, and it passed validation |

## Left out

- Rendering, CSS classes, icons, the "No … found" and error texts' layout, and the buttons, inputs and tabs of the UI kit (Button, Input, Tabs, Icons) and the type declarations: presentation with no state logic of the core.
- Focus management (the effects that focus a search box, `autoFocus`) and how the DOM decides that a click was outside: a mousedown is an event with an `inside` flag.
- Real time and concurrency: each timer or awaited delay is a pair of events, a start and a completion, that the caller orders.
- CryptoToCashWidget.ReceiveAmount: the receive amount is the exact real product; the `toFixed(2)` formatting and its binary floating-point rounding are not modelled.
- CryptoToCashWidget.ParseAmount, AmountOrZero: the value is the exact rational the decimal text denotes; `parseFloat`'s rounding to a binary double is not modelled. A text too small for a double (say "0." followed by 400 zeros and a "1") parses to 0 in the code, so validateForm flags the amount, while the model accepts it; a text too large (400 nines) parses to Infinity, which passes validation in both but shows "Infinity" as the receive amount.
- CryptoToCashWidget.ParseAmount: `parseFloat` is given a value only on decimal text; its leniency on other text (a number followed by junk, exponents, signs, "Infinity") is not modelled and such text parses to None. The widget's invariant keeps the amount decimal text, and `Widget.HandlePayAmountChange` requires decimal text, because its only caller is the amount field's `onAmountChange` (`AmountInput.AmountChange`), which emits nothing else.
- Strings.Lower: `toLowerCase` is modelled on ASCII letters only; Unicode case mapping is not.
- CryptoToCashWidget.Widget.HandlePayAmountChange, HandlePayFromChange and HandlePayToChange: the code sets the field's entry to `undefined` rather than deleting the key. Every reader of the map (the truthiness tests and the message display) treats the two the same, so the model removes the key.
- Page: switching screens unmounts one component and mounts the other, which discards its state; the model keeps the two component objects apart and does not re-create them.
- The receive-side amount field is read-only and gets no change handler; it has no operation of its own.
- React re-runs an effect when a dependency changes by identity. Banks are catalogue constants, so the model compares them by value.
