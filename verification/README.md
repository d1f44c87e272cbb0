# Tip advisor core, modelled in Dafny

A model of the logic inside the tip advisor's React components. The advisor is a browser app. A user picks a destination country and enters a bill. The app works out the tip and the total, and converts the total into a home currency. An optional wizard suggests a tip percentage.

The model has four parts, one module per component:

- `Calculator` (`calculator.dfy`) models the calculator card. A pure function computes the tip, total and home-currency total from the parsed bill, the tip mode and the parsed custom percentage (the `useMemo` block). The class `CalculatorCard` holds the card's state: bill, tip mode, custom percentage, suggestion annotation and whether the dialog is open. Its methods are the country-change reset, the suggestion handler, the custom-field handler and the input setters.
- `SuggestTip` (`suggest_tip.dfy`) models the four-step suggestion wizard. The scoring rule is a pure function. `Forward` and `Backward` give the step edges, and the class `SuggestTipDialog` holds the step and the three answers. Its invariant `Valid()` says that every step before the current one has been answered.
- `CountryFilter` (`country_filter.dfy`) models the case-insensitive substring filter over the country list.
- `Chat` (`chat.dfy`) models the chat transcript's send rule. The class `ChatInterface` holds the message list, the input text and the number of mock replies still scheduled.

Two support modules:

- `Types` (`types.dfy`) holds the data shapes: `Option`, the tip options, a country and the rate table.
- `JsMath` (`js_math.dfy`) defines `Math.ceil`, `Math.round`, `Math.max` and `Math.min` over unbounded reals and integers.

Modelling choices:

- A text field the code passes to `parseFloat` is held as what `parseFloat` yields: `Option<real>`, where `None` is NaN (empty or non-numeric text). `OrZero` is the `|| 0` fallback.
- `tipOptions[1] || tipOptions[0]` on an empty preset list yields `undefined`. This is the tip mode `Unselected`, and it gives no tip, the same as `none`.
- The wizard's accept emits only `percentage`, `quality` and `serviceCharge` (src/components/SuggestTipDialog.tsx:19). The calculator also copies a `serviceType` field (src/components/CalculatorCard.tsx:36-39). That field is therefore always `undefined`, so the model's annotation holds only the quality and charge answers.
- The mock reply's one-second timer is a separate step, `DeliverReply`. Each send schedules exactly one reply. The class invariant says that LLM messages plus pending replies equal user messages.
- Closing the wizard resets it at once. The code resets it 300 ms later, which is only an animation delay.

Behaviours of the code worth knowing:

- The suggestion is bounded by `max(0, round(base) + 5)`, not by `base + 5`, because the code rounds after adding (`SuggestionBounds`). The two bounds agree for a whole-number middle preset. With a fractional preset they differ: `FractionalBaseExample` shows that 14.6 gives a suggestion of 20, above 19.6.
- The chat panel (`ChatInterface.tsx`) sends nothing over the network. It schedules a fixed mock reply, and that is what `Chat` models.
- The conversion `|| 1` treats a missing rate pair and a stored rate of 0 alike: both convert 1:1 (`Rate`, `Conversion`).
- The tip is not clamped at 0. A negative custom percentage gives a negative tip and a total below the bill (src/components/CalculatorCard.tsx:55), and the model keeps that (`TipAmount`, `CustomTotals`).
- Re-selecting the destination already shown keeps the bill and the tip mode. The reset effect runs only when the `country` prop changes (`ChangeCountry`).

## Model

| member | source | states |
|---|---|---|
| `JsMath.Ceil` | src/components/CalculatorCard.tsx:53 | `Math.ceil(x)` is the integer n with x <= n < x + 1 |
| `JsMath.Round` | src/components/SuggestTipDialog.tsx:76 | `Math.round(x)` is the integer n with x - 0.5 < n <= x + 0.5, so halves round up |
| `JsMath.Max` | src/components/SuggestTipDialog.tsx:76 | `Math.max` is one of its arguments and at least both |
| `JsMath.Min` | src/components/SuggestTipDialog.tsx:70 | `Math.min` is one of its arguments and at most both |
| `Calculator.TipAmount` | src/components/CalculatorCard.tsx:50-58 | round-up gives a tip in [0, 1) that makes the total whole; custom and a preset give that percentage of the bill; none or unset give 0; a zero bill gets no tip in any mode |
| `Calculator.OrZero` | src/components/CalculatorCard.tsx:49 | the fallback to 0 after `parseFloat`: a failed parse counts as 0, otherwise the parsed number |
| `Calculator.Rate` | src/components/CalculatorCard.tsx:61 | the rate is the stored multiplier when it is present and non-zero, 1 when the pair is missing or stored as 0 |
| `Calculator.ComputeTotals` | src/components/CalculatorCard.tsx:48-69 | the total is the parsed bill plus the tip; the home total is the total times the looked-up rate |
| `Calculator.RoundUpTotals` | src/components/CalculatorCard.tsx:52-53 | round-up: 0 <= tip < 1, the total is `ceil(bill)`, the least whole amount not below the bill, and a whole bill gets tip 0 |
| `Calculator.PercentTotals` | src/components/CalculatorCard.tsx:56-57 | a fixed percent p gives tip = bill·p/100 and total = bill·(100+p)/100 |
| `Calculator.CustomTotals` | src/components/CalculatorCard.tsx:54-55 | custom: tip = bill·c/100 for the parsed custom c; unparseable custom text gives tip 0 and total = bill |
| `Calculator.NoTipTotals` | src/components/CalculatorCard.tsx:50-60 | `none` (or an unset mode) fires no branch: tip 0, total = bill |
| `Calculator.EmptyBillTotals` | src/components/CalculatorCard.tsx:49-62 | an empty or unparseable bill shows 0 tip, 0 total and 0 home total in every mode |
| `Calculator.Conversion` | src/components/CalculatorCard.tsx:61-62 | the home total equals the total when the pair is missing or stored as 0, and is the total times the stored rate otherwise |
| `Calculator.DefaultMode` | src/components/CalculatorCard.tsx:29-33 | presets load the second preset when it exists and is non-zero; otherwise (one preset, or a second preset of 0) the first; an empty list gives `undefined`; round-up and none load themselves |
| `Calculator.RoundUpExample` | src/components/CalculatorCard.tsx:48-69 | a bill of 49.30 rounded up gives tip 0.70, total 50, and 46 in EUR at 0.92; into a currency missing from the table the total stays 50 |
| `Calculator.CalculatorCard.constructor` | src/components/CalculatorCard.tsx:19-34 | the mounted card is in the fresh state for its country, with the dialog closed |
| `Calculator.CalculatorCard.ChangeCountry` | src/components/CalculatorCard.tsx:25-34 | a different country clears bill, custom text and annotation and sets the tip mode to the country's default; re-selecting the shown country changes nothing, since the effect depends on `[country]` |
| `Calculator.CalculatorCard.EnterBill` | src/components/CalculatorCard.tsx:101 | typing a bill changes only the bill |
| `Calculator.CalculatorCard.SelectTipOption` | src/components/CalculatorCard.tsx:107-123 | only the buttons shown can be clicked (the country's presets, "Round Up Bill" for a round-up country, "Custom", none for a no-tipping country); a click changes only the tip mode |
| `Calculator.CalculatorCard.OpenSuggestDialog` | src/components/CalculatorCard.tsx:107-143 | "Suggest a Tip", shown unless the country has no tipping, opens the dialog and changes nothing else |
| `Calculator.CalculatorCard.HandleSuggestTip` | src/components/CalculatorCard.tsx:36-41 | accepting sets mode `custom`, custom text = the percentage, records the annotation and closes the dialog; the bill and country are kept |
| `Calculator.CalculatorCard.HandleCustomTipChange` | src/components/CalculatorCard.tsx:43-46 | editing the custom text clears the annotation and changes nothing else |
| `Calculator.CalculatorCard.CustomTipComputed` | src/components/CalculatorCard.tsx:48-62 | with mode `custom` and a custom value, the tip the card computes is that percentage of the bill, and the computed total is the bill plus it. After an accepted suggestion the card's render then fails at src/components/CalculatorCard.tsx:135 (see "## Left out"), so these amounts are computed but not shown |
| `Calculator.CalculatorCard.AcceptSuggestion` | src/components/CalculatorCard.tsx:172-177 | accepting in the rendered dialog puts that dialog's suggestion for this country into the custom field and resets the dialog |
| `Calculator.CalculatorCard.DismissSuggestion` | src/components/CalculatorCard.tsx:172-177 | cancelling or dismissing resets the dialog and closes it; the card's tip state is kept |
| `SuggestTip.BaseTip` | src/components/SuggestTipDialog.tsx:50-57 | the base of a non-empty preset list is its element at index floor(len/2); 15 for an empty list, 10 for round-up, 0 for none |
| `SuggestTip.QualityAdjusted` | src/components/SuggestTipDialog.tsx:59-66 | Excellent adds 5, Good keeps the base, Average subtracts 5 (five points per quality rank), Poor gives 0 |
| `SuggestTip.ChargeAdjusted` | src/components/SuggestTipDialog.tsx:68-74 | without a charge the tip is kept; with one it is at most 5: Excellent and Good keep the tip or drop it to 5, never raising it, and Average and Poor get 0 |
| `SuggestTip.SuggestedTip` | src/components/SuggestTipDialog.tsx:47-77 | the suggestion is never negative and is 0 when no quality is chosen |
| `SuggestTip.SuggestionBounds` | src/components/SuggestTipDialog.tsx:59-76 | 0 <= suggestion <= max(0, round(base) + 5) |
| `SuggestTip.SuggestionZero` | src/components/SuggestTipDialog.tsx:48-76 | the suggestion is 0 with no quality, with Poor, and with a charge and Average or Poor |
| `SuggestTip.SuggestionChargeCap` | src/components/SuggestTipDialog.tsx:68-71 | with a service charge included the suggestion is at most 5 |
| `SuggestTip.SuggestionWithCharge` | src/components/SuggestTipDialog.tsx:68-76 | with a charge, Excellent and Good get min(their suggestion without a charge, 5), and Average and Poor get 0 |
| `SuggestTip.SuggestionWithoutCharge` | src/components/SuggestTipDialog.tsx:59-66 | without a charge: Excellent gives round(base)+5, Good round(base), Average round(base)-5, Poor 0, each clamped at 0 |
| `SuggestTip.SuggestionMonotoneInQuality` | src/components/SuggestTipDialog.tsx:59-76 | a better quality level never gives a lower suggestion |
| `SuggestTip.ChargeNeverRaises` | src/components/SuggestTipDialog.tsx:68-76 | answering Yes to the charge question never gives a higher suggestion than any other answer |
| `SuggestTip.WorkedExamples` | src/components/SuggestTipDialog.tsx:47-77 | presets [10,15,20]: Excellent without a charge gives 20; Average with a charge gives 0 |
| `SuggestTip.FractionalBaseExample` | src/components/SuggestTipDialog.tsx:53-76 | a middle preset of 14.6 with Excellent gives 20, which is above base + 5 |
| `SuggestTip.Forward` | src/components/SuggestTipDialog.tsx:104-140 | a forward click stays put or advances exactly one step |
| `SuggestTip.Backward` | src/components/SuggestTipDialog.tsx:121-150 | a back click goes back exactly one step; the first step has no back button |
| `SuggestTip.ForwardGuard` | src/components/SuggestTipDialog.tsx:104-140 | a forward move happens if and only if the current step's answer is present, and it keeps "all earlier steps answered" |
| `SuggestTip.BackThenForward` | src/components/SuggestTipDialog.tsx:121-150 | after going back, the forward button leads back to where the user was, because no answer was lost |
| `SuggestTip.SuggestionStepComplete` | src/components/SuggestTipDialog.tsx:104-140 | the suggestion step is reached only with all three answers present |
| `SuggestTip.SuggestTipDialog.constructor` | src/components/SuggestTipDialog.tsx:26-29 | the dialog starts at `serviceType` with no answers |
| `SuggestTip.SuggestTipDialog.ChooseServiceType` | src/components/SuggestTipDialog.tsx:94 | picking a service type changes only that answer |
| `SuggestTip.SuggestTipDialog.ChooseQuality` | src/components/SuggestTipDialog.tsx:112 | picking a quality changes only that answer |
| `SuggestTip.SuggestTipDialog.ChooseCharge` | src/components/SuggestTipDialog.tsx:130 | picking Yes/No changes only that answer |
| `SuggestTip.SuggestTipDialog.Next` | src/components/SuggestTipDialog.tsx:104-140 | Next moves along the guarded forward edge, reports whether it moved, and keeps the answers |
| `SuggestTip.SuggestTipDialog.Back` | src/components/SuggestTipDialog.tsx:121-150 | Back / Go Back changes only the step and keeps all answers |
| `SuggestTip.SuggestTipDialog.Close` | src/components/SuggestTipDialog.tsx:33-45 | any close resets to `serviceType` and clears the three answers |
| `SuggestTip.SuggestTipDialog.Accept` | src/components/SuggestTipDialog.tsx:79-86 | accept emits the current suggestion with the quality and charge answers, both present, then resets |
| `CountryFilter.LowerChar` | src/components/CountrySelector.tsx:17 | one character of `toLowerCase`: an ASCII or Latin-1 capital (U+00C0 to U+00DE, except ×) moves to its small letter, 32 code points on; every other character, × included, is unchanged; the result is never such a capital |
| `CountryFilter.ToLower` | src/components/CountrySelector.tsx:17 | `toLowerCase` keeps the length and lower-cases each character in place |
| `CountryFilter.Includes` | src/components/CountrySelector.tsx:17 | `includes` holds for the empty needle, and only when the needle is no longer than the text |
| `CountryFilter.Matches` | src/components/CountrySelector.tsx:17 | the empty term matches every country; a matching term is no longer than the name |
| `CountryFilter.ToLowerIdempotent` | src/components/CountrySelector.tsx:17 | lower-casing is idempotent |
| `CountryFilter.IncludesIffOccurs` | src/components/CountrySelector.tsx:17 | `includes` holds exactly when the term occurs at some position in the name |
| `CountryFilter.Filter` | src/components/CountrySelector.tsx:16-18 | every kept country is in the input and its lower-cased name contains the lower-cased term; the result is no longer than the input |
| `CountryFilter.FilterMembership` | src/components/CountrySelector.tsx:16-18 | a country is kept if and only if it is in the input and matches |
| `CountryFilter.FilterCount` | src/components/CountrySelector.tsx:16-18 | every copy of a matching country is kept and no copy of another one: the multiset count is the input's count or 0 |
| `CountryFilter.FilterKeepsOrder` | src/components/CountrySelector.tsx:16 | the result is a subsequence of the input: the original order is kept |
| `CountryFilter.FilterEmptyTerm` | src/components/CountrySelector.tsx:16-18 | an empty term keeps every country |
| `CountryFilter.FilterIgnoresCase` | src/components/CountrySelector.tsx:17 | terms that differ only in case select the same countries |
| `CountryFilter.FilterLowerTerm` | src/components/CountrySelector.tsx:17 | searching for the lower-cased term gives the same result as the term |
| `CountryFilter.FilterIdempotent` | src/components/CountrySelector.tsx:16-18 | filtering the result again with the same term changes nothing |
| `CountryFilter.SearchExample` | src/components/CountrySelector.tsx:16-18 | "FRA" and "fra" both keep France and drop Japan |
| `Chat.TrimStart` | src/components/ChatInterface.tsx:23 | the leading part of `trim()`: a suffix of the input not starting with white space, everything cut being white space |
| `Chat.TrimEnd` | src/components/ChatInterface.tsx:23 | the trailing part of `trim()`: a prefix not ending with white space, everything cut being white space |
| `Chat.Trim` | src/components/ChatInterface.tsx:23 | `trim()` is the slice of the input left after cutting only white space before and after it, and it neither starts nor ends with white space |
| `Chat.TrimIsEmpty` | src/components/ChatInterface.tsx:23 | the send guard that `SendMessage` evaluates, `trim() === ''`; it is true exactly for all-white-space input, which it takes from `TrimEmptyIffBlank` |
| `Chat.TrimEmptyIffBlank` | src/components/ChatInterface.tsx:23 | `trim() === ''` holds exactly when the input is all white space |
| `Chat.ChatInterface.constructor` | src/components/ChatInterface.tsx:19-20 | the transcript and the input start empty |
| `Chat.ChatInterface.ChangeInput` | src/components/ChatInterface.tsx:73 | typing changes only the input |
| `Chat.ChatInterface.SendMessage` | src/components/ChatInterface.tsx:22-32 | blank input changes nothing; otherwise exactly one user message with the untrimmed input is appended after the old list, the input is cleared and one reply is scheduled |
| `Chat.ChatInterface.DeliverReply` | src/components/ChatInterface.tsx:34-41 | a scheduled reply appends one LLM message with the fixed mock text; every user message has a reply delivered or pending |
| `Chat.SendScenario` | src/components/ChatInterface.tsx:22-41 | sending "Hello there!" shows it and clears the input, a blank send adds nothing, and the mock reply follows |

## Left out

- Rendering, layout and styling: the JSX of every component, plus `Header`, `CountryInfoCard`, `HomeCurrencySelector`, `SettingsSheet` and the page composition in `Index`. They pass props and toggle visibility.
- Rendering the suggestion annotation (src/components/CalculatorCard.tsx:133-136). It calls `.replace` on `serviceType`, which the wizard never supplies, so it would fail on `undefined`. Because rendering is not modelled, this failure is not either.
- `formatCurrency` and the home-currency symbol lookup: they wrap `Intl.NumberFormat`, a library whose output is not modelled.
- `parseFloat` itself. Parsed text is an `Option<real>` supplied by the caller. The model keeps the parsed value, not the typed text.
- IEEE-754 floating point. Amounts are exact reals, so results such as 49.30 → 0.70 have no rounding error here.
- `setTimeout` timing: the 300 ms reset delay (the reset is immediate) and the one-second reply delay (delivery is a separate step, `DeliverReply`).
- `Date.now()`-based message ids.
- The chat panel's open/close prop and the backend chat handler (`backend/app.py`), which is a network service.
- `CountryFilter.LowerChar`: lower-cases ASCII and Latin-1 capitals only. JavaScript's `toLowerCase` covers all of Unicode, including mappings that change string length.
- The dialog's open flag belongs to the calculator (`isSuggestDialogOpen`). The wizard's `handleClose(true)` only forwards `true` to it, and that path is `OpenSuggestDialog`.
- `SuggestTip.SuggestTipDialog.ChooseServiceType`: requires a non-empty key. The radio offers only the keys of the country's norms, and those are non-empty.
