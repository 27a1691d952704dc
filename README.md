# Gift card distribution wizard: a verified model of its core

This project is a Dafny model of the logic behind igive's gift-card distribution wizard. The user goes through three steps:

- step 0: create a test batch of gift cards;
- step 1: choose a delivery method for each card (physical, e-mail or SMS);
- step 2: enter the recipient details for the e-mail and SMS cards.

At step 2 the continue button opens a confirmation dialog. The current step stays 2 while it is shown.

The model covers what sits under the screens:

- the shape checks for e-mail addresses and Norwegian mobile numbers;
- the per-card and whole-batch configuration checks, with their Norwegian error messages;
- grouping, totals and test-batch generation;
- the `DistributionState` store with its listeners;
- the gated step navigation;
- the operations that choose delivery methods.

Modules follow the source files:

| module | file | models |
|---|---|---|
| `Types` | `types.dfy` | the records of `src/lib/types.ts`. A nullable or optional field becomes an `Option`. A field of a partial update that may be set to `null` becomes an `Option<Option<…>>`. |
| `Strings` | `strings.dfy` | the JavaScript string operations the core uses: `String(n)`, `padStart`, `join`. A decimal reader states that `String(n)` loses nothing. |
| `Utils` | `utils.dfy` | `src/lib/utils.ts` |
| `Validation` | `validation.dfy` | `src/scripts/distribution/validation.ts` |
| `Store` | `state.dfy` | `src/scripts/distribution/state.ts`, as the class `DistributionState` |
| `Navigation` | `navigation.dfy` | `src/scripts/distribution/navigation.ts` |
| `GiftCardManager` | `giftcardmanager.dfy` | `src/scripts/distribution/giftCardManager.ts` |

## How the store is modelled

- `DistributionState` keeps the application state in a field, `state`, that its methods reassign.
- Listeners are opaque ids held in `listeners`. This is a sequence without duplicates: a JavaScript `Set` keeps insertion order, and `notify` calls listeners in that order.
- Each notification appends one `Round` to the log field `delivered`. A `Round` is one `Delivery(listener, snapshot)` per registered listener, in order.
- "Each listener is called exactly once with the new state" is therefore a statement about `delivered`.
- `getState` returns a value, so later changes to a snapshot cannot reach the store. In the source, the shallow copy gives the same guarantee for top-level fields.
- The wizard's operations take the store as a parameter. In the source they use the module-level singleton.

## Model

| member | source | states |
|---|---|---|
| Utils.ValidateEmail | src/lib/utils.ts:11-14 | The e-mail check on characters. It holds when there is no whitespace and exactly one `@`, at a position greater than 0, with a `.` after it that is neither the first nor the last character of the domain part. |
| Utils.ValidateEmailMatchesPattern | src/lib/utils.ts:11-14 | The character-level e-mail check holds exactly when the string matches `^[^\s@]+@[^\s@]+\.[^\s@]+$`. In other words: there is no whitespace and exactly one `@`, with a non-empty part before it, and a `.` after it that is neither the first nor the last character of the part after the `@`. Both directions. |
| Utils.ValidEmailHasShape | src/lib/utils.ts:11-14 | An accepted address splits at its `@` and at an inner dot into three runs of the pattern. |
| Utils.ShapedEmailIsValid | src/lib/utils.ts:11-14 | Every string built from three runs as local `@` host `.` tld is accepted. |
| Utils.SliceIsPlain | src/lib/utils.ts:12 | A non-empty stretch of an accepted address that avoids its only `@` contains neither whitespace nor `@`. |
| Utils.EmailShapeAt | src/lib/utils.ts:12 | A string assembled as local `@` host `.` tld has its single `@` at the end of the local part and its dot inside the domain part. |
| Utils.EmailExamples | src/lib/utils.ts:11-14 | "a@b.co" passes; "a@b" and "abc" fail. |
| Utils.ValidatePhone | src/lib/utils.ts:16-21 | Whitespace is removed first. The rest must be eight digits, the first of them 4-9, with or without "+47" in front. |
| Utils.StripWhitespace | src/lib/utils.ts:19 | `replace(/\s/g, '')` leaves no whitespace and never lengthens the string. |
| Utils.StripConcat | src/lib/utils.ts:19 | Stripping whitespace distributes over concatenation. |
| Utils.StripBlank | src/lib/utils.ts:19 | A run of whitespace strips to nothing. |
| Utils.StripKeepsPlain | src/lib/utils.ts:19 | A string without whitespace is left as it is. |
| Utils.PhoneIgnoresWhitespace | src/lib/utils.ts:16-21 | Inserting any run of whitespace anywhere in a phone number never changes whether it validates. |
| Utils.MobileForms | src/lib/utils.ts:18-20 | Eight digits starting with 4-9 validate both bare and after "+47". |
| Utils.PhoneExamples | src/lib/utils.ts:16-21 | "+4791234567" and "91234567" validate. |
| Utils.MobileFormSpaced | src/lib/utils.ts:16-21 | Every mobile number written in the usual grouping `+47 XXX XX XXX` validates. |
| Utils.DigitsOnlyPhone | src/lib/utils.ts:16-21 | A string of digits only validates exactly when it is eight digits starting with 4-9. |
| Utils.PhoneRejectsLeadingOne | src/lib/utils.ts:16-21 | "12345678" does not validate. |
| Utils.ValidateGiftCardConfiguration | src/lib/utils.ts:23-51 | The card check in `utils.ts`: valid exactly when there is no error; at most one error; a card without a method gets only the method error; a physical card is always valid; otherwise the single contact error of its method. |
| Utils.ContactErrors | src/lib/utils.ts:31-45 | The contact error both card checks share. An e-mail card gets "E-postadresse er påkrevd" when the address is missing or empty, and otherwise "Ugyldig e-postadresse" when the address fails the e-mail check. An SMS card is treated the same way with the phone check. Every other card gets none. |
| Utils.ContactErrorsShape | src/lib/utils.ts:31-45 | At most one contact error. None for a physical card. For an e-mail (SMS) card: the "required" error exactly when the field is empty, the "invalid" error exactly when it is filled but fails the check, never both. |
| Utils.ContactErrorsEmptyIff | src/lib/utils.ts:31-45 | A card has no contact error exactly when its method needs no contact, or the needed field is filled and passes its check. |
| Utils.MethodKey | src/lib/utils.ts:55 | Every card's group key is one of physical, email, sms or unselected. |
| Utils.CardsWithKey | src/lib/utils.ts:53-62 | One group of `groupGiftCardsByMethod`: the cards whose method, or "unselected", is the key, in input order. It is never longer than the input. |
| Utils.CardsWithKeyMembers | src/lib/utils.ts:53-62 | A card is in a group exactly when it is one of the cards and has that group's key. |
| Utils.CardsWithKeyStep | src/lib/utils.ts:54-60 | One more card of the input extends its own group by that card and leaves the other groups alone. |
| Utils.CardsWithKeyAppend | src/lib/utils.ts:54-60 | Appending a card extends its own group by that card and leaves the other groups alone. |
| Utils.CardsWithKeyConcat | src/lib/utils.ts:53-62 | Grouping distributes over concatenation, so every group keeps input order. |
| Utils.GroupSizesSum | src/lib/utils.ts:53-62 | The four group sizes add up to the number of cards. |
| Utils.GroupGiftCardsByMethod | src/lib/utils.ts:53-62 | The `reduce` loop yields only known keys; a key is present exactly when its group is non-empty (no empty group); each key maps to its cards in input order. |
| Utils.TotalValue | src/lib/utils.ts:64-66 | The sum of the cards' values; 0 for no cards. |
| Utils.TotalValueConcat | src/lib/utils.ts:64-66 | The total of a concatenation is the sum of the totals. |
| Utils.TotalValueOfGroups | src/lib/utils.ts:53-66 | The totals of the four groups add up to the total of all cards. |
| Utils.GenerateTestGiftCards | src/lib/utils.ts:68-77 | `count` cards (none for a negative count). Card `i` has id `i+1`, the given value, no method, no recipient, empty details and no configuration. Its code is "TEST-" followed by `i+1` zero-padded to three digits. |
| Utils.TestCodeEncodesNumber | src/lib/utils.ts:72 | A test code starts with "TEST-" and is at least 8 characters long; its digits read back as the card number. |
| Utils.TestCodesDistinct | src/lib/utils.ts:72 | Different card numbers give different codes. |
| Utils.GeneratedCardsDistinct | src/lib/utils.ts:68-77 | Generated cards have pairwise distinct ids and codes. |
| Utils.TotalValueUniform | src/lib/utils.ts:64-66 | Cards that all have one value total count times that value. |
| Utils.GeneratedTotalValue | src/lib/utils.ts:64-77 | A generated batch of `n` cards of value `v` totals `n * v`. |
| Strings.IntToString | src/scripts/distribution/validation.ts:17 | `${card.id}`: the decimal rendering, with "-" in front of a negative number. |
| Strings.Join | src/scripts/distribution/validation.ts:17 | `join(', ')`: the parts, with the separator between each two neighbours, and "" for no parts. |
| Strings.NatToDecimal | src/lib/utils.ts:72 | `String(n)` gives decimal digits only, with no leading zero except for 0 itself. |
| Strings.PadStart | src/lib/utils.ts:72 | `padStart(width, c)` gives the longer of the input length and `width`; the input stays at the right; the fill is all `c`. |
| Strings.ParseNatToDecimal | src/lib/utils.ts:72 | Reading the decimal rendering back gives the number. |
| Strings.ParseZeroPrefixed | src/lib/utils.ts:72 | Any number of leading zeros does not change the number a digit string denotes. |
| Strings.ParseZeroPadded | src/lib/utils.ts:72 | Zero-padding on the left does not change the number a digit string denotes. |
| Validation.MessageTooLongFor | src/scripts/distribution/validation.ts:61 | The card has a non-empty message longer than 500 characters. |
| Validation.CardErrors | src/scripts/distribution/validation.ts:30-63 | The errors `validateCardConfiguration` pushes. A card without a method gets only the method error. Any other card gets the contact error of its method, followed by the length error when its message is too long. |
| Validation.ValidateCardConfiguration | src/scripts/distribution/validation.ts:30-69 | The errors are those of `CardErrors`, in the order the source pushes them; valid exactly when there is no error. |
| Validation.CardErrorsShape | src/scripts/distribution/validation.ts:33-63 | At most two errors. A card without a method gets only the method error; the message check is skipped. For a card with a method: the length error appears exactly when the message is longer than 500, always last; the method error never appears. A physical card gets at most the length error. "Required" and "invalid" never appear together. |
| Validation.ValidateAllConfigurations | src/scripts/distribution/validation.ts:11-25 | The `forEach` loop emits `ErrorLines(cards)`: one line "Gavekort #<id>: " plus the card's errors joined with ", " for each failing card, in input order. Valid exactly when there is no line. |
| Validation.ErrorLine | src/scripts/distribution/validation.ts:17 | "Gavekort #", then the id in decimal, then ": ", then the card's errors joined with ", ". |
| Validation.ErrorLines | src/scripts/distribution/validation.ts:14-19 | One `ErrorLine` for each failing card, in input order. |
| Validation.InvalidCards | src/scripts/distribution/validation.ts:14-19 | The failing cards, in input order. Each of them is one of the input cards and has an error. |
| Validation.ErrorLinesEmptyIff | src/scripts/distribution/validation.ts:11-25 | A batch is valid exactly when every card in it is valid on its own. |
| Validation.ErrorLinesPerInvalidCard | src/scripts/distribution/validation.ts:14-19 | There are as many lines as failing cards, and line `j` is the line of the `j`-th failing card. |
| Validation.ErrorLinesConcat | src/scripts/distribution/validation.ts:14-19 | The lines of a concatenated batch are the lines of the first part followed by those of the second. |
| Validation.InvalidCardsMembers | src/scripts/distribution/validation.ts:14-19 | A card is listed as failing exactly when it is one of the input cards and has an error. Both directions. |
| Validation.ValidateInput | src/scripts/distribution/validation.ts:74-85 | An empty e-mail or phone field passes; a filled one must pass its check. A message passes when it is at most 500 characters long. |
| Validation.ValidateInputAgreesWithCard | src/scripts/distribution/validation.ts:74-85 | On a filled-in e-mail or phone field, the as-you-type check passes exactly when the card has no contact error. A message fails it exactly when it is longer than 500 characters. For a card with a method, that is exactly when the card check reports the length error. |
| Validation.DigitalCards | src/scripts/distribution/validation.ts:126 | The e-mail and SMS cards, in input order. |
| Validation.HasSelection | src/scripts/distribution/validation.ts:123 | Some card has a method. |
| Validation.CanProceedToNextStep | src/scripts/distribution/validation.ts:120-133 | At step 1: some card has a method. At step 2: the e-mail and SMS cards give no error line. At any other step: true. |
| Validation.DigitalCardsMembers | src/scripts/distribution/validation.ts:126 | The filter keeps exactly the e-mail and SMS cards. |
| Validation.CanProceedCharacterisation | src/scripts/distribution/validation.ts:120-133 | Step 1 may be left exactly when some card has a method. Step 2 may be left exactly when every e-mail and SMS card has no contact error and no over-long message, whatever the physical and unset cards hold. Every other step may always be left. |
| Store.ApplyUpdate | src/scripts/distribution/state.ts:29 | `{...state, ...updates}`: every field present in the update replaces the state's field, and the others are kept. |
| Store.ApplyUpdateCharacterised | src/scripts/distribution/state.ts:28-31 | The merged state takes every field present in the update and keeps every other field. Both directions. |
| Store.ApplyUpdateComposes | src/scripts/distribution/state.ts:28-31 | Two merges in a row equal one merge of the combined update; merging the same update twice is merging it once; the empty update changes nothing. |
| Store.MergeCard | src/scripts/distribution/state.ts:38 | `{...card, ...updates}`, field by field, for one card. |
| Store.UpdateCards | src/scripts/distribution/state.ts:37-39 | The `map` that merges the update into every card with the id. Its result has as many cards as the input. |
| Store.UpdateCardsFrame | src/scripts/distribution/state.ts:36-39 | The card update keeps length and order, leaves cards with another id unchanged, and merges the update into every card with the id. |
| Store.UpdateCardsMissingId | src/scripts/distribution/state.ts:36-39 | With an id no card has, the list is unchanged. |
| Store.FindCard | src/scripts/distribution/state.ts:46-48 | `find` gives nothing exactly when no card has the id; otherwise a card of the list with that id. |
| Store.FindCardFirst | src/scripts/distribution/state.ts:46-48 | `find` gives the first card with the id. |
| Store.FindAfterUpdate | src/scripts/distribution/state.ts:36-48 | After an update that keeps the id, looking the id up gives the first matching card with the update merged in. |
| Store.AddListener | src/scripts/distribution/state.ts:68 | `Set.add`: the listener is appended unless it is already registered, in which case it keeps its place. |
| Store.RemoveListener | src/scripts/distribution/state.ts:70-72 | Unsubscribing removes the listener and keeps every other one. |
| Store.RemoveKeepsDistinct | src/scripts/distribution/state.ts:70-72 | Removing a listener keeps the registrations free of duplicates. |
| Store.ListenerSetSemantics | src/scripts/distribution/state.ts:67-73 | Set semantics. Registering twice keeps one entry; unsubscribing twice is a no-op; unsubscribing right after registering a new listener restores the old registrations; duplicates never appear. |
| Store.RemoveAbsent | src/scripts/distribution/state.ts:71 | Deleting an unregistered listener changes nothing. |
| Store.RemoveAppended | src/scripts/distribution/state.ts:68-71 | Deleting the listener just added restores the earlier registrations. |
| Store.Round | src/scripts/distribution/state.ts:78-83 | One delivery of the snapshot to each listener, in registration order. There are as many deliveries as listeners. |
| Store.RoundCallsEachOnce | src/scripts/distribution/state.ts:78-83 | One notification calls each registered listener exactly once, in registration order, with the same snapshot. |
| Store.DistributionState.constructor | src/scripts/distribution/state.ts:8-16 | The initial state is step 0, 10 test cards of 500, no cards, terms not accepted; there are no listeners. |
| Store.DistributionState.GetState | src/scripts/distribution/state.ts:21-23 | Returns the current state as a value. |
| Store.DistributionState.Notify | src/scripts/distribution/state.ts:78-83 | The loop appends one delivery per listener, in order, with the current state; nothing else changes. |
| Store.DistributionState.SetState | src/scripts/distribution/state.ts:28-31 | The state becomes the merge of the update; one notification round with the new state; listeners unchanged. |
| Store.DistributionState.UpdateGiftCard | src/scripts/distribution/state.ts:36-41 | Only the card list changes, by the card update; one notification round, even when no card has the id. |
| Store.DistributionState.GetGiftCard | src/scripts/distribution/state.ts:46-48 | Returns the first card with the id, or nothing. |
| Store.DistributionState.Reset | src/scripts/distribution/state.ts:53-62 | The state becomes the initial state; one notification round with it. |
| Store.DistributionState.Subscribe | src/scripts/distribution/state.ts:67-68 | Adds the listener unless it is already registered; nothing is notified. |
| Store.DistributionState.Unsubscribe | src/scripts/distribution/state.ts:70-72 | Removes the listener; a second call changes nothing. |
| Navigation.StepAllowed | src/scripts/distribution/navigation.ts:44-50 | A move passes unless it goes forward while the gate of the current step is closed. |
| Navigation.GoToStep | src/scripts/distribution/navigation.ts:41-62 | A forward move whose current-step gate is closed changes nothing and notifies no one. Any other move changes only `currentStep`, to the target, with one notification round. |
| Navigation.StepAllowedCases | src/scripts/distribution/navigation.ts:44-53 | Backward and same-step moves always pass. From step 0 every target passes. From step 1 a forward move passes exactly when some card has a method. From step 2 a forward move passes exactly when every e-mail and SMS card validates. |
| Navigation.HandleBack | src/scripts/distribution/navigation.ts:67-72 | Above step 0: exactly one step back, one notification round. At step 0 (or below): nothing changes, so the step never goes below 0. |
| Navigation.HandleContinue | src/scripts/distribution/navigation.ts:77-104 | From step 0 to step 1. From step 1 to step 2 when some card has a method; otherwise no change. From step 2, or any other step, the state and the notification log stay as they were. |
| Navigation.Navigable | src/scripts/distribution/navigation.ts:211-227 | A backward target always passes. Any other target passes when every step from the current one up to the step before the target may be left. |
| Navigation.CanNavigateToStep | src/scripts/distribution/navigation.ts:211-227 | The loop answers true exactly when the target lies behind the current step, or every step from the current one up to the target may be left. This includes the target being the current step. |
| Navigation.NavigableIsAllowed | src/scripts/distribution/navigation.ts:211-227 | A target the stepper may jump to is one that `goToStep` lets through. |
| Navigation.GoToStepSkipsIntermediateGates | src/scripts/distribution/navigation.ts:44-53 | `goToStep` checks only the current step's gate. From step 0 with no method chosen, it lets a jump to step 2 through, which `canNavigateToStep` refuses. |
| Navigation.ClassifySteps | src/scripts/distribution/navigation.ts:122-151 | Item `i` shows step `i+1`. It is active exactly when that is the current step, completed exactly when it lies before it, and shows the check icon exactly when completed. It is never both active and completed, and at most one item is active. |
| GiftCardManager.InitializeGiftCards | src/scripts/distribution/giftCardManager.ts:12-15 | The card list becomes the generated test batch; every other field is kept; one notification round. |
| GiftCardManager.MethodUpdate | src/scripts/distribution/giftCardManager.ts:21 | The card update `{ method }`: it sets the method and nothing else. |
| GiftCardManager.SelectMethod | src/scripts/distribution/giftCardManager.ts:20-23 | One card update setting the method of the cards with the id; one notification round; the count refresh only reads. |
| GiftCardManager.SelectMethodChangesOnlyMethod | src/scripts/distribution/giftCardManager.ts:20-21 | The cards with the id get the method and keep every other field; all other cards are unchanged. |
| GiftCardManager.SelectAllMethod | src/scripts/distribution/giftCardManager.ts:28-36 | Every card gets the method in one `setState`. The log grows by exactly one round, as many deliveries as there are listeners, however many cards there are. |
| GiftCardManager.WithMethod | src/scripts/distribution/giftCardManager.ts:30-33 | The `map` that gives every card the method and keeps its other fields. |
| GiftCardManager.WithMethodProperties | src/scripts/distribution/giftCardManager.ts:30-33 | Length and order are kept, and every field but the method. Applying the change twice equals applying it once. Afterwards some card has a method exactly when there is a card. |
| GiftCardManager.WithMethodGroups | src/scripts/distribution/giftCardManager.ts:28-35 | After choosing a method for all cards, that method's group holds every card and the other groups are empty. |
| GiftCardManager.GroupIsAll | src/scripts/distribution/giftCardManager.ts:162-168 | A group holds every card exactly when every card has that group's key. |
| GiftCardManager.UnselectedCount | src/scripts/distribution/giftCardManager.ts:160-169 | Every card is unselected exactly when no card has a method. No card is unselected exactly when every card has one. |
| GiftCardManager.UpdateMethodCounts | src/scripts/distribution/giftCardManager.ts:160-169 | Each count is the size of its group (0 when the group is absent). The four counts add up to the number of cards. The three method counts are all 0 exactly when no card has a method. Only reads the store. |
| GiftCardManager.ContinueButtonDisabled | src/scripts/distribution/giftCardManager.ts:194-202 | The continue button is disabled exactly when the step-1 gate is closed, that is, when every card's method is null. |
| GiftCardManager.GetMethodConfigAsWritten | src/scripts/distribution/giftCardManager.ts:207-235 | The lookup as written returns an inherited member instead of a display record exactly for the keys `Object.prototype` provides. |
| GiftCardManager.AsWrittenLeaksInheritedMember | src/scripts/distribution/giftCardManager.ts:229 | For "toString" the lookup as written returns no display record. |
| GiftCardManager.GetMethodConfig | src/scripts/distribution/giftCardManager.ts:207-235 | The fixed records for "physical", "email" and "sms"; the "Ukjent" fallback exactly for every other string. |
| GiftCardManager.GetMethodConfigAgrees | src/scripts/distribution/giftCardManager.ts:207-235 | The corrected lookup agrees with the one as written on every key not inherited from `Object.prototype`. Every delivery method has its own record, and no two share one. |

## Left out

- Markup and DOM work: stepper class toggling beyond the active, completed and check marks; progress bar; buttons; form generation; the confirmation modal; `toggleCard`; `updateCollapsedInfo`; count labels. These are presentation.
- `alert`, `window.scrollTo`, `setTimeout`, `requestAnimationFrame`, and `debounce`/`throttle` (`src/lib/utils.ts:79-103`). These are browser and timer calls with no effect on the state.
- `formatCurrency` (`src/lib/utils.ts:7-9`). It relies on the host's locale formatting.
- `validateConfiguration` in `src/scripts/distribution/configurationManager.ts`. It reads live form inputs rather than the store. So `Navigation.HandleContinue` at step 2 leaves the state alone on either outcome. That function accepts only `4` or `9` as the first mobile digit, where `validatePhone` accepts `4`-`9`; the model keeps the `validatePhone` rule only.
- `handleInputChange` in `configurationManager.ts`. It mutates a card's configuration object in place, behind the store's snapshot; the model's cards are values, so this aliasing is not captured.
- The undeclared `card.configuration` field read by `updateCollapsedInfo`.
- Default schedule dates and the random order number. Both are non-deterministic.
- The event wiring in `index.ts`. `GiftCardManager.InitializeGiftCards` takes any count; a negative count gives no cards, as `Array.from` does.
- What listeners do when called: their side effects, re-entrant store calls and exceptions. Listeners are ids, and a notification is recorded, not run.
- JavaScript strings are UTF-16. The model counts characters, so a message containing characters outside the Basic Multilingual Plane has a different length here.
- Ids and values are whole numbers. Fractional or `NaN` ids and `-0` are not modelled.
- Numbers are exact unbounded integers, where JavaScript uses doubles. So there is no rounding above 2^53: `calculateTotalValue` (`src/lib/utils.ts:65`) can lose a `+ 1` there, and `Utils.TotalValueConcat`, `Utils.TotalValueOfGroups` and `Utils.GeneratedTotalValue` hold for exact sums only. There is no exponent notation from 10^21 on: `String(n)` and the template literal (`src/scripts/distribution/validation.ts:17`, `src/lib/utils.ts:72`) write "1e+21", where `Strings.IntToString` and `Strings.NatToDecimal` write plain digits. And there is no `RangeError` from `Array.from` (`src/lib/utils.ts:69`) for a count above 2^32 − 1: `Utils.GenerateTestGiftCards` returns that many cards.
- The whitespace class is the fixed ECMAScript `\s` set of current Unicode. Characters a later Unicode version adds to the space separators are not included.
- The SVG markup of the icons. A display record holds only which icon it shows, as one of four values (`GiftCardManager.Icon`).
- A field present in a partial update with the value `undefined`. `{...s, ...u}` copies such a field over (`src/scripts/distribution/state.ts:29`, `:38`), so the merged record holds `undefined` there. `StateUpdate` and `CardUpdate` can only leave a field out or give it a value of its type (or `null` where the type allows it). This applies to every field, the non-nullable `id`, `value` and `details` included. The difference shows: `card.method !== null` (`src/scripts/distribution/validation.ts:123`) counts an `undefined` method as chosen, while `!card.method` (`src/scripts/distribution/validation.ts:33`) counts it as unset. In the model a `None` method is `null` only.
- `GiftCardManager.MethodConfig` has no `description` field. The interface in `src/lib/types.ts:48-54` declares it optional, and `getMethodConfig` never sets it.

## Findings

| source | as written | input that shows it | evidently intended | confidence | as-written member | corrected member |
|---|---|---|---|---|---|---|
| src/scripts/distribution/giftCardManager.ts:229 | `configs[method] \|\| fallback` indexes a plain object literal. Keys it inherits from `Object.prototype` yield a truthy function (or the prototype itself), so the fallback is skipped. | `getMethodConfig("toString")` (also "constructor", "valueOf", "__proto__", …) | the "Ukjent" fallback record for every string other than "physical", "email" and "sms", as the declared return type promises | medium; not executed | GiftCardManager.GetMethodConfigAsWritten, GiftCardManager.AsWrittenLeaksInheritedMember | GiftCardManager.GetMethodConfig, GiftCardManager.GetMethodConfigAgrees |
