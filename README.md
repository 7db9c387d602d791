# Click2Ration in Dafny

A verified model of the behaviour behind Click2Ration, a demo web client for Tamil Nadu's
public distribution system. A cardholder logs in with a ration-card number and mobile, picks
one family member on the OTP screen, chooses commodities up to the family's entitlement, then
confirms payment and a delivery slot, and follows the delivery. A chat assistant (RationBot)
answers questions through a small server-side relay to an AI gateway.

The model has one module per source component:

| module | file | models |
|---|---|---|
| `Index` | `index_page.dfy` | the shell: current screen, login data, family size, forwarded order |
| `ScreenFlow` | `screen_flow.dfy` | the screen changes as a transition system, and the path to tracking |
| `ProductSelection` | `product_selection.dfy` | catalogue, per-family caps, initial selection, clamped updates, summary and total |
| `OrderConfirmation` | `order_confirmation.dfy` | price table, line amounts, delivery charge, slots, payment, the confirm timer |
| `OtpVerification` | `otp_verification.dfy` | family lookup, resend countdown, OTP slot edits, member choice, mobile mask, initials |
| `Login` | `login.dfy` | length caps, the submit guard and the submit timer, the demo accounts |
| `Tracking` | `tracking.dfy` | the progress tick, the step-status rules and the fixed receipt figures |
| `RationBot` | `ration_bot.dfy` | the chat panel: history, input, send guard, loading, clear, voice toggle |
| `ChatRelay` | `chat_relay.dfy` | the relay as a function of request, key and gateway outcome |
| `LanguageToggle` | `language_toggle.dfy` | the English/Tamil switch and its label |
| `Wrappers` | `wrappers.dfy` | `Option` |

Money and quantities are exact `real`s: quantities move in steps of 0.5 and sugar costs 13.5,
and reals keep every sum exact. A JavaScript record that the code reads back in insertion
order (`Object.entries`) is a sequence of entries with distinct keys. An existing key keeps
its place when written; a new key is appended. Each timer (`setTimeout`, `setInterval`)
becomes a method for the press and another for the firing. A value the callback closes over
at press time is kept in a field until it fires.

The shell's handlers in `Index.App` are the callbacks as written: none of them checks which
screen is shown, because only the shown screen can call its own. `ScreenFlow.Step` adds
exactly that condition, and is the authority on which screens a run can reach. Each handler
moves `Index.App.screen` to the screen its `ScreenFlow.Event` leads to:
`HandleLogin` is `SubmitLogin`, `HandleOtpVerify` is `VerifyOtp`, `HandleProductSelection` is
`OpenProducts`, `BackToLogin` is `DashboardBack`, `HandleOrderConfirm` is `ProceedToPayment`,
`BackToDashboard` is `ProductsBack`, `BackToProducts` is `ConfirmationBack`,
`HandleFinalConfirm` is `ConfirmTimerFires` and `HandleReturnHome` is `ReturnHome`. The model
states this correspondence here; it is not proved as a lemma.

Two behaviours of the source are modelled as they are, not corrected:

- The confirmation screen's two-second timer is never cancelled. A citizen who presses
  confirm and then backs out still lands on the tracking screen when it fires. `ScreenFlow`
  counts pending timers; `ScreenFlow.BackingOutDoesNotCancel` shows such a run.
- An OTP slot edit beyond the current length appends to the end. It does not leave a gap,
  because the holes of the JavaScript array join as empty strings (`OtpVerification.SlotEdit`).

## Model

| member | source | states |
|---|---|---|
| `LanguageToggle.Toggle` | src/components/LanguageToggle.tsx:8-10 | 'en' becomes 'ta'; every other value becomes 'en' |
| `LanguageToggle.ButtonLabel` | src/components/LanguageToggle.tsx:20 | the label is 'த' exactly when a press would switch to Tamil, and 'EN' exactly when it would switch to English |
| `LanguageToggle.ToggleTwice` | src/components/LanguageToggle.tsx:9 | for 'en' and 'ta', toggling twice gives back the original language |
| `LanguageToggle.ToggleSettles` | src/components/LanguageToggle.tsx:9 | after one toggle every value is 'en' or 'ta', and from then on two toggles are the identity |
| `Index.FamilySizeFor` | src/pages/Index.tsx:34-40 | the four known cards give their mapped size, any other card gives 2, and the result always lies in 2..5 |
| `Index.FamilySizesOfDemoCards` | src/pages/Index.tsx:34-39 | the four demo cards give family sizes 2, 3, 4 and 5 |
| `Index.App.constructor` | src/pages/Index.tsx:19-24 | starts on login with empty mobile and ration number, family size 0, no items and total 0 |
| `Index.App.HandleLogin` | src/pages/Index.tsx:26-30 | moves to OTP and records the ration number and mobile exactly as given; nothing else changes |
| `Index.App.HandleOtpVerify` | src/pages/Index.tsx:32-42 | moves to the dashboard with the family size of the recorded card (always 2..5); the member list is ignored |
| `Index.App.HandleProductSelection` | src/pages/Index.tsx:44-46 | moves to products; nothing else changes |
| `Index.App.HandleOrderConfirm` | src/pages/Index.tsx:48-52 | stores exactly the given items and total and moves to confirmation |
| `Index.App.HandleFinalConfirm` | src/pages/Index.tsx:54-56 | moves to tracking; nothing else changes |
| `Index.App.HandleReturnHome` | src/pages/Index.tsx:58-60 | moves to the dashboard; nothing else changes |
| `Index.App.BackToLogin` | src/pages/Index.tsx:71 | the dashboard's back edge: moves to login, keeping the data |
| `Index.App.BackToDashboard` | src/pages/Index.tsx:77 | the products screen's back edge: moves to the dashboard |
| `Index.App.BackToProducts` | src/pages/Index.tsx:87 | the confirmation screen's back edge: moves to products |
| `ScreenFlow.Stage` | src/pages/Index.tsx:11 | orders the six screens along the checkout; login is stage 0 and tracking is stage 5 |
| `ScreenFlow.Step` | src/pages/Index.tsx:62-97 | no event advances more than one stage, except a pending confirmation timer, which jumps to tracking; a timer is pending only after a confirm press; a shown, processing confirmation screen always has its timer pending |
| `ScreenFlow.ScreenChanges` | src/pages/Index.tsx:26-97 | the only screen changes are the five forward callbacks, the three back edges, return home, and the timer landing on tracking |
| `ScreenFlow.PendingAfterConfirmation` | src/components/OrderConfirmation.tsx:54-60 | in any run from login, a pending confirmation timer means the confirmation screen has been reached |
| `ScreenFlow.JumpBound` | src/pages/Index.tsx:62-97 | in any run from login, no state is more than one stage past every earlier state |
| `ScreenFlow.FirstVisitIsExact` | src/pages/Index.tsx:62-97 | the first state at or past a stage is exactly that stage |
| `ScreenFlow.TrackingOnlyAfterCheckout` | src/pages/Index.tsx:62-97 | every run from login that ends on tracking first visits OTP, then the dashboard, then products, then confirmation, in that order, before tracking |
| `ScreenFlow.BackingOutDoesNotCancel` | src/components/OrderConfirmation.tsx:54-60 | confirm, then back to the dashboard, leaves one timer pending, and its firing shows tracking |
| `ProductSelection.FindIn` | src/components/ProductSelection.tsx:138 | finds a product with the id exactly when one is listed |
| `ProductSelection.CatalogueIdsDistinct` | src/components/ProductSelection.tsx:36-109 | the six catalogue ids are distinct |
| `ProductSelection.DefaultQuantity` | src/components/ProductSelection.tsx:114-125 | rice and wheat get family size minus 0.5 (1.5, 2.5, 3.5, 4.5) for families of 2 to 5; every other case gets the catalogue default |
| `ProductSelection.DefaultPositive` | src/components/ProductSelection.tsx:114-125 | every catalogue default is positive |
| `ProductSelection.Clamp` | src/components/ProductSelection.tsx:142 | the stored value lies in [0, cap]; a value inside is kept, one above gives the cap, one below zero gives 0 |
| `ProductSelection.Lookup` | src/components/ProductSelection.tsx:180 | a key is absent exactly when no entry has that id |
| `ProductSelection.Ids` | src/components/ProductSelection.tsx:150 | the keys of a record, position by position |
| `ProductSelection.Put` | src/components/ProductSelection.tsx:144-147 | writing a key appends a new one, keeps an existing one in place, sets that key's value and leaves every other key's value unchanged |
| `ProductSelection.PutKeepsUnique` | src/components/ProductSelection.tsx:144-147 | writing a key keeps the keys distinct |
| `ProductSelection.AvailableIdsSnoc` | src/components/ProductSelection.tsx:129-133 | the ids of available products, one more product at a time |
| `ProductSelection.VisitStep` | src/components/ProductSelection.tsx:129-133 | one pass of the forEach records the product exactly when it is available, at its default |
| `ProductSelection.InitialQuantities` | src/components/ProductSelection.tsx:127-135 | the initial record holds each available product, in catalogue order, at its default, with distinct keys |
| `ProductSelection.InitialHoldsAvailable` | src/components/ProductSelection.tsx:127-135 | the initial record's keys are rice, wheat, sugar, oil and dhal |
| `ProductSelection.InitialLeavesOutSalt` | src/components/ProductSelection.tsx:105 | salt, out of stock, is not in the initial record |
| `ProductSelection.InitialStaples` | src/components/ProductSelection.tsx:114-135 | for families of 2 to 5, rice and wheat start at family size minus 0.5 |
| `ProductSelection.Summary` | src/components/ProductSelection.tsx:150 | keeps only entries with a positive quantity |
| `ProductSelection.SummaryMembers` | src/components/ProductSelection.tsx:150 | an entry is in the summary exactly when it is in the record with a positive quantity |
| `ProductSelection.SummaryLookup` | src/components/ProductSelection.tsx:150 | the summary holds each key's positive value and nothing for a zero |
| `ProductSelection.AmountOfKnown` | src/components/ProductSelection.tsx:152-153 | a known product's line costs price times quantity |
| `ProductSelection.CataloguePricesNonNegative` | src/components/ProductSelection.tsx:36-109 | no catalogue price is negative |
| `ProductSelection.TotalNonNegative` | src/components/ProductSelection.tsx:151-154 | with non-negative prices and quantities the total is non-negative |
| `ProductSelection.SummaryCons` | src/components/ProductSelection.tsx:150 | the filter taken one entry at a time |
| `ProductSelection.TotalCons` | src/components/ProductSelection.tsx:151-154 | the reduce taken one entry at a time |
| `ProductSelection.SummaryKeepsTotal` | src/components/ProductSelection.tsx:150-154 | dropping the zero lines leaves the total unchanged |
| `ProductSelection.SummaryTotalNonNegative` | src/components/ProductSelection.tsx:150-154 | the total over the summary is never negative |
| `ProductSelection.Basket.constructor` | src/components/ProductSelection.tsx:127-135 | the screen starts with the initial record, every value within its cap and every key a product in stock |
| `ProductSelection.Basket.UpdateQuantity` | src/components/ProductSelection.tsx:137-148 | an unknown id changes nothing; a known id stores the clamped value and no other key changes; the function itself does not check stock, so the record keeps only in-stock keys exactly when it is not called with an out-of-stock product |
| `ProductSelection.Basket.EnterQuantity` | src/components/ProductSelection.tsx:228 | the quantity input, present only for a product in stock, stores the clamped parsed value, or 0 for a value that is not a number; only in-stock keys remain |
| `ProductSelection.Basket.StepDown` | src/components/ProductSelection.tsx:217-221 | the minus button, present only for a product in stock (line 212) and enabled only above 0, stores half a unit less, never below 0; no other key changes and only in-stock keys remain |
| `ProductSelection.Basket.StepUp` | src/components/ProductSelection.tsx:236-240 | the plus button, present only for a product in stock (line 212) and enabled only below the cap, stores half a unit more, never above the cap; no other key changes and only in-stock keys remain |
| `ProductSelection.Basket.ProceedToPayment` | src/components/ProductSelection.tsx:150-159 | forwards the summary's pairs and its total, which equals the whole record's total, is non-negative, and covers only catalogue products with positive quantities within their caps, all of them in stock when the record holds only in-stock keys |
| `ProductSelection.InitialAllOffered` | src/components/ProductSelection.tsx:129-133 | the initial record holds only products in stock |
| `ProductSelection.PutOffered` | src/components/ProductSelection.tsx:144-147 | writing under an in-stock key keeps every key in stock; writing under an out-of-stock key leaves that key in the record, since a written key is never removed |
| `ProductSelection.LookupFirst` | src/components/ProductSelection.tsx:180 | with distinct keys, each entry is the value read back under its id |
| `ProductSelection.LookupWithinCaps` | src/components/ProductSelection.tsx:141-142 | a stored value lies between 0 and its product's cap |
| `ProductSelection.PutWithinCaps` | src/components/ProductSelection.tsx:141-147 | storing a clamped value keeps every value within its cap |
| `OrderConfirmation.DetailsNameCatalogue` | src/components/OrderConfirmation.tsx:33-40 | the price table lists exactly the catalogue's ids |
| `OrderConfirmation.DetailsAgreeWithCatalogue` | src/components/OrderConfirmation.tsx:33-40 | each price and unit in the table equals the catalogue's |
| `OrderConfirmation.DetailsAgree` | src/components/OrderConfirmation.tsx:33-40 | the table and the catalogue price every id alike |
| `OrderConfirmation.Lines` | src/components/OrderConfirmation.tsx:237-254 | at most one line per item: items whose id is missing from the table give none (RowsOfOrder states the rows exactly) |
| `OrderConfirmation.KnownItems` | src/components/OrderConfirmation.tsx:238-239 | the items the `if (!product) return null` guard lets through, each with an id in the table |
| `OrderConfirmation.KnownItemsMembers` | src/components/OrderConfirmation.tsx:238-239 | an item is let through exactly when it is in the order and its id is in the table |
| `OrderConfirmation.LinesSkipUnknown` | src/components/OrderConfirmation.tsx:237-254 | dropping the unknown items first leaves the rows unchanged |
| `OrderConfirmation.LinesOfKnownHead` | src/components/OrderConfirmation.tsx:237-254 | a known first item gives the first row, at quantity times table price |
| `OrderConfirmation.RowsOfOrder` | src/components/OrderConfirmation.tsx:237-254 | for every order, mixed or not: one row per item whose id is in the table, in order, row k being the k-th such item at quantity times its table price |
| `OrderConfirmation.LinesOfKnownItems` | src/components/OrderConfirmation.tsx:237-254 | for known items, line k shows item k's id and quantity and costs quantity times table price |
| `OrderConfirmation.LinesOfUnknownItems` | src/components/OrderConfirmation.tsx:238-239 | items missing from the table produce no line |
| `OrderConfirmation.LinesCons` | src/components/OrderConfirmation.tsx:237-254 | the line list taken one item at a time |
| `OrderConfirmation.BasketPricesItem` | src/components/OrderConfirmation.tsx:250 | a line's amount equals the basket's amount for the same item |
| `OrderConfirmation.LinesAddUpToBasketTotal` | src/components/OrderConfirmation.tsx:237-254 | the confirmation lines add up to the total the product screen computed |
| `OrderConfirmation.FinalAmount` | src/components/OrderConfirmation.tsx:62-63 | the final amount is the incoming total plus the delivery charge of 10 |
| `OrderConfirmation.FinalAmountOfOrder` | src/components/OrderConfirmation.tsx:62-63 | the final amount is the sum of the shown lines plus 10, and at least 10 |
| `OrderConfirmation.OnlyDaySlots` | src/components/OrderConfirmation.tsx:48-52 | morning and afternoon are available; evening is not |
| `OrderConfirmation.ConfirmationForm.constructor` | src/components/OrderConfirmation.tsx:44-46 | starts with UPI, the afternoon slot, not processing |
| `OrderConfirmation.ConfirmationForm.SelectPayment` | src/components/OrderConfirmation.tsx:44 | records the chosen payment method |
| `OrderConfirmation.ConfirmationForm.SelectSlot` | src/components/OrderConfirmation.tsx:114-128 | records an available slot; the disabled evening slot cannot be chosen, and the slot is always available |
| `OrderConfirmation.ConfirmationForm.PressConfirm` | src/components/OrderConfirmation.tsx:54-56 | starts processing; a press while processing starts nothing, as the button is disabled then (line 277) |
| `OrderConfirmation.ConfirmationForm.ConfirmTimerFires` | src/components/OrderConfirmation.tsx:56-59 | the timer clears processing |
| `OtpVerification.MembersFor` | src/components/OTPVerification.tsx:24-51 | the card's family, or the 123456789012 family for an unknown card; always 2 to 5 members |
| `OtpVerification.FamiliesHaveDistinctIds` | src/components/OTPVerification.tsx:24-47 | within every family the member ids are distinct |
| `OtpVerification.AtMostOneHighlighted` | src/components/OTPVerification.tsx:149-158 | with distinct ids, at most one member matches the selection |
| `OtpVerification.Chars` | src/components/OTPVerification.tsx:110 | `split("")`: one one-character piece per character |
| `OtpVerification.Holes` | src/components/OTPVerification.tsx:111 | the empty slots an assignment past the end leaves |
| `OtpVerification.AssignSlot` | src/components/OTPVerification.tsx:111 | assigning an array index keeps the length inside and extends it past the end |
| `OtpVerification.SlotEdit` | src/components/OTPVerification.tsx:109-112 | inside the OTP a character replaces and an empty value deletes; past the end the value is appended |
| `OtpVerification.ConcatAppend` | src/components/OTPVerification.tsx:112 | joining distributes over concatenation |
| `OtpVerification.ConcatChars` | src/components/OTPVerification.tsx:110-112 | split then join gives back the OTP |
| `OtpVerification.ConcatHoles` | src/components/OTPVerification.tsx:111-112 | holes join to nothing |
| `OtpVerification.CharsSplit` | src/components/OTPVerification.tsx:110 | the pieces around one index |
| `OtpVerification.AssignInside` | src/components/OTPVerification.tsx:110-112 | an edit inside the OTP is the split, assign, join |
| `OtpVerification.AssignBeyond` | src/components/OTPVerification.tsx:110-112 | an edit past the end is the split, assign, join |
| `OtpVerification.SlotEditIsArrayUpdate` | src/components/OTPVerification.tsx:110-112 | `SlotEdit` is exactly split, indexed assignment, join, for every index |
| `OtpVerification.SlotEditKeepsSixOrFewer` | src/components/OTPVerification.tsx:102-112 | editing one of the six slots keeps the OTP at six characters or fewer |
| `OtpVerification.FirstDigitRun` | src/components/OTPVerification.tsx:97 | the leftmost start of ten digits, or the end if there is none |
| `OtpVerification.MaskMobile` | src/components/OTPVerification.tsx:97 | keeps the length; a text without ten digits in a row is shown as it is |
| `OtpVerification.MaskAtWindow` | src/components/OTPVerification.tsx:97 | the mask stars positions 3 to 6 of the matched window and keeps every other character |
| `OtpVerification.MaskHidesMiddleFour` | src/components/OTPVerification.tsx:97 | the first run of ten digits shows its first and last three and stars the middle four |
| `OtpVerification.MaskTenDigits` | src/components/OTPVerification.tsx:97 | a ten-digit mobile shows as its first three digits, four stars and its last three digits |
| `OtpVerification.Split` | src/components/OTPVerification.tsx:161 | `split(" ")`: at least one piece, none containing a space |
| `OtpVerification.SplitJoin` | src/components/OTPVerification.tsx:161 | joining the pieces with spaces gives back the name |
| `OtpVerification.InitialsAreWordStarts` | src/components/OTPVerification.tsx:161 | the initials are exactly the characters that start a word (that follow a space or the start) |
| `OtpVerification.OtpForm.constructor` | src/components/OTPVerification.tsx:51-55 | the card's family, an empty OTP and selection, not verifying, 30 seconds |
| `OtpVerification.OtpForm.Tick` | src/components/OTPVerification.tsx:57-60 | the countdown drops by one per second and stops at 0 |
| `OtpVerification.OtpForm.Resend` | src/components/OTPVerification.tsx:77-79 | callable only while the resend button is shown, i.e. once the countdown is 0 (the button of lines 124-132); resets the countdown to 30, which hides the button again |
| `OtpVerification.OtpForm.EditSlot` | src/components/OTPVerification.tsx:109-112 | the OTP becomes the slot edit of the old OTP, never over six characters |
| `OtpVerification.OtpForm.SelectMember` | src/components/OTPVerification.tsx:73-75 | the selection becomes the chosen member, replacing any other |
| `OtpVerification.OtpForm.PressVerify` | src/components/OTPVerification.tsx:65-67 | with the guard of line 196: starts exactly when the OTP has six characters, a member is chosen and nothing is verifying, and captures the chosen member |
| `OtpVerification.OtpForm.VerifyFires` | src/components/OTPVerification.tsx:67-70 | hands on a one-element list of the member chosen at the press and stops verifying |
| `Login.DemoAccountsAgree` | src/components/Login.tsx:13-18 | each demo account's member count equals the shell's family size and the OTP screen's member count for that card |
| `Login.DemoAccountsFitTheForm` | src/components/Login.tsx:13-18 | each demo card has 12 characters and each demo mobile 10 |
| `Login.LoginForm.constructor` | src/components/Login.tsx:22-24 | both inputs empty, not loading |
| `Login.LoginForm.EditRation` | src/components/Login.tsx:66-68 | takes a value of up to 12 characters and refuses a longer one |
| `Login.LoginForm.EditMobile` | src/components/Login.tsx:83-85 | takes a value of up to 10 characters and refuses a longer one |
| `Login.LoginForm.PressSubmit` | src/components/Login.tsx:26-28 | with the guard of line 93: starts exactly when not loading with 12 and 10 characters (any characters), sets loading and captures both values |
| `Login.LoginForm.SubmitFires` | src/components/Login.tsx:29-32 | hands on the ration number and mobile captured at the press, in that order, and clears loading |
| `Login.SubmitDemoAccount` | src/components/Login.tsx:13-33 | a demo account typed in and submitted reaches the shell unchanged |
| `Tracking.NextProgress` | src/components/TrackingPage.tsx:65-71 | below 100 a tick never passes 95 and adds at most 2; up to 95 it never decreases |
| `Tracking.ProgressFromStart` | src/components/TrackingPage.tsx:63-72 | after n ticks from the initial 75 the progress is min(75 + 2n, 95) |
| `Tracking.NeverComplete` | src/components/TrackingPage.tsx:66-69 | from 75 the progress never decreases and stays between 75 and 95, so the branch that reaches 100 never runs |
| `Tracking.Tracker.constructor` | src/components/TrackingPage.tsx:25-26 | step 2, progress 75 |
| `Tracking.Tracker.Tick` | src/components/TrackingPage.tsx:63-72 | the progress becomes the next tick's, the step changes only at 100, and the step-2, 75..95 state is kept with progress non-decreasing |
| `Tracking.OverallProgress` | src/components/TrackingPage.tsx:77-78 | (step + 1) of four steps, as a percentage: between 25 and 100, and 100 only on the last step |
| `Tracking.OverallProgressOnScreen` | src/components/TrackingPage.tsx:77-78 | with step 2 the bar shows 75 |
| `Tracking.ExactlyOneActive` | src/components/TrackingPage.tsx:154 | exactly one step is active, the current one |
| `Tracking.CompletedOnScreen` | src/components/TrackingPage.tsx:155 | with step 2, the first three steps are completed and the last is not |
| `Tracking.EnRouteOnlyWhenDispatched` | src/components/TrackingPage.tsx:189 | the en-route bar shows exactly when the dispatch step is current |
| `Tracking.ReceiptAddsUp` | src/components/TrackingPage.tsx:89-97 | the receipt's lines add up to 355, and 355 plus 10 is the stated 365 |
| `Tracking.OrderDetailsAtCataloguePrices` | src/components/TrackingPage.tsx:251-268 | 5 kg rice, 1 L oil and 1 kg dhal cost 15, 25 and 60 at catalogue prices, adding up to the 100 paid |
| `Tracking.ReceiptNotAtCataloguePrices` | src/components/TrackingPage.tsx:89 | the receipt charges 50 for 2 kg of rice, which the catalogue prices at 6 |
| `RationBot.TrimStart` | src/components/RationBot.tsx:89 | drops exactly the leading white space |
| `RationBot.TrimEnd` | src/components/RationBot.tsx:89 | drops exactly the trailing white space |
| `RationBot.TrimIsInnerSlice` | src/components/RationBot.tsx:89 | the trimmed text is a slice of the input with only white space cut off on each side |
| `RationBot.TrimEndsNonBlank` | src/components/RationBot.tsx:89 | the trimmed text, unless empty, begins and ends with a non-space |
| `RationBot.TrimEmptyIffBlank` | src/components/RationBot.tsx:89-90 | the text trims to nothing exactly when it is all white space |
| `RationBot.TrimIdempotent` | src/components/RationBot.tsx:89 | trimming twice is trimming once |
| `RationBot.TextToSend` | src/components/RationBot.tsx:89 | an explicit non-empty message is sent untrimmed; otherwise the trimmed input |
| `RationBot.ChatPanel.constructor` | src/components/RationBot.tsx:21-24 | empty history and input, not loading, not listening |
| `RationBot.ChatPanel.SetInput` | src/components/RationBot.tsx:292 | the input becomes the typed text |
| `RationBot.ChatPanel.Send` | src/components/RationBot.tsx:88-100 | accepted exactly when the text to send is non-empty and nothing is loading, which for the button and Enter is exactly when the send button is enabled; a quick action is sent only on an empty history (line 223); an accepted send appends one user message, clears the input and sets loading; otherwise nothing changes |
| `RationBot.ChatPanel.Receive` | src/components/RationBot.tsx:111-130 | an answer appends exactly one bot message; a failure appends nothing; loading ends either way |
| `RationBot.ChatPanel.Clear` | src/components/RationBot.tsx:133-134 | empties the history |
| `RationBot.ChatPanel.ToggleListening` | src/components/RationBot.tsx:69-86 | without a recognizer listening is unchanged; otherwise it flips |
| `RationBot.ChatPanel.RecognitionResult` | src/components/RationBot.tsx:42-46 | the transcript becomes the input and listening stops |
| `RationBot.ChatPanel.RecognitionError` | src/components/RationBot.tsx:48-49 | listening stops |
| `RationBot.EnabledSendPostsTrimmedInput` | src/components/RationBot.tsx:300 | when the panel's send button is enabled, a send posts the trimmed, non-empty input |
| `RationBot.Exchange` | src/components/RationBot.tsx:88-130 | from a fresh panel, a non-blank input and an answer leave exactly the trimmed message followed by the answer |
| `ChatRelay.HelplineAmid` | supabase/functions/rationbot-chat/index.ts:22-73 | the helpline number survives any text put around it |
| `ChatRelay.ContextLine` | supabase/functions/rationbot-chat/index.ts:66 | the context line (here and at line 43) is empty exactly when the context is, and otherwise ends with the context |
| `ChatRelay.SystemPrompt` | supabase/functions/rationbot-chat/index.ts:22-73 | language 'ta' selects the Tamil prompt and any other value the English one, each with its context line |
| `ChatRelay.HelplineInPrompt` | supabase/functions/rationbot-chat/index.ts:22-73 | a prompt built from an intro, the helpline, a rule and a context line contains the helpline, with or without a tail after it |
| `ChatRelay.PromptGivesHelpline` | supabase/functions/rationbot-chat/index.ts:22-73 | both prompts contain 1234, whatever the context |
| `ChatRelay.GatewayCall` | supabase/functions/rationbot-chat/index.ts:75-94 | exactly three messages: the prompt, a system fact containing 1234 and the user's message; the model, temperature 0.7, max_tokens 300, and the bearer key |
| `ChatRelay.ErrorResponse` | supabase/functions/rationbot-chat/index.ts:121-126 | an error body with the CORS and JSON headers |
| `ChatRelay.Plan` | supabase/functions/rationbot-chat/index.ts:9-19 | OPTIONS gets a null body with the CORS headers; an unreadable body gets 500 with the parser's message; a missing or empty key gets 500 "LOVABLE_API_KEY is not configured"; the gateway is called exactly when none of these applies |
| `ChatRelay.Finish` | supabase/functions/rationbot-chat/index.ts:96-126 | an answer gets status 200 and `{response}` (`{}` when the message has no content), and only an answer gets an answer body; 429 and 402 pass through with their messages; any other failure status gets 500 "AI Gateway error"; a thrown error gets 500 with its message |
| `ChatRelay.Handle` | supabase/functions/rationbot-chat/index.ts:8-128 | every response starts with the CORS headers and has status 200, 402, 429 or 500; it is 200 exactly for a preflight or a gateway answer |
| `ChatRelay.PassedOnStatuses` | supabase/functions/rationbot-chat/index.ts:96-108 | a 402 or 429 response comes only from a gateway call that failed with that status |
| `ChatRelay.NoCallWithoutKey` | supabase/functions/rationbot-chat/index.ts:9-19 | a preflight or a request without a key does not depend on the gateway |

## Left out

- Rendering, CSS, icons, translation lookups and the Dashboard screen. The Dashboard's only computations are display percentages (floating division and `Math.round`). Its two callbacks are modelled as `Index.App.HandleProductSelection` and `Index.App.BackToLogin`.
- Timer delays (1000, 1500, 2000, 3000 ms) and interval cleanup. Each firing is a method call in whatever order the caller chooses.
- The network and the platform: `fetch`, `supabase.functions.invoke`, `serve`, `Deno.env.get` (the key is an `Option` parameter), and JSON parsing of the request and of the gateway reply. The reply's `choices[0].message.content` is an input. A reply without `choices[0]` or its `message` throws when read, so it is a `Failure` answering 500. A message without `content` is `Reply(None)`: it answers 200 with the body `{}`. The chat panel's handling of that answer, a bot message whose content is `undefined`, is not modelled: a `RationBot.Reply` answer always carries a string.
- Speech recognition and synthesis, toasts, scrolling, focus moves between the OTP inputs, and the receipt download. The recognizer appears only as a flag saying whether it exists.
- `Math.random` order ids, dates and timestamps, `toFixed(2)` and `toLocaleString`.
- `parseFloat`: the typed quantity is an arbitrary real. `NaN` and infinities are not modelled. `parseFloat(...) || 0` turns `NaN` into 0 anyway.
- Floating point in general. Exact reals stand for JavaScript numbers. The two agree on the catalogue's figures and on half-unit steps from them. A typed decimal can differ in the last bits: 0.1 kg of rice costs 0.30000000000000004 in JavaScript and exactly 0.3 here. `toFixed(2)` hides the difference on screen, but the total forwarded to the confirmation screen carries it.
- The wording of the relay's prompts. Short stand-ins keep the helpline number 1234 and the place of the context line. The fixed system fact is likewise shortened to its first sentence.
- The relay's request fields are read as strings. A missing context is the empty string; a non-string `message` or `language` is not modelled.
- `ChatRelay.Finish`: a thrown value that is not an `Error` answers "Unknown error"; the model gives every thrown error a reason string.
- Strings are sequences of Unicode scalar values, whereas JavaScript strings are UTF-16. Lengths, `trim` and `n[0]` differ only for characters outside the Basic Multilingual Plane.
- Record lookups through the JavaScript prototype chain (a ration number such as "constructor"). No such key has twelve characters.
- `Login.LoginForm.EditRation`, `Login.LoginForm.EditMobile`: an over-long value is refused whole. The browser's `maxLength` truncates a pasted value instead.
- The chat panel's open/closed state, and the disabled input while loading. `RationBot.ChatPanel.SetInput` accepts text at any time.
- The recognition language ('ta-IN' or 'en-IN') and the bot's spoken reply.
- The receipt's figures do not follow the catalogue (`Tracking.ReceiptNotAtCataloguePrices`). They are kept as the fixed text they are.
