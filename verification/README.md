# Order form and symbol selection

A model of the client-side order entry of a trading interface: the market
order form (a symbol and a quantity, progressive validation, a submit that
sends one order and resets the form) and the symbol-selection hook that keeps
the selected position leverage and the initial bracket leverage in step with
the chosen symbol.

- `wrappers.dfy` — `Option`, standing for the source's `undefined`/`null`.
- `order_form.dfy` (module `OrderForm`) — the form values, the interaction
  flags `hasStartedTyping`, `hasClickedBuy`, `hasLostFocus` and the
  `touched.quantity` mark; the validation schema as `SymbolError` and
  `QuantityError`; one pure handler per event (symbols-list effect, symbol
  change, quantity change, blur, focus, click on the quantity box, the
  touched effect, submit); `Step` over an `Event`, and `Run` over a sequence
  of events. A sent order is an emitted `Order` value; the derived outputs are
  `ErrorLabelShown` and `SubmitEnabled`.
- `order_form_properties.dfy` (module `OrderFormProperties`) — the schema
  against the submit branches, the submit gate, the invariant `Consistent`
  kept by every event, and what runs of events can send.
- `symbol_selection.dfy` (module `SymbolSelection`) — positions and leverage
  brackets, first-match lookup by exact symbol equality, the select handler
  and the resolution effect.
- `symbol_selection_properties.dfy` (module `SymbolSelectionProperties`) —
  idempotence of the effect and of the select handler, their agreement when
  both collections are present, the effect completing a select made before
  the brackets arrived, and the first-match, first-tier and keep-previous behaviours.

Quantity parsing is a parameter `parse: string -> Option<real>` (mathematical
reals). The durable storage write is the `storedSymbol` field of the
selection; the order mutation is the `sent` sequence of a transition.

Behaviours of the code worth noting:

- The quantity rule has no `required`, so an empty quantity is not an error
  (the form library treats the empty text as an absent value). There is no
  "Required" error for the quantity; submitting an empty quantity arms the
  touched mark but the label keeps its prompt (`EmptySubmitArmsWithoutLabel`).
- There is no 0.0001 minimum: `moreThan(0)` only excludes values at or below 0,
  whatever its message says (`NoMinimumQuantity`).
- A new symbols list always selects its first symbol, replacing an existing
  choice (`SymbolsOverrideChoice`).
- A lookup with no match keeps the previously resolved leverage instead of
  clearing it (`NoMatchKeepsPrevious`, `StaleLeverageExample`).
- The effect resolves the bracket only after a position was found, while the
  select handler resolves each from its own collection (`EffectNeedsPosition`).

## Model

| member | source | states |
|---|---|---|
| OrderForm.SymbolError | components/orderForm.tsx:9 | the symbol is in error exactly when it is empty, and the error is "Required" |
| OrderForm.QuantityError | components/orderForm.tsx:10-12 | the quantity passes exactly when it is empty or reads as a number above 0; unreadable text is a type error, never "Required" |
| OrderForm.OnSymbolsArrived | components/orderForm.tsx:53-57 | a non-empty symbols list selects its first symbol, an empty one changes nothing, and nothing but the selected symbol changes |
| OrderForm.OnSymbolSelected | components/orderForm.tsx:69-75 | the drop-down's change sets the selected symbol and leaves quantity and flags alone |
| OrderForm.OnQuantityInput | components/orderForm.tsx:117-122 | the text is recorded; afterwards typing has started exactly when it had before or the text is non-empty; nothing else changes |
| OrderForm.OnQuantityBlur | components/orderForm.tsx:123-129 | a blur without a quantity error clears the touched mark and sets the lost-focus flag; with an error the state is unchanged |
| OrderForm.OnQuantityFocus | components/orderForm.tsx:130-134 | after a focus the field is touched; a touched field is left as it was; nothing else changes |
| OrderForm.OnFieldClick | components/orderForm.tsx:95-99 | a click on the quantity box leaves it touched exactly when it was touched or typing had started |
| OrderForm.SyncTouched | components/orderForm.tsx:59-63 | the effect leaves the field touched exactly when it was touched, or the quantity is non-empty and typing has started |
| OrderForm.OnSubmit | components/orderForm.tsx:34-50 | empty quantity: nothing sent, buy-click, typing and touched set; positive quantity: exactly the order (selected symbol, parsed quantity) sent and the form fully reset; otherwise nothing sent and only the buy-click flag changes |
| OrderForm.ErrorLabelShown | components/orderForm.tsx:85-91 | the label shows the error exactly when the quantity is touched, non-empty and does not read as a positive number |
| OrderForm.SubmitEnabled | components/orderForm.tsx:145 | the button is enabled (valid and dirty) exactly when a symbol is chosen and the quantity is empty or reads as a positive number |
| OrderForm.Step | components/orderForm.tsx:34-134 | any event sends at most one order, only a submit sends, and a send carries the selected symbol and the positive parsed quantity and leaves the initial form |
| OrderForm.Run | components/orderForm.tsx:34-50 | a sequence of events sends no more orders than it has submits, each of a positive quantity |
| OrderFormProperties.SchemaAgreesWithSubmit | components/orderForm.tsx:8-50 | for a non-empty quantity the schema accepts it exactly when submitting it sends an order |
| OrderFormProperties.NoMinimumQuantity | components/orderForm.tsx:10-12 | a quantity reading as 0.00001, below the 0.0001 in the message, passes the schema |
| OrderFormProperties.ValidValues | components/orderForm.tsx:8-13 | the values are valid exactly when the symbol is non-empty and the quantity is empty or positive |
| OrderFormProperties.EnabledSubmitSends | components/orderForm.tsx:39-47 | with the button enabled (valid and dirty, line 145) and a quantity entered, submit sends exactly one order for the non-empty selected symbol and the positive parsed quantity |
| OrderFormProperties.InitialIsQuiet | components/orderForm.tsx:26-33 | the initial form is not submittable and shows no error |
| OrderFormProperties.SendResetsForm | components/orderForm.tsx:39-47 | after a send the values are empty, the button is disabled, no error shows and an immediate second submit sends nothing |
| OrderFormProperties.EmptySubmitArmsWithoutLabel | components/orderForm.tsx:35-38 | submitting an empty quantity marks it touched and sets the buy-click flag, and the label still shows no error |
| OrderFormProperties.StepKeepsConsistent | components/orderForm.tsx:35-47 | every event keeps "non-empty quantity or buy-click implies typing started" |
| OrderFormProperties.RunKeepsConsistent | components/orderForm.tsx:117-122 | any sequence of events keeps that invariant |
| OrderFormProperties.ReachableConsistent | components/orderForm.tsx:22-30 | every state reachable from the initial form satisfies the invariant |
| OrderFormProperties.SyncMakesFeedbackLive | components/orderForm.tsx:59-63 | in a reachable state, after the touched effect the error label shows exactly when the quantity has an error |
| OrderFormProperties.BlurThenFocus | components/orderForm.tsx:123-134 | a clean blur hides the label; a focus after it touches the field again and keeps the lost-focus flag |
| OrderFormProperties.FlagsFallOnlyOnSend | components/orderForm.tsx:44-47 | an event that sends nothing never clears the typing, buy-click or lost-focus flag |
| OrderFormProperties.TypingStaysWithoutSend | components/orderForm.tsx:118-120 | over any sequence of events that sends nothing, started typing stays started |
| OrderFormProperties.NoSubmitNoOrders | components/orderForm.tsx:40-43 | a sequence of events without a submit sends nothing |
| OrderFormProperties.SymbolsOverrideChoice | components/orderForm.tsx:53-57 | with ETHUSD chosen, the list BTCUSD, ETHUSD selects BTCUSD |
| OrderFormProperties.SubmitExample | components/orderForm.tsx:39-47 | submitting 0.5 of BTCUSD sends exactly that order and returns the initial form |
| SymbolSelection.FindFirst | util/selectSymbol.tsx:24-26 | the found index is the first whose symbol equals the sought one; none is found exactly when no element matches |
| SymbolSelection.First | util/selectSymbol.tsx:48-53 | the element `find` returns is the first whose symbol equals the sought one, it is the only such first element, and there is none exactly when no element has the symbol |
| SymbolSelection.PositionLeverage | util/selectSymbol.tsx:54-56 | the leverage of the first position on the symbol, or the previous value when there is none |
| SymbolSelection.BracketLeverage | util/selectSymbol.tsx:57-59 | the initial leverage of tier 0 of the first bracket on the symbol, or the previous value when there is none |
| SymbolSelection.HandleSelect | util/selectSymbol.tsx:41-63 | the symbol is always recorded in storage, selection and form field; with both collections present each leverage comes from its first match or stays as it was; with either absent both stay |
| SymbolSelection.ResolveEffect | util/selectSymbol.tsx:22-39 | the selection is never changed; without a non-empty symbol, non-empty positions and a matching position nothing changes; otherwise the first position's leverage is taken and, when brackets are present, the first bracket's tier 0 or the previous value |
| SymbolSelectionProperties.EffectIdempotent | util/selectSymbol.tsx:22-39 | applying the effect twice with the same symbol and data equals applying it once |
| SymbolSelectionProperties.EffectAfterSelectIsSettled | util/selectSymbol.tsx:22-59 | with both collections present, the effect following a select over the same data changes nothing |
| SymbolSelectionProperties.EffectCompletesSelectWithoutBrackets | util/selectSymbol.tsx:22-59 | with positions present and brackets absent, the select keeps the old position leverage and the effect after it sets the first matching position's leverage, leaving the bracket leverage alone |
| SymbolSelectionProperties.SelectIdempotent | util/selectSymbol.tsx:41-63 | selecting the same symbol twice over the same data equals selecting it once |
| SymbolSelectionProperties.FirstPositionWins | util/selectSymbol.tsx:48-56 | for any positions where an earlier and a later entry share the symbol, the select takes the earlier entry's leverage |
| SymbolSelectionProperties.FirstTierWins | util/selectSymbol.tsx:57-59 | BTCUSD with position leverage 10 and tiers 20, 10 resolves to 10 and 20 |
| SymbolSelectionProperties.NoMatchKeepsPrevious | util/selectSymbol.tsx:47-59 | a symbol without position or bracket is recorded and keeps both previous leverages |
| SymbolSelectionProperties.StaleLeverageExample | util/selectSymbol.tsx:54-59 | BTCUSD then XRPUSD leaves BTCUSD's leverages 10 and 20 selected |
| SymbolSelectionProperties.EffectNeedsPosition | util/selectSymbol.tsx:27-35 | example: with ETHUSD selected, only a BTCUSD position and an ETHUSD bracket with tier 25, the effect leaves the bracket leverage unset while the select handler sets it to 25 |

## Left out

- Rendering, CSS classes and border colours beyond the error label and the submit gate; the `'-'` keydown filter (browser input filtering).
- The form library's submit wrapper (marking every field touched, validating, and calling the handler only when valid) and its `isSubmitting` flag: `OnSubmit` models the handler itself.
- The form library's stored errors, which are recomputed only when validation runs (on change once typing has started, when the touched effect or a click on the quantity box marks the field touched, on the symbol drop-down's blur, and on submit; the quantity blur and focus skip validation): the model derives errors from the current values at every step.
- OrderForm.OnQuantityBlur: the handler's `formik.handleBlur("quantity")` call with a field name only builds a handler without invoking it, so a blur with a quantity error is modelled as changing nothing.
- Parsing: one abstract parser stands for both the schema's number cast and `parseFloat`, which agree on the text a number input yields; the number input storing a number rather than text is not modelled.
- The touched mark of the symbol field, which nothing derived reads.
- React effect scheduling and state batching: each effect is an explicit event, and each handler's batched updates are applied at once, last write winning.
- The order mutation call and its outcome (fire-and-forget): it is the emitted `Order`.
- Durable storage beyond the write of the last selected symbol; the commented-out restore-from-storage effect is dead code.
- SymbolSelection.HandleSelect, SymbolSelection.ResolveEffect and SymbolSelection.BracketLeverage: reading `brackets[0]` of a bracket with no tiers throws; the model requires that read to be defined instead of modelling the exception.
