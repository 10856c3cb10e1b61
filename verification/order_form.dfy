/** The order-entry form: its values, the three interaction flags and the
    `touched` mark of the quantity field, the validation schema, and one pure
    handler per event the form reacts to. Sending an order is an emitted value,
    not a call. */
module OrderForm {

  import opened Wrappers

  /** Reads a quantity text as a number: `Some(v)` when the text denotes `v`,
      `None` when it is not a number. */
  type Parser = string -> Option<real>

  datatype Values = Values(selectedSymbol: string, quantity: string)

  /** The form's initial values, which a reset restores. */
  const InitialValues: Values := Values("", "")

  datatype FormState = FormState(
    values: Values,
    touchedQuantity: bool,
    hasStartedTyping: bool,
    hasClickedBuy: bool,
    hasLostFocus: bool)

  const Initial: FormState := FormState(InitialValues, false, false, false, false)

  /** The request handed to the order-submission collaborator. */
  datatype Order = Order(symbol: string, quantity: real)

  datatype Event =
    | SymbolsArrived(symbols: seq<string>)  // the symbols-list effect
    | SymbolSelected(symbol: string)        // the symbol drop-down's change
    | QuantityInput(text: string)           // the quantity input's change
    | QuantityBlur
    | QuantityFocus
    | FieldClick                            // a click on the quantity box
    | TouchSync                             // the effect on quantity/typing
    | Submit                                // the submit handler

  /** A handled event: the next state and the orders it sent, in order. */
  datatype Transition = Transition(state: FormState, sent: seq<Order>)

  datatype FieldError = Required | NotANumber | NotPositive

  // ---------------------------------------------------------------------------
  // Validation schema

  predicate Positive(p: Option<real>) {
    p.Some? && p.value > 0.0
  }

  /** The symbol rule: a string that is required. */
  function SymbolError(symbol: string): (e: Option<FieldError>)
    ensures e.None? <==> symbol != ""
    ensures e.Some? ==> e.value == Required
  {
    if symbol == "" then Some(Required) else None
  }

  /** The quantity rule: a number that is positive and more than 0. It is not
      required, so the empty text (absent to the schema) passes, and there is
      no minimum beyond 0. */
  function QuantityError(q: string, parse: Parser): (e: Option<FieldError>)
    ensures e.None? <==> q == "" || Positive(parse(q))
    ensures e == Some(NotANumber) <==> q != "" && parse(q).None?
    ensures e != Some(Required)
  {
    if q == "" then None
    else match parse(q)
      case None => Some(NotANumber)
      case Some(v) => if v > 0.0 then None else Some(NotPositive)
  }

  predicate IsValid(v: Values, parse: Parser) {
    SymbolError(v.selectedSymbol).None? && QuantityError(v.quantity, parse).None?
  }

  predicate Dirty(v: Values) {
    v != InitialValues
  }

  /** The quantity label shows the error text instead of the prompt. */
  function ErrorLabelShown(st: FormState, parse: Parser): (shown: bool)
    ensures shown <==> st.touchedQuantity && st.values.quantity != "" && !Positive(parse(st.values.quantity))
  {
    st.touchedQuantity && QuantityError(st.values.quantity, parse).Some?
  }

  /** The gate handed to the submit button: valid and changed from the initial
      values. A chosen symbol already makes the values changed. */
  function SubmitEnabled(st: FormState, parse: Parser): (enabled: bool)
    ensures enabled <==> st.values.selectedSymbol != "" && (st.values.quantity == "" || Positive(parse(st.values.quantity)))
  {
    IsValid(st.values, parse) && Dirty(st.values)
  }

  // ---------------------------------------------------------------------------
  // Event handlers

  /** A new symbols list selects its first symbol, whatever was selected. */
  function OnSymbolsArrived(st: FormState, symbols: seq<string>): (r: FormState)
    ensures |symbols| > 0 ==> r.values.selectedSymbol == symbols[0]
    ensures |symbols| == 0 ==> r == st
    ensures r.values.quantity == st.values.quantity
    ensures r.(values := st.values) == st
  {
    if |symbols| > 0 then st.(values := st.values.(selectedSymbol := symbols[0])) else st
  }

  function OnSymbolSelected(st: FormState, symbol: string): (r: FormState)
    ensures r.values == Values(symbol, st.values.quantity)
    ensures r.(values := st.values) == st
  {
    st.(values := st.values.(selectedSymbol := symbol))
  }

  /** Typing records the text; the first non-empty text starts typing. */
  function OnQuantityInput(st: FormState, text: string): (r: FormState)
    ensures r.values == Values(st.values.selectedSymbol, text)
    ensures r.hasStartedTyping <==> st.hasStartedTyping || text != ""
    ensures r.(values := st.values, hasStartedTyping := st.hasStartedTyping) == st
  {
    var started := if text != "" && !st.hasStartedTyping then true else st.hasStartedTyping;
    st.(values := st.values.(quantity := text), hasStartedTyping := started)
  }

  /** Leaving a field without a quantity error clears its touched mark and
      remembers the focus loss; leaving it with an error changes nothing. */
  function OnQuantityBlur(st: FormState, parse: Parser): (r: FormState)
    ensures QuantityError(st.values.quantity, parse).None? ==> !r.touchedQuantity && r.hasLostFocus
    ensures QuantityError(st.values.quantity, parse).Some? ==> r == st
    ensures r.(touchedQuantity := st.touchedQuantity, hasLostFocus := st.hasLostFocus) == st
  {
    if QuantityError(st.values.quantity, parse).None? then
      st.(touchedQuantity := false, hasLostFocus := true)
    else
      st
  }

  /** Entering the field marks it touched if it was not. */
  function OnQuantityFocus(st: FormState): (r: FormState)
    ensures r.touchedQuantity
    ensures st.touchedQuantity ==> r == st
    ensures r.(touchedQuantity := st.touchedQuantity) == st
  {
    if !st.touchedQuantity then st.(touchedQuantity := true) else st
  }

  /** A click on the quantity box marks it touched once typing has started. */
  function OnFieldClick(st: FormState): (r: FormState)
    ensures r.touchedQuantity <==> st.touchedQuantity || st.hasStartedTyping
    ensures r.(touchedQuantity := st.touchedQuantity) == st
  {
    if st.hasStartedTyping then st.(touchedQuantity := true) else st
  }

  /** The effect on the quantity and the typing flag: a non-empty quantity
      after typing has started forces the touched mark. */
  function SyncTouched(st: FormState): (r: FormState)
    ensures r.touchedQuantity <==> st.touchedQuantity || (st.values.quantity != "" && st.hasStartedTyping)
    ensures r.(touchedQuantity := st.touchedQuantity) == st
  {
    if st.values.quantity != "" && st.hasStartedTyping then st.(touchedQuantity := true) else st
  }

  /** The submit handler. An empty quantity arms the error and sends nothing; a
      quantity that reads as a positive number sends exactly one order and resets
      the whole form; anything else only records the click. */
  function OnSubmit(st: FormState, parse: Parser): (t: Transition)
    ensures st.values.quantity == "" ==>
      && t.sent == []
      && t.state == st.(hasClickedBuy := true, hasStartedTyping := true, touchedQuantity := true)
    ensures st.values.quantity != "" && Positive(parse(st.values.quantity)) ==>
      && t.sent == [Order(st.values.selectedSymbol, parse(st.values.quantity).value)]
      && t.state == Initial
    ensures st.values.quantity != "" && !Positive(parse(st.values.quantity)) ==>
      && t.sent == []
      && t.state == st.(hasClickedBuy := true)
  {
    var clicked := st.(hasClickedBuy := true);
    if st.values.quantity == "" then
      Transition(clicked.(hasStartedTyping := true, touchedQuantity := true), [])
    else match parse(st.values.quantity)
      case Some(v) =>
        if v > 0.0 then
          var order := Order(st.values.selectedSymbol, v);
          Transition(Initial, [order])
        else
          Transition(clicked, [])
      case None => Transition(clicked, [])
  }

  /** One event, handled to completion. Only a submit sends, at most one order,
      of a positive quantity read from the text, and a send resets the form. */
  function Step(st: FormState, ev: Event, parse: Parser): (t: Transition)
    ensures |t.sent| <= 1
    ensures |t.sent| == 1 ==>
      && ev == Submit
      && t.state == Initial
      && t.sent[0].symbol == st.values.selectedSymbol
      && parse(st.values.quantity) == Some(t.sent[0].quantity)
      && t.sent[0].quantity > 0.0
    ensures ev != Submit ==> t.sent == []
  {
    match ev
    case SymbolsArrived(symbols) => Transition(OnSymbolsArrived(st, symbols), [])
    case SymbolSelected(symbol) => Transition(OnSymbolSelected(st, symbol), [])
    case QuantityInput(text) => Transition(OnQuantityInput(st, text), [])
    case QuantityBlur => Transition(OnQuantityBlur(st, parse), [])
    case QuantityFocus => Transition(OnQuantityFocus(st), [])
    case FieldClick => Transition(OnFieldClick(st), [])
    case TouchSync => Transition(SyncTouched(st), [])
    case Submit => OnSubmit(st, parse)
  }

  function SubmitCount(evs: seq<Event>): nat {
    if |evs| == 0 then 0 else (if evs[0] == Submit then 1 else 0) + SubmitCount(evs[1..])
  }

  /** A sequence of events handled one after another; the orders sent are
      collected in the order they were sent. */
  function Run(st: FormState, evs: seq<Event>, parse: Parser): (t: Transition)
    ensures |t.sent| <= SubmitCount(evs)
    ensures forall i :: 0 <= i < |t.sent| ==> t.sent[i].quantity > 0.0
    decreases |evs|
  {
    if |evs| == 0 then Transition(st, [])
    else
      var first := Step(st, evs[0], parse);
      var rest := Run(first.state, evs[1..], parse);
      Transition(rest.state, first.sent + rest.sent)
  }
}
