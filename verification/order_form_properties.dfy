/** Properties of the order form that relate several handlers or several
    events: the schema against the submit branches, the submit gate, the
    interaction invariant, and what a run of events can send. */
module OrderFormProperties {

  import opened Wrappers
  import opened OrderForm

  // ---------------------------------------------------------------------------
  // Schema

  /** For a non-empty quantity, the schema and the submit handler agree: the
      schema accepts the text exactly when submitting it sends an order. */
  lemma SchemaAgreesWithSubmit(st: FormState, parse: Parser)
    requires st.values.quantity != ""
    ensures QuantityError(st.values.quantity, parse).None? <==> |OnSubmit(st, parse).sent| == 1
  {
  }

  /** "More than 0" is the only lower bound: any positive reading passes,
      however small, despite the message naming 0.0001. */
  lemma NoMinimumQuantity(q: string, parse: Parser)
    requires parse(q) == Some(0.00001)
    ensures QuantityError(q, parse).None?
  {
  }

  /** The values are valid exactly when a symbol is chosen and the quantity is
      empty or reads as a positive number. */
  lemma ValidValues(v: Values, parse: Parser)
    ensures IsValid(v, parse) <==> v.selectedSymbol != "" && (v.quantity == "" || Positive(parse(v.quantity)))
  {
  }

  // ---------------------------------------------------------------------------
  // Submit gate

  /** When the button is enabled and a quantity was entered, submitting sends
      exactly one order, for the chosen (non-empty) symbol and the positive
      quantity read from the text. */
  lemma EnabledSubmitSends(st: FormState, parse: Parser)
    requires SubmitEnabled(st, parse)
    requires st.values.quantity != ""
    ensures |OnSubmit(st, parse).sent| == 1
    ensures OnSubmit(st, parse).sent[0].symbol == st.values.selectedSymbol != ""
    ensures Some(OnSubmit(st, parse).sent[0].quantity) == parse(st.values.quantity)
    ensures OnSubmit(st, parse).sent[0].quantity > 0.0
  {
  }

  /** The freshly mounted form cannot be submitted and shows no error. */
  lemma InitialIsQuiet(parse: Parser)
    ensures !SubmitEnabled(Initial, parse)
    ensures !ErrorLabelShown(Initial, parse)
  {
  }

  /** After an order is sent the form is back to its initial state: the button
      is disabled, no error shows, and a second submit sends nothing. */
  lemma SendResetsForm(st: FormState, parse: Parser)
    requires |OnSubmit(st, parse).sent| == 1
    ensures OnSubmit(st, parse).state.values == Values("", "")
    ensures !SubmitEnabled(OnSubmit(st, parse).state, parse)
    ensures !ErrorLabelShown(OnSubmit(st, parse).state, parse)
    ensures OnSubmit(OnSubmit(st, parse).state, parse).sent == []
  {
  }

  /** Submitting an empty quantity touches the field, but the schema has no
      error for an empty quantity, so the label keeps its prompt. */
  lemma EmptySubmitArmsWithoutLabel(st: FormState, parse: Parser)
    requires st.values.quantity == ""
    ensures OnSubmit(st, parse).state.touchedQuantity
    ensures OnSubmit(st, parse).state.hasClickedBuy
    ensures !ErrorLabelShown(OnSubmit(st, parse).state, parse)
  {
  }

  // ---------------------------------------------------------------------------
  // Interaction invariant

  /** What the flags promise about each other in every reachable state: a
      non-empty quantity was typed, and a click on buy implies typing started
      (an empty submit starts it itself). */
  predicate Consistent(st: FormState) {
    && (st.values.quantity != "" ==> st.hasStartedTyping)
    && (st.hasClickedBuy ==> st.hasStartedTyping)
  }

  lemma StepKeepsConsistent(st: FormState, ev: Event, parse: Parser)
    requires Consistent(st)
    ensures Consistent(Step(st, ev, parse).state)
  {
  }

  lemma {:induction false} RunKeepsConsistent(st: FormState, evs: seq<Event>, parse: Parser)
    requires Consistent(st)
    ensures Consistent(Run(st, evs, parse).state)
    decreases |evs|
  {
    if |evs| > 0 {
      StepKeepsConsistent(st, evs[0], parse);
      RunKeepsConsistent(Step(st, evs[0], parse).state, evs[1..], parse);
    }
  }

  /** Every state reached from the initial form is consistent. */
  lemma ReachableConsistent(evs: seq<Event>, parse: Parser)
    ensures Consistent(Run(Initial, evs, parse).state)
  {
    RunKeepsConsistent(Initial, evs, parse);
  }

  /** In a consistent state the touched effect makes feedback live: the error
      label shows exactly when the quantity has an error. */
  lemma SyncMakesFeedbackLive(st: FormState, parse: Parser)
    requires Consistent(st)
    ensures ErrorLabelShown(SyncTouched(st), parse) <==> QuantityError(st.values.quantity, parse).Some?
  {
  }

  /** A blur with no error takes the label off; focusing again puts the mark
      back, so an error that appears later shows. */
  lemma BlurThenFocus(st: FormState, parse: Parser)
    requires QuantityError(st.values.quantity, parse).None?
    ensures !ErrorLabelShown(OnQuantityBlur(st, parse), parse)
    ensures OnQuantityFocus(OnQuantityBlur(st, parse)).touchedQuantity
    ensures OnQuantityFocus(OnQuantityBlur(st, parse)).hasLostFocus
  {
  }

  // ---------------------------------------------------------------------------
  // Flags

  /** The typing, buy-click and lost-focus flags never go back to false except
      through the reset that follows a sent order. */
  lemma FlagsFallOnlyOnSend(st: FormState, ev: Event, parse: Parser)
    ensures var t := Step(st, ev, parse);
      |t.sent| == 0 ==>
        && (st.hasStartedTyping ==> t.state.hasStartedTyping)
        && (st.hasClickedBuy ==> t.state.hasClickedBuy)
        && (st.hasLostFocus ==> t.state.hasLostFocus)
  {
  }

  /** Over any run that sends nothing, a started typing flag stays started. */
  lemma {:induction false} TypingStaysWithoutSend(st: FormState, evs: seq<Event>, parse: Parser)
    requires st.hasStartedTyping
    requires Run(st, evs, parse).sent == []
    ensures Run(st, evs, parse).state.hasStartedTyping
    decreases |evs|
  {
    if |evs| > 0 {
      var first := Step(st, evs[0], parse);
      FlagsFallOnlyOnSend(st, evs[0], parse);
      assert first.sent == [];
      TypingStaysWithoutSend(first.state, evs[1..], parse);
    }
  }

  // ---------------------------------------------------------------------------
  // Runs

  /** A run without submit events sends nothing. */
  lemma {:induction false} NoSubmitNoOrders(st: FormState, evs: seq<Event>, parse: Parser)
    requires forall i :: 0 <= i < |evs| ==> evs[i] != Submit
    ensures Run(st, evs, parse).sent == []
    decreases |evs|
  {
    if |evs| > 0 {
      NoSubmitNoOrders(Step(st, evs[0], parse).state, evs[1..], parse);
    }
  }

  // ---------------------------------------------------------------------------
  // Examples

  /** A new symbols list replaces an existing choice with its first entry. */
  lemma SymbolsOverrideChoice()
    ensures OnSymbolsArrived(Initial.(values := Values("ETHUSD", "")), ["BTCUSD", "ETHUSD"]).values.selectedSymbol == "BTCUSD"
  {
  }

  /** Submitting 0.5 BTCUSD sends that order and leaves the form pristine. */
  lemma SubmitExample(parse: Parser)
    requires parse("0.5") == Some(0.5)
    ensures OnSubmit(FormState(Values("BTCUSD", "0.5"), true, true, false, true), parse)
      == Transition(Initial, [Order("BTCUSD", 0.5)])
  {
  }
}
