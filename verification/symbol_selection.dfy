/** Symbol selection: recording the chosen symbol and resolving, from the
    reference data, the leverage of the open position on it and the initial
    leverage of its first leverage bracket. Reference data that has not
    arrived is `None`; lookups are first-match by exact symbol equality. */
module SymbolSelection {

  import opened Wrappers

  datatype Position = Position(symbol: string, leverage: int)

  /** One tier of a leverage bracket. */
  datatype Tier = Tier(initialLeverage: int)

  datatype LeverageBracket = LeverageBracket(symbol: string, brackets: seq<Tier>)

  /** The state the selection writes: the selected symbol (null until one is
      chosen), the two leverage selections (unset until first resolved), the
      form field "symbol" and the symbol last written to durable storage. */
  datatype Selection = Selection(
    selectedSymbol: Option<string>,
    positionLeverage: Option<int>,
    initialLeverage: Option<int>,
    formSymbol: Option<string>,
    storedSymbol: Option<string>)

  function PositionSymbol(p: Position): string { p.symbol }

  function BracketSymbol(b: LeverageBracket): string { b.symbol }

  /** `x` is the first element of `xs` whose key is `sym`. */
  predicate IsFirst<T(==)>(xs: seq<T>, key: T -> string, sym: string, x: T) {
    exists i :: 0 <= i < |xs| && xs[i] == x && key(x) == sym && forall j :: 0 <= j < i ==> key(xs[j]) != sym
  }

  /** Some element of `xs` has the key `sym`. */
  predicate Has<T>(xs: seq<T>, key: T -> string, sym: string) {
    exists i :: 0 <= i < |xs| && key(xs[i]) == sym
  }

  /** Index of the first element whose key equals `sym`, if any. */
  function FindFirst<T>(xs: seq<T>, key: T -> string, sym: string): (r: Option<nat>)
    ensures r.Some? ==> r.value < |xs| && key(xs[r.value]) == sym
    ensures r.Some? ==> forall j :: 0 <= j < r.value ==> key(xs[j]) != sym
    ensures r.None? <==> forall j :: 0 <= j < |xs| ==> key(xs[j]) != sym
  {
    if |xs| == 0 then None
    else if key(xs[0]) == sym then Some(0)
    else match FindFirst(xs[1..], key, sym)
      case None => None
      case Some(i) => Some(i + 1)
  }

  /** The element `find` returns: the first one whose key is `sym`, if any. */
  function First<T(==,!new)>(xs: seq<T>, key: T -> string, sym: string): (r: Option<T>)
    ensures forall x :: IsFirst(xs, key, sym, x) ==> r == Some(x)
    ensures r.Some? ==> IsFirst(xs, key, sym, r.value)
    ensures r.None? <==> !Has(xs, key, sym)
  {
    match FindFirst(xs, key, sym)
    case None => None
    case Some(i) =>
      assert IsFirst(xs, key, sym, xs[i]);
      assert forall x :: IsFirst(xs, key, sym, x) ==> x == xs[i];
      Some(xs[i])
  }

  /** Reading `brackets[0]` of the first bracket on `sym` is defined: there is
      no such bracket, or it has a tier. */
  predicate FirstTierPresent(lbs: seq<LeverageBracket>, sym: string) {
    var b := First(lbs, BracketSymbol, sym);
    b.None? || |b.value.brackets| > 0
  }

  /** The leverage of the first position on `sym`, or `current` when there is
      none. */
  function PositionLeverage(ps: seq<Position>, sym: string, current: Option<int>): (r: Option<int>)
    ensures forall p :: IsFirst(ps, PositionSymbol, sym, p) ==> r == Some(p.leverage)
    ensures !Has(ps, PositionSymbol, sym) ==> r == current
  {
    match First(ps, PositionSymbol, sym)
    case None => current
    case Some(p) => Some(p.leverage)
  }

  /** The initial leverage of the first tier of the first bracket on `sym`, or
      `current` when there is no bracket. */
  function BracketLeverage(lbs: seq<LeverageBracket>, sym: string, current: Option<int>): (r: Option<int>)
    requires FirstTierPresent(lbs, sym)
    ensures forall b :: IsFirst(lbs, BracketSymbol, sym, b) ==> r == Some(b.brackets[0].initialLeverage)
    ensures !Has(lbs, BracketSymbol, sym) ==> r == current
  {
    match First(lbs, BracketSymbol, sym)
    case None => current
    case Some(b) => Some(b.brackets[0].initialLeverage)
  }

  /** The select handler: writes the symbol to storage, to the selection and to
      the form field "symbol"; then, only when both reference collections are
      present, resolves each leverage from its own collection independently.
      A collection with no match leaves its leverage as it was. */
  function HandleSelect(st: Selection, sym: string, positions: Option<seq<Position>>,
                        lbs: Option<seq<LeverageBracket>>): (r: Selection)
    requires positions.Some? && lbs.Some? ==> FirstTierPresent(lbs.value, sym)
    ensures r.selectedSymbol == Some(sym) && r.formSymbol == Some(sym) && r.storedSymbol == Some(sym)
    ensures positions.None? || lbs.None? ==> r.positionLeverage == st.positionLeverage && r.initialLeverage == st.initialLeverage
    ensures positions.Some? && lbs.Some? ==>
      && (forall p :: IsFirst(positions.value, PositionSymbol, sym, p) ==> r.positionLeverage == Some(p.leverage))
      && (!Has(positions.value, PositionSymbol, sym) ==> r.positionLeverage == st.positionLeverage)
      && (forall b :: IsFirst(lbs.value, BracketSymbol, sym, b) ==> r.initialLeverage == Some(b.brackets[0].initialLeverage))
      && (!Has(lbs.value, BracketSymbol, sym) ==> r.initialLeverage == st.initialLeverage)
  {
    var recorded := st.(selectedSymbol := Some(sym), formSymbol := Some(sym), storedSymbol := Some(sym));
    if positions.Some? && lbs.Some? then
      recorded.(positionLeverage := PositionLeverage(positions.value, sym, st.positionLeverage),
                initialLeverage := BracketLeverage(lbs.value, sym, st.initialLeverage))
    else
      recorded
  }

  /** The effect's guard: a non-empty symbol is selected and the positions are
      present and non-empty. */
  predicate EffectApplies(st: Selection, positions: Option<seq<Position>>) {
    st.selectedSymbol.Some? && st.selectedSymbol.value != "" && positions.Some? && |positions.value| > 0
  }

  /** The effect reads `brackets[0]` only when it applies, a position on the
      symbol exists and a bracket collection is present; that read must be
      defined. */
  predicate EffectDefined(st: Selection, positions: Option<seq<Position>>, lbs: Option<seq<LeverageBracket>>) {
    (EffectApplies(st, positions) && Has(positions.value, PositionSymbol, st.selectedSymbol.value) && lbs.Some?) ==>
      FirstTierPresent(lbs.value, st.selectedSymbol.value)
  }

  /** The effect run when the selected symbol or the reference data change: it
      resolves the current symbol again without touching the selection, and
      resolves the bracket only after a position was found. */
  function ResolveEffect(st: Selection, positions: Option<seq<Position>>,
                         lbs: Option<seq<LeverageBracket>>): (r: Selection)
    requires EffectDefined(st, positions, lbs)
    ensures r.selectedSymbol == st.selectedSymbol && r.formSymbol == st.formSymbol && r.storedSymbol == st.storedSymbol
    ensures !EffectApplies(st, positions) ==> r == st
    ensures EffectApplies(st, positions) && !Has(positions.value, PositionSymbol, st.selectedSymbol.value) ==> r == st
    ensures EffectApplies(st, positions) ==>
      forall p :: IsFirst(positions.value, PositionSymbol, st.selectedSymbol.value, p) ==> r.positionLeverage == Some(p.leverage)
    ensures EffectApplies(st, positions) && Has(positions.value, PositionSymbol, st.selectedSymbol.value) && lbs.Some? ==>
      && (forall b :: IsFirst(lbs.value, BracketSymbol, st.selectedSymbol.value, b) ==> r.initialLeverage == Some(b.brackets[0].initialLeverage))
      && (!Has(lbs.value, BracketSymbol, st.selectedSymbol.value) ==> r.initialLeverage == st.initialLeverage)
    ensures lbs.None? ==> r.initialLeverage == st.initialLeverage
  {
    if EffectApplies(st, positions) then
      var sym := st.selectedSymbol.value;
      match First(positions.value, PositionSymbol, sym)
      case None => st
      case Some(p) =>
        var withPosition := st.(positionLeverage := PositionLeverage(positions.value, sym, st.positionLeverage));
        if lbs.Some? then
          withPosition.(initialLeverage := BracketLeverage(lbs.value, sym, st.initialLeverage))
        else
          withPosition
    else
      st
  }
}
