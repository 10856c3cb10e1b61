/** Properties of symbol selection that relate the select handler and the
    resolution effect, and the concrete behaviours they commit to. */
module SymbolSelectionProperties {

  import opened Wrappers
  import opened SymbolSelection

  /** Running the effect a second time with the same symbol and data changes
      nothing more. */
  lemma EffectIdempotent(st: Selection, positions: Option<seq<Position>>, lbs: Option<seq<LeverageBracket>>)
    requires EffectDefined(st, positions, lbs)
    ensures EffectDefined(ResolveEffect(st, positions, lbs), positions, lbs)
    ensures ResolveEffect(ResolveEffect(st, positions, lbs), positions, lbs) == ResolveEffect(st, positions, lbs)
  {
  }

  /** With both collections present, the effect that follows a select over
      the same reference data finds nothing left to change. */
  lemma EffectAfterSelectIsSettled(st: Selection, sym: string, positions: seq<Position>, lbs: seq<LeverageBracket>)
    requires FirstTierPresent(lbs, sym)
    ensures EffectDefined(HandleSelect(st, sym, Some(positions), Some(lbs)), Some(positions), Some(lbs))
    ensures ResolveEffect(HandleSelect(st, sym, Some(positions), Some(lbs)), Some(positions), Some(lbs))
      == HandleSelect(st, sym, Some(positions), Some(lbs))
  {
  }

  /** With positions present but brackets absent, the select resolves nothing,
      and the effect that follows fills in the position leverage it skipped. */
  lemma EffectCompletesSelectWithoutBrackets(st: Selection, sym: string, positions: seq<Position>, p: Position)
    requires sym != ""
    requires IsFirst(positions, PositionSymbol, sym, p)
    ensures HandleSelect(st, sym, Some(positions), None).positionLeverage == st.positionLeverage
    ensures ResolveEffect(HandleSelect(st, sym, Some(positions), None), Some(positions), None).positionLeverage == Some(p.leverage)
    ensures ResolveEffect(HandleSelect(st, sym, Some(positions), None), Some(positions), None).initialLeverage == st.initialLeverage
  {
  }

  /** Selecting is idempotent too: the same symbol over the same data a second
      time leaves the selection as the first select did. */
  lemma SelectIdempotent(st: Selection, sym: string, positions: Option<seq<Position>>, lbs: Option<seq<LeverageBracket>>)
    requires positions.Some? && lbs.Some? ==> FirstTierPresent(lbs.value, sym)
    ensures HandleSelect(HandleSelect(st, sym, positions, lbs), sym, positions, lbs) == HandleSelect(st, sym, positions, lbs)
  {
  }

  /** The first match wins: when positions `i` and `j > i` are both on the
      symbol and none before `i` is, the select takes `i`'s leverage. */
  lemma FirstPositionWins(st: Selection, sym: string, ps: seq<Position>, lbs: seq<LeverageBracket>, i: nat, j: nat)
    requires i < j < |ps|
    requires ps[i].symbol == sym && ps[j].symbol == sym
    requires forall k :: 0 <= k < i ==> ps[k].symbol != sym
    requires FirstTierPresent(lbs, sym)
    ensures HandleSelect(st, sym, Some(ps), Some(lbs)).positionLeverage == Some(ps[i].leverage)
  {
    assert IsFirst(ps, PositionSymbol, sym, ps[i]);
  }

  /** The initial leverage is taken from the first tier, not the least or the
      greatest one. */
  lemma FirstTierWins()
    ensures var r := HandleSelect(Selection(None, None, None, None, None), "BTCUSD",
                                  Some([Position("BTCUSD", 10)]),
                                  Some([LeverageBracket("BTCUSD", [Tier(20), Tier(10)])]));
      r.positionLeverage == Some(10) && r.initialLeverage == Some(20)
  {
    var ps := [Position("BTCUSD", 10)];
    var lbs := [LeverageBracket("BTCUSD", [Tier(20), Tier(10)])];
    assert IsFirst(ps, PositionSymbol, "BTCUSD", ps[0]);
    assert IsFirst(lbs, BracketSymbol, "BTCUSD", lbs[0]);
  }

  /** Selecting a symbol with no position and no bracket keeps the leverage
      resolved for the previous symbol. */
  lemma NoMatchKeepsPrevious(st: Selection, sym: string, positions: seq<Position>, lbs: seq<LeverageBracket>)
    requires forall i :: 0 <= i < |positions| ==> positions[i].symbol != sym
    requires forall i :: 0 <= i < |lbs| ==> lbs[i].symbol != sym
    ensures HandleSelect(st, sym, Some(positions), Some(lbs)).positionLeverage == st.positionLeverage
    ensures HandleSelect(st, sym, Some(positions), Some(lbs)).initialLeverage == st.initialLeverage
    ensures HandleSelect(st, sym, Some(positions), Some(lbs)).selectedSymbol == Some(sym)
  {
  }

  /** BTCUSD then XRPUSD: XRPUSD has no data, so BTCUSD's leverages remain. */
  lemma StaleLeverageExample()
    ensures var ps := [Position("BTCUSD", 10)];
      var lbs := [LeverageBracket("BTCUSD", [Tier(20)])];
      var first := HandleSelect(Selection(None, None, None, None, None), "BTCUSD", Some(ps), Some(lbs));
      var second := HandleSelect(first, "XRPUSD", Some(ps), Some(lbs));
      second.selectedSymbol == Some("XRPUSD") && second.positionLeverage == Some(10) && second.initialLeverage == Some(20)
  {
    var ps := [Position("BTCUSD", 10)];
    var lbs := [LeverageBracket("BTCUSD", [Tier(20)])];
    assert IsFirst(ps, PositionSymbol, "BTCUSD", ps[0]);
    assert IsFirst(lbs, BracketSymbol, "BTCUSD", lbs[0]);
    assert !Has(ps, PositionSymbol, "XRPUSD");
  }

  /** Without a position on the symbol, the effect leaves the bracket leverage
      alone even when a bracket matches; the select handler does not. */
  lemma EffectNeedsPosition()
    ensures var st := Selection(Some("ETHUSD"), None, None, None, None);
      var ps := [Position("BTCUSD", 10)];
      var lbs := [LeverageBracket("ETHUSD", [Tier(25)])];
      ResolveEffect(st, Some(ps), Some(lbs)).initialLeverage == None
      && HandleSelect(st, "ETHUSD", Some(ps), Some(lbs)).initialLeverage == Some(25)
  {
    var ps := [Position("BTCUSD", 10)];
    var lbs := [LeverageBracket("ETHUSD", [Tier(25)])];
    assert !Has(ps, PositionSymbol, "ETHUSD");
    assert IsFirst(lbs, BracketSymbol, "ETHUSD", lbs[0]);
  }
}
