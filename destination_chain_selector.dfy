/**
 * The destination-chain dropdown
 * (src/components/sweep/destination-chain-selector.tsx). A selection of
 * `null` means "the source chain"; choosing the source chain is stored as
 * `null`, so the same destination has one representation.
 */
module DestinationChainSelector {
  import opened Wrappers
  import Chains

  /** `selectedChain ?? sourceChain`. */
  function EffectiveChain(source: Chains.ChainId, selected: Option<Chains.ChainId>): (c: Chains.ChainId)
    ensures selected.None? ==> c == source
    ensures selected.Some? ==> c == selected.value
  {
    if selected.Some? then selected.value else source
  }

  /** `isCrossChain`: a selection other than the source chain. */
  predicate IsCrossChain(source: Chains.ChainId, selected: Option<Chains.ChainId>)
  {
    selected.Some? && selected.value != source
  }

  /** The value `handleSelect` reports for a clicked chain. */
  function Choice(source: Chains.ChainId, chainId: Chains.ChainId): (r: Option<Chains.ChainId>)
    ensures r.None? <==> chainId == source
    ensures r.Some? ==> r.value == chainId
  {
    if chainId == source then None else Some(chainId)
  }

  /** The trigger's title: the effective chain's name, or `Unknown`. */
  function TriggerName(source: Chains.ChainId, selected: Option<Chains.ChainId>): (name: string)
    ensures var c := EffectiveChain(source, selected);
      && (c in Chains.ChainMeta && Chains.ChainMeta[c].name != "" ==> name == Chains.ChainMeta[c].name)
      && (c !in Chains.ChainMeta || Chains.ChainMeta[c].name == "" ==> name == "Unknown")
  {
    var c := EffectiveChain(source, selected);
    if c in Chains.ChainMeta && Chains.ChainMeta[c].name != "" then Chains.ChainMeta[c].name else "Unknown"
  }

  /** What one row of the dropdown shows. */
  datatype Row = Row(chainId: Chains.ChainId, name: string, isSelected: bool, isSameAsSource: bool)

  /** The dropdown rows, one per available chain, in order. */
  function Rows(source: Chains.ChainId, selected: Option<Chains.ChainId>, available: seq<Chains.ChainId>): (rows: seq<Row>)
    ensures |rows| == |available|
  {
    seq(|available|, i requires 0 <= i < |available| =>
      Row(available[i], Chains.RowName(available[i]),
          EffectiveChain(source, selected) == available[i], available[i] == source))
  }

  class Selector {
    var isOpen: bool

    constructor ()
      ensures !isOpen
    {
      isOpen := false;
    }

    /** `handleSelect`: reports the normalised choice and closes the dropdown. */
    method HandleSelect(source: Chains.ChainId, chainId: Chains.ChainId) returns (reported: Option<Chains.ChainId>)
      modifies this
      ensures reported == Choice(source, chainId) && !isOpen
    {
      reported := if chainId == source then None else Some(chainId);
      isOpen := false;
    }

    /** The trigger button. */
    method Toggle()
      modifies this
      ensures isOpen == !old(isOpen)
    {
      isOpen := !isOpen;
    }

    /** A `mousedown` anywhere: one outside the dropdown closes it. */
    method MouseDown(inside: bool)
      modifies this
      ensures isOpen == (old(isOpen) && inside)
    {
      if !inside {
        isOpen := false;
      }
    }
  }

  /** Whatever chain is clicked, it becomes the effective destination. */
  lemma ChoiceRoundTrip(source: Chains.ChainId, chainId: Chains.ChainId)
    ensures EffectiveChain(source, Choice(source, chainId)) == chainId
  {
  }

  /**
   * A sweep is cross-chain exactly when the effective chain differs from
   * the source; for a selection made by `handleSelect` that is the same as
   * the selection being non-null.
   */
  lemma CrossChainMeansElsewhere(source: Chains.ChainId, selected: Option<Chains.ChainId>, chainId: Chains.ChainId)
    ensures IsCrossChain(source, selected) <==> EffectiveChain(source, selected) != source
    ensures IsCrossChain(source, Choice(source, chainId)) <==> Choice(source, chainId).Some?
  {
  }

  /**
   * Exactly the rows of the effective chain are marked selected, exactly
   * the source rows say "Same chain", and in a list without repeats at most
   * one row is selected.
   */
  lemma RowFlags(source: Chains.ChainId, selected: Option<Chains.ChainId>, available: seq<Chains.ChainId>)
    ensures var rows := Rows(source, selected, available);
      && (forall i :: 0 <= i < |rows| ==> rows[i].chainId == available[i])
      && (forall i :: 0 <= i < |rows| ==> (rows[i].isSelected <==> available[i] == EffectiveChain(source, selected)))
      && (forall i :: 0 <= i < |rows| ==> (rows[i].isSameAsSource <==> available[i] == source))
      && (selected.None? ==> forall i :: 0 <= i < |rows| ==> rows[i].isSelected == rows[i].isSameAsSource)
      && ((forall a, b :: 0 <= a < b < |available| ==> available[a] != available[b]) ==>
            forall i, j :: 0 <= i < |rows| && 0 <= j < |rows| && rows[i].isSelected && rows[j].isSelected ==> i == j)
  {
  }
}
