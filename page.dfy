/**
 * The sweep page (src/app/app/page.tsx): the destination it falls back to,
 * when the sweep button is disabled, and which parts it renders.
 */
module AppPage {
  import opened Wrappers
  import Chains
  import SweepButton

  /** `destinationAddress || address || ''`. */
  function EffectiveDestination(destinationAddress: string, address: Option<string>): (d: string)
    ensures destinationAddress != "" ==> d == destinationAddress
    ensures destinationAddress == "" && address.Some? ==> d == address.value
    ensures destinationAddress == "" && address.None? ==> d == ""
  {
    if destinationAddress != "" then destinationAddress
    else if address.Some? && address.value != "" then address.value
    else ""
  }

  /** The `disabled` prop of the sweep button. */
  predicate SweepDisabled(selectedChain: Option<Chains.ChainId>, effectiveDestination: string)
  {
    selectedChain.None? || effectiveDestination == ""
  }

  /** What the page renders. */
  datatype Screen =
    | ConnectScreen
    | Workspace(showFeeBreakdown: bool, sweepDisabled: bool, destination: string)

  function Render(isConnected: bool, address: Option<string>, selectedChain: Option<Chains.ChainId>,
                  destinationAddress: string): (s: Screen)
    ensures !isConnected <==> s.ConnectScreen?
  {
    if !isConnected then ConnectScreen
    else
      var destination := EffectiveDestination(destinationAddress, address);
      Workspace(selectedChain.Some?, SweepDisabled(selectedChain, destination), destination)
  }

  /**
   * The destination is the typed one, else the connected address, and it
   * is empty only when both are.
   */
  lemma DestinationFallback(destinationAddress: string, address: Option<string>)
    ensures EffectiveDestination(destinationAddress, address) == "" <==>
      destinationAddress == "" && (address.None? || address.value == "")
    ensures EffectiveDestination(destinationAddress, address) in
      {destinationAddress} + (if address.Some? then {address.value} else {}) + {""}
  {
  }

  /**
   * Once connected, the fee breakdown shows exactly when a chain is
   * selected, and the sweep button is disabled exactly when no chain is
   * selected or neither a typed destination nor a connected address exists.
   */
  lemma WorkspaceGates(address: Option<string>, selectedChain: Option<Chains.ChainId>, destinationAddress: string)
    ensures var s := Render(true, address, selectedChain, destinationAddress);
      && s.Workspace?
      && (s.showFeeBreakdown <==> selectedChain.Some?)
      && (s.sweepDisabled <==>
            selectedChain.None? || (destinationAddress == "" && (address.None? || address.value == "")))
      && s.destination == EffectiveDestination(destinationAddress, address)
  {
    DestinationFallback(destinationAddress, address);
  }

  /**
   * The page's enabling rule and the button's own guard agree, except for
   * chain id 0: the page tests `=== null`, the button a falsy id.
   */
  lemma PageAndButtonAgree(address: Option<string>, selectedChain: Option<Chains.ChainId>, destinationAddress: string)
    ensures var s := Render(true, address, selectedChain, destinationAddress);
      && (s.sweepDisabled ==> !SweepButton.CanStart(s.sweepDisabled, selectedChain))
      && (!s.sweepDisabled ==>
            (SweepButton.CanStart(s.sweepDisabled, selectedChain) <==> selectedChain != Some(0)))
  {
  }
}
