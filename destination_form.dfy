/**
 * The destination form (src/components/sweep/destination-form.tsx): a chain
 * picker and an address field whose value reaches the parent only when it
 * is empty or a well-formed address. `isAddress` (viem) is a parameter.
 */
module DestinationForm {
  import opened Wrappers
  import Chains

  /** `isValidAddress`: the empty field, or text `isAddress` accepts. */
  predicate IsValidAddress(input: string, isAddress: string -> bool)
  {
    input == "" || isAddress(input)
  }

  /** `Array.prototype.filter`: the elements `keep` accepts, in order. */
  function Filter<T>(xs: seq<T>, keep: T -> bool): (ys: seq<T>)
    ensures |ys| <= |xs|
    ensures forall y :: y in ys ==> y in xs && keep(y)
  {
    if xs == [] then [] else (if keep(xs[0]) then [xs[0]] else []) + Filter(xs[1..], keep)
  }

  /** A filter that accepts everything returns its input. */
  lemma {:induction false} FilterKeepsAll<T>(xs: seq<T>, keep: T -> bool)
    requires forall x :: x in xs ==> keep(x)
    ensures Filter(xs, keep) == xs
  {
    if xs != [] {
      assert forall x :: x in xs[1..] ==> x in xs;
      FilterKeepsAll(xs[1..], keep);
      assert [xs[0]] + xs[1..] == xs;
    }
  }

  /** `destinationChains`: the supported chains the (accept-all) filter keeps. */
  function DestinationChains(): seq<Chains.ChainId>
  {
    Filter(Chains.SupportedChainIds, (id: Chains.ChainId) => true)
  }

  /** The destination list is exactly the supported chains, in order. */
  lemma DestinationChainsAreSupported()
    ensures DestinationChains() == Chains.SupportedChainIds
  {
    FilterKeepsAll(Chains.SupportedChainIds, (id: Chains.ChainId) => true);
  }

  /** How the chosen chain is shown: its metadata, or `Unknown` in grey. */
  function ChainLook(chainId: Chains.ChainId): (look: (string, string))
    ensures chainId in Chains.ChainMeta ==> look == (Chains.ChainMeta[chainId].name, Chains.ChainMeta[chainId].color)
    ensures chainId !in Chains.ChainMeta ==> look == ("Unknown", "#888")
  {
    if chainId in Chains.ChainMeta then (Chains.ChainMeta[chainId].name, Chains.ChainMeta[chainId].color)
    else ("Unknown", "#888")
  }

  class Form {
    var addressInput: string
    var isChainDropdownOpen: bool

    constructor ()
      ensures addressInput == "" && !isChainDropdownOpen
    {
      addressInput := "";
      isChainDropdownOpen := false;
    }

    /** The "Invalid address format" hint and red border. */
    predicate ShowsAddressError(isAddress: string -> bool)
      reads this
    {
      !IsValidAddress(addressInput, isAddress)
    }

    /**
     * `handleAddressChange`: the field always takes the typed value; the
     * parent hears of it only when it is empty or an address, so an invalid
     * value never propagates, and the error hint shows exactly then.
     */
    method HandleAddressChange(value: string, isAddress: string -> bool) returns (forwarded: Option<string>)
      modifies this
      ensures addressInput == value && isChainDropdownOpen == old(isChainDropdownOpen)
      ensures forwarded.Some? <==> IsValidAddress(value, isAddress)
      ensures forwarded.Some? ==> forwarded.value == value && (value == "" || isAddress(value))
      ensures ShowsAddressError(isAddress) <==> forwarded.None?
    {
      addressInput := value;
      if value == "" || isAddress(value) {
        forwarded := Some(value);
      } else {
        forwarded := None;
      }
    }

    /** The chain-selector button. */
    method ToggleDropdown()
      modifies this
      ensures isChainDropdownOpen == !old(isChainDropdownOpen) && addressInput == old(addressInput)
    {
      isChainDropdownOpen := !isChainDropdownOpen;
    }

    /** A click on a chain row: `onChainChange(chain.id)`, then the dropdown closes. */
    method PickChain(chainId: Chains.ChainId) returns (reported: Chains.ChainId)
      modifies this
      ensures reported == chainId && !isChainDropdownOpen && addressInput == old(addressInput)
    {
      reported := chainId;
      isChainDropdownOpen := false;
    }
  }
}
