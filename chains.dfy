/** The chain tables of the wallet configuration (src/config/wagmi.ts). */
module Chains {
  import opened Wrappers
  import Decimal

  /** An EIP-155 chain id. */
  type ChainId = nat

  /** A `chainMeta` entry. */
  datatype Meta = Meta(name: string, icon: string, color: string)

  /** `chainMeta`: display metadata for the thirteen supported chains. */
  const ChainMeta: map<ChainId, Meta> := map[
    1 := Meta("Ethereum", "/chains/ethereum.svg", "#627EEA"),
    11155111 := Meta("Sepolia", "/chains/ethereum.svg", "#627EEA"),
    8453 := Meta("Base", "/chains/base.svg", "#0052FF"),
    84532 := Meta("Base Sepolia", "/chains/base.svg", "#0052FF"),
    10 := Meta("Optimism", "/chains/optimism.svg", "#FF0420"),
    11155420 := Meta("OP Sepolia", "/chains/optimism.svg", "#FF0420"),
    42161 := Meta("Arbitrum", "/chains/arbitrum.svg", "#12AAFF"),
    421614 := Meta("Arbitrum Sepolia", "/chains/arbitrum.svg", "#12AAFF"),
    137 := Meta("Polygon", "/chains/polygon.svg", "#8247E5"),
    80002 := Meta("Polygon Amoy", "/chains/polygon.svg", "#8247E5"),
    56 := Meta("BNB Chain", "/chains/bnb.svg", "#F0B90B"),
    97 := Meta("BSC Testnet", "/chains/bnb.svg", "#F0B90B"),
    100 := Meta("Gnosis", "/chains/gnosis.svg", "#04795B")
  ]

  /** `testnetChainIds`, in the order the balance list shows them. */
  const TestnetChainIds: seq<ChainId> := [11155111, 84532, 11155420, 421614, 80002, 97]

  /** The ids of `supportedChains`, in their declared order. */
  const SupportedChainIds: seq<ChainId> :=
    [1, 8453, 10, 42161, 137, 56, 100, 11155111, 84532, 11155420, 421614, 80002, 97]

  /** `chainMeta[id]`, or nothing for an id without metadata. */
  function MetaOf(id: ChainId): (r: Option<Meta>)
    ensures r.Some? <==> id in ChainMeta
    ensures r.Some? ==> r.value == ChainMeta[id]
  {
    if id in ChainMeta then Some(ChainMeta[id]) else None
  }

  /** A row's name: the metadata name, or `Chain <id>` for an unknown chain. */
  function RowName(id: ChainId): (r: string)
    ensures id in ChainMeta ==> r == ChainMeta[id].name
    ensures id !in ChainMeta ==> r == "Chain " + Decimal.Show(id)
  {
    if id in ChainMeta then ChainMeta[id].name else "Chain " + Decimal.Show(id)
  }

  /** Every testnet shown in the balance list is a supported chain with metadata. */
  lemma TestnetsAreSupported()
    ensures forall id :: id in TestnetChainIds ==> id in ChainMeta && id in SupportedChainIds
  {
  }
}
