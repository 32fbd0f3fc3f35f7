/**
 * The testnet balance list (src/components/sweep/balance-list.tsx): the
 * per-chain balances fetched for the connected address, the toggle that
 * selects a chain, and the flags the list renders from.
 *
 * `fetchBalances` is split at its `await`: `BeginFetch` is the code that
 * runs before it, `FinishFetch` the code after `Promise.all` resolves. The
 * outcome of each chain's `getBalance` is an input.
 */
module BalanceList {
  import opened Wrappers
  import Chains

  /** A `ChainBalance` row; balances are wei amounts (`bigint`, never negative). */
  datatype ChainBalance = ChainBalance(chainId: Chains.ChainId, balance: nat, isLoading: bool, error: Option<string>)

  /** What one chain's `getBalance` call does. */
  datatype BalanceFetch = Fetched(wei: nat) | FetchFailed

  type Fetcher = Chains.ChainId -> BalanceFetch

  const FetchErrorText: string := "Failed to fetch"

  /** No chain id occurs twice. */
  predicate Distinct(chains: seq<Chains.ChainId>)
  {
    forall a, b :: 0 <= a < b < |chains| ==> chains[a] != chains[b]
  }

  /** The row each chain shows while its balance is being fetched. */
  function Placeholders(chains: seq<Chains.ChainId>): (rows: seq<ChainBalance>)
    ensures |rows| == |chains|
    ensures forall i :: 0 <= i < |rows| ==> rows[i] == ChainBalance(chains[i], 0, true, None)
  {
    if chains == [] then [] else [ChainBalance(chains[0], 0, true, None)] + Placeholders(chains[1..])
  }

  /** The row a finished fetch yields: the balance, or 0 with the fixed error. */
  function Entry(chainId: Chains.ChainId, outcome: BalanceFetch): (row: ChainBalance)
    ensures row.chainId == chainId && !row.isLoading
    ensures outcome.Fetched? ==> row.balance == outcome.wei && row.error == None
    ensures outcome.FetchFailed? ==> row.balance == 0 && row.error == Some(FetchErrorText)
  {
    match outcome
    case Fetched(wei) => ChainBalance(chainId, wei, false, None)
    case FetchFailed => ChainBalance(chainId, 0, false, Some(FetchErrorText))
  }

  /** The results of `Promise.all`, in the order the chains were listed. */
  function Collect(chains: seq<Chains.ChainId>, fetch: Fetcher): (rows: seq<ChainBalance>)
    ensures |rows| == |chains|
    ensures forall i :: 0 <= i < |rows| ==> rows[i] == Entry(chains[i], fetch(chains[i]))
  {
    if chains == [] then [] else [Entry(chains[0], fetch(chains[0]))] + Collect(chains[1..], fetch)
  }

  /** The index `balances.find(b => b.chainId === chainId)` stops at. */
  function Find(balances: seq<ChainBalance>, chainId: Chains.ChainId): (k: Option<nat>)
    ensures k.None? ==> forall j :: 0 <= j < |balances| ==> balances[j].chainId != chainId
    ensures k.Some? ==> k.value < |balances| && balances[k.value].chainId == chainId
    ensures k.Some? ==> forall j :: 0 <= j < k.value ==> balances[j].chainId != chainId
  {
    if balances == [] then None
    else if balances[0].chainId == chainId then Some(0)
    else match Find(balances[1..], chainId)
      case None => None
      case Some(k) => Some(k + 1)
  }

  /** `find(...)?.balance || 0n` for a chain that may be absent (`null` matches no row). */
  function BalanceOf(balances: seq<ChainBalance>, chainId: Option<Chains.ChainId>): (r: nat)
    ensures chainId.None? ==> r == 0
    ensures r > 0 ==> chainId.Some?
    ensures r > 0 ==> exists j :: 0 <= j < |balances| && balances[j].chainId == chainId.value && balances[j].balance == r
  {
    if chainId.None? then 0
    else match Find(balances, chainId.value)
      case Some(k) => balances[k].balance
      case None => 0
  }

  /** `isLoading`: some row is still loading. */
  predicate AnyLoading(balances: seq<ChainBalance>)
  {
    exists i :: 0 <= i < |balances| && balances[i].isLoading
  }

  /** The "No balances found" message: nothing loading and every balance 0. */
  predicate ShowsNoBalances(balances: seq<ChainBalance>)
  {
    !AnyLoading(balances) && forall i :: 0 <= i < |balances| ==> balances[i].balance == 0
  }

  /** A row reacts to a click (and is not `disabled`) only with a positive, loaded balance. */
  predicate RowClickable(row: ChainBalance)
  {
    row.balance > 0 && !row.isLoading
  }

  /** `useAccount().address` as a condition: absent and empty are both false. */
  predicate Connected(address: Option<string>)
  {
    address.Some? && address.value != ""
  }

  /** What the row shows on the right: a spinner, the error, or the amount. */
  datatype RowView = Spinner | ErrorNote(text: string) | Amount(wei: nat, noBalanceNote: bool)

  function ViewRow(row: ChainBalance): (v: RowView)
    ensures row.isLoading <==> v.Spinner?
    ensures v.ErrorNote? <==> !row.isLoading && row.error.Some? && row.error.value != ""
    ensures v.Amount? ==> v.wei == row.balance && (v.noBalanceNote <==> row.balance == 0)
  {
    if row.isLoading then Spinner
    else if row.error.Some? && row.error.value != "" then ErrorNote(row.error.value)
    else Amount(row.balance, row.balance == 0)
  }

  /** The `onSelectionChange` / `onBalanceChange` arguments of one `selectChain` call. */
  datatype Selection = Selection(chain: Option<Chains.ChainId>, balance: nat)

  class Balances {
    var balances: seq<ChainBalance>
    var isRefreshing: bool

    constructor ()
      ensures balances == [] && !isRefreshing
    {
      balances := [];
      isRefreshing := false;
    }

    /** `fetchBalances` up to its `await`: every testnet row loading, refresh spinner on. */
    method BeginFetch(address: Option<string>) returns (started: bool)
      modifies this
      ensures started == Connected(address)
      ensures !started ==> balances == old(balances) && isRefreshing == old(isRefreshing)
      ensures started ==> balances == Placeholders(Chains.TestnetChainIds) && isRefreshing
    {
      started := Connected(address);
      if !started {
        return;
      }
      isRefreshing := true;
      balances := Placeholders(Chains.TestnetChainIds);
    }

    /** `fetchBalances` after `Promise.all`: the collected rows replace the list. */
    method FinishFetch(fetch: Fetcher)
      modifies this
      ensures balances == Collect(Chains.TestnetChainIds, fetch) && !isRefreshing
    {
      balances := Collect(Chains.TestnetChainIds, fetch);
      isRefreshing := false;
    }

    /**
     * `selectChain`: choosing the selected chain again clears the
     * selection with balance 0; any other chain becomes the selection with
     * its listed balance (0 when it is not listed).
     */
    method SelectChain(chainId: Chains.ChainId, selectedChain: Option<Chains.ChainId>) returns (s: Selection)
      ensures selectedChain == Some(chainId) ==> s == Selection(None, 0)
      ensures (forall j :: 0 <= j < |balances| ==> balances[j].chainId != chainId) ==> s.balance == 0
      ensures selectedChain != Some(chainId) ==>
        s == Selection(Some(chainId), BalanceOf(balances, Some(chainId)))
    {
      if selectedChain == Some(chainId) {
        s := Selection(None, 0);
      } else {
        var balance := BalanceOf(balances, Some(chainId));
        s := Selection(Some(chainId), balance);
      }
    }

    /** A click on row `i`: only a clickable row calls `selectChain`. */
    method ClickRow(i: nat, selectedChain: Option<Chains.ChainId>) returns (s: Option<Selection>)
      requires i < |balances|
      ensures s.Some? <==> RowClickable(balances[i])
      ensures s.Some? && selectedChain != Some(balances[i].chainId) ==>
        s.value == Selection(Some(balances[i].chainId), BalanceOf(balances, Some(balances[i].chainId)))
      ensures s.Some? && selectedChain == Some(balances[i].chainId) ==> s.value == Selection(None, 0)
    {
      if !RowClickable(balances[i]) {
        return None;
      }
      var selection := SelectChain(balances[i].chainId, selectedChain);
      s := Some(selection);
    }
  }

  lemma TestnetsDistinct()
    ensures Distinct(Chains.TestnetChainIds)
  {
  }

  /**
   * In a list without repeated chains, the balance found for a listed chain
   * is the balance of its own row.
   */
  lemma BalanceOfListed(balances: seq<ChainBalance>, i: nat)
    requires i < |balances|
    requires forall a, b :: 0 <= a < b < |balances| ==> balances[a].chainId != balances[b].chainId
    ensures BalanceOf(balances, Some(balances[i].chainId)) == balances[i].balance
  {
    var k := Find(balances, balances[i].chainId);
    assert k.Some?;
    assert k.value == i;
  }

  /**
   * After a fetch the list holds one row per testnet chain, in
   * `testnetChainIds` order, none loading; a failed chain shows 0 and
   * `Failed to fetch`, and the balance looked up for a chain is what its
   * own fetch returned.
   */
  lemma AfterFetch(fetch: Fetcher, i: nat)
    requires i < |Chains.TestnetChainIds|
    ensures var rows := Collect(Chains.TestnetChainIds, fetch);
      var id := Chains.TestnetChainIds[i];
      && |rows| == |Chains.TestnetChainIds| && rows[i].chainId == id
      && !AnyLoading(rows)
      && (fetch(id).FetchFailed? ==> rows[i].balance == 0 && rows[i].error == Some(FetchErrorText))
      && (fetch(id).Fetched? ==> rows[i].balance == fetch(id).wei && rows[i].error == None)
      && BalanceOf(rows, Some(id)) == rows[i].balance
  {
    var rows := Collect(Chains.TestnetChainIds, fetch);
    TestnetsDistinct();
    BalanceOfListed(rows, i);
  }

  /** A chain's row depends on that chain's fetch alone: other chains' failures do not touch it. */
  lemma FailureIsolation(chains: seq<Chains.ChainId>, f: Fetcher, g: Fetcher, i: nat)
    requires i < |chains| && f(chains[i]) == g(chains[i])
    ensures Collect(chains, f)[i] == Collect(chains, g)[i]
  {
  }

  /** While a fetch is pending the list is loading and the empty-state message is hidden. */
  lemma WhileFetching()
    ensures var rows := Placeholders(Chains.TestnetChainIds);
      AnyLoading(rows) && !ShowsNoBalances(rows) && forall i :: 0 <= i < |rows| ==> !RowClickable(rows[i])
  {
    assert Placeholders(Chains.TestnetChainIds)[0].isLoading;
  }

  /** After a fetch the empty-state message shows iff no chain reported a positive balance. */
  lemma NoBalancesAfterFetch(chains: seq<Chains.ChainId>, fetch: Fetcher)
    ensures ShowsNoBalances(Collect(chains, fetch)) <==>
      forall i :: 0 <= i < |chains| ==> fetch(chains[i]).FetchFailed? || fetch(chains[i]).wei == 0
  {
    var rows := Collect(chains, fetch);
    assert !AnyLoading(rows);
  }

  /** Selecting a chain and then selecting it again clears the selection. */
  method ToggleTwice(list: Balances, chainId: Chains.ChainId, selectedChain: Option<Chains.ChainId>)
    returns (first: Selection, second: Selection)
    requires selectedChain != Some(chainId)
    ensures first.chain == Some(chainId) && second == Selection(None, 0)
  {
    first := list.SelectChain(chainId, selectedChain);
    second := list.SelectChain(chainId, first.chain);
  }
}
