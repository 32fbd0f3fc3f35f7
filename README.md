# ZeroDust frontend: a verified model of its client-side logic

ZeroDust sweeps the whole native balance of a wallet on one chain to a
destination, on the same chain or another one. This project models the
logic of its web frontend in Dafny and proves properties of that model:

- the price service with its ten-minute snapshot cache;
- the backend client, with its HTTP error mapping, its endpoint builders and the bounded status poller;
- the sweep button's state machine;
- the testnet balance list;
- the destination chain selector and the destination address form;
- the quote-fetching fee breakdown;
- the sweep page's enabling rules;
- the chain icon's fallback.

There is one Dafny module per source file:

| module | models |
|---|---|
| `Prices` | src/services/prices.ts |
| `Api` | src/services/api.ts |
| `SweepButton` | src/components/sweep/sweep-button.tsx |
| `BalanceList` | src/components/sweep/balance-list.tsx |
| `DestinationChainSelector` | src/components/sweep/destination-chain-selector.tsx |
| `DestinationForm` | src/components/sweep/destination-form.tsx |
| `FeeBreakdown` | src/components/sweep/fee-breakdown.tsx |
| `AppPage` | src/app/app/page.tsx |
| `ChainIcon` | src/components/ui/chain-icon.tsx |

Four helper modules hold what the files share:

- `Wrappers`: the `Option` and `Result` types.
- `Decimal`: how a number prints in a template literal, and how `BigInt(text)` reads one.
- `Http`: the reply of a request, and the error that `fetchApi` and `fetchPrices` throw for it.
- `Chains`: the chain tables of src/config/wagmi.ts.

How the model is built:

- **State the source mutates** is a class whose methods say the whole new state. This covers the module-level `priceCache` and the React state of each component.
- **Pure derivations** are functions.
- **Each `await`** is modelled by what the awaited call resolves to, which is an input of the method:
  - An HTTP request's outcome is an `Http.Exchange`: unreachable, or an answer with a status and a body that does or does not parse.
  - The poller's backend answers attempt `i` with `backend(i)`.
  - A chain's balance fetch is a `Fetcher` value.
  - The sweep button's `catch` receives a `Fault`.
- **Handlers that render between awaits** are split at the await, because their in-flight state is what the render rules read:
  - `fetchBalances` becomes `BeginFetch` and `FinishFetch`.
  - `fetchQuote` becomes `BeginQuote` and `FinishQuote`, plus `FetchQuote` for the whole effect.
- **The clock** (`Date.now()`) is a parameter.
- **viem's `isAddress`** is a parameter `string -> bool`.
- **Callbacks** (`onUpdate`, `onSelectionChange`, `onQuoteChange`, …) are returned as the values they would be called with, in order.
- **JavaScript truthiness** is kept where the code relies on it:
  - `""` is falsy for addresses, error texts and table entries.
  - Chain id `0` is falsy in the sweep button's guard.

The poller is proved against a reference function. `Api.PollFrom` is the recursive specification of the loop from attempt `i` onward. `Api.PollSweepStatus` is the `for` loop, and its postcondition equates the loop's result and events with `PollFrom` from attempt 0. The properties of the poller are lemmas about `PollFrom`:

- the returned status;
- the request and wait counts;
- the `onUpdate` sequence;
- the shape of the requests.

## Model

| member | source | states |
|---|---|---|
| `Http.ErrorText` | src/services/api.ts:89-92 | the error message is the body's non-empty `message`, else `HTTP <status>`, and `Unknown error` when the body does not parse; it is never empty |
| `Http.Receive` | src/services/api.ts:80-95 | a request resolves exactly when the reply is 2xx with a parsable body, and then to that body; a non-ok reply throws a status error carrying the reply's status and a non-empty message; a rejected fetch throws a network error |
| `Http.DefaultMessageNamesStatus` | src/services/api.ts:91 | the fallback message is `HTTP ` followed by text that reads back as the status |
| `Decimal.ParseBigInt` | src/components/sweep/fee-breakdown.tsx:94-95 | `BigInt("")` is 0; a digit string reads as its value, and one after `+` or `-` as that value or its negation; it throws exactly for any other non-empty text; text not starting with `-` never reads negative |
| `Decimal.ParseShow` | src/components/sweep/fee-breakdown.tsx:94-95 | reading back a printed non-negative number gives the number |
| `Decimal.ShowInjective` | src/services/api.ts:91 | different statuses print differently |
| `Chains.MetaOf` | src/config/wagmi.ts:55-69 | the lookup `chainMeta[id]`: metadata exists exactly for the thirteen listed chain ids, and is that table entry |
| `Chains.RowName` | src/components/sweep/balance-list.tsx:109 | a row is named by its metadata, or `Chain <id>` for an unknown id |
| `Chains.TestnetsAreSupported` | src/config/wagmi.ts:19-45 | every id in `testnetChainIds` is a supported chain with metadata |
| `Prices.PriceSymbol` | src/services/prices.ts:5-14 | definition: `TESTNET_TO_MAINNET[symbol] || symbol`; its cases are stated by `Prices.PriceSymbolAliases` |
| `Prices.LookupSymbol` | src/services/prices.ts:78 | definition: the key `getPrice` uses, aliased after upper-casing; stated by `Prices.LookupIgnoresCase` and `Prices.LookupExamples` |
| `Prices.Fresh` | src/services/prices.ts:61 | definition: data exists and `now - timestamp < CACHE_TTL`; stated by `Prices.FreshnessWindow` |
| `Prices.PriceCache.IsFresh` | src/services/prices.ts:82 | definition: the cache check shared by `getAllPrices` and `getPrice`, on the object's fields |
| `Prices.PriceSymbolAliases` | src/services/prices.ts:6-14 | `TBNB` maps to `BNB` and `MATIC` to `POL`; every other symbol maps to itself; aliasing twice equals aliasing once |
| `Prices.ToUpper` | src/services/prices.ts:78 | upper-casing keeps the length, maps each character by the ASCII rule, and leaves no lower-case letter |
| `Prices.ToUpperIdempotent` | src/services/prices.ts:78 | upper-casing twice equals upper-casing once |
| `Prices.LookupIgnoresCase` | src/services/prices.ts:78 | a symbol and its upper-case form look up the same key, and that key is upper case |
| `Prices.LookupExamples` | src/services/prices.ts:78 | `tbnb` and `TBNB` both look up `BNB`, and `matic` looks up `POL` |
| `Prices.EthIsItsOwnKey` | src/services/prices.ts:94 | `ETH` is looked up as `ETH` |
| `Prices.FreshnessWindow` | src/services/prices.ts:60-63 | the snapshot is served iff data exists and `now - timestamp < 600000`; an elapsed time equal to the TTL is stale; the cleared cache is never fresh |
| `Prices.FetchPrices` | src/services/prices.ts:39-52 | a non-ok price reply throws with the reply's status and the shared error message; the request resolves exactly on a 2xx reply with a parsable body |
| `Prices.PriceCache.constructor` | src/services/prices.ts:33-36 | the cache starts with no data and timestamp 0 |
| `Prices.PriceCache.GetAllPrices` | src/services/prices.ts:58-71 | a fresh cache is served with no request and no change; a stale one requests `/prices`; success replaces the whole snapshot, stamped with the `now` read before the request; failure leaves the cache unchanged |
| `Prices.PriceCache.GetPrice` | src/services/prices.ts:76-88 | the cache is never written; a fresh snapshot holding the looked-up key answers directly; otherwise `/prices/<key>` is fetched with the upper-cased, aliased key |
| `Prices.PriceCache.GetEthPrice` | src/services/prices.ts:93-96 | the result is the USD price that `getPrice("ETH")` finds, from the cache or from `/prices/ETH`; when that request fails, its error is passed on unchanged |
| `Prices.PriceCache.ClearCache` | src/services/prices.ts:101-103 | the cache is back to its initial state |
| `Prices.RefreshThenClear` | src/services/prices.ts:58-103 | a successful refresh is served without a request within the TTL, and after `clearCache` the next call fetches again |
| `Api.QuoteCall` | src/services/api.ts:101-105 | definition: `POST /quote` with the request as body; stated by `Api.EndpointsAreDistinct` |
| `Api.SubmitCall` | src/services/api.ts:111-115 | definition: `POST /sweep` with the request as body; stated by `Api.EndpointsAreDistinct` |
| `Api.StatusCall` | src/services/api.ts:121-123 | definition: a body-less `GET /sweep/<sweepId>`; stated by `Api.EndpointsAreDistinct` and `Api.PollWellFormed` |
| `Api.SweepIdOf` | src/services/api.ts:122 | the id read back from a status path, which rebuilds the path it came from |
| `Api.EndpointsAreDistinct` | src/services/api.ts:101-123 | `getQuote` is POST `/quote` with the request body, `submitSweep` is POST `/sweep`, and `getSweepStatus` is a body-less GET `/sweep/<id>` whose path gives the id back |
| `Api.PollFrom` | src/services/api.ts:128-149 | reference definition of the loop from attempt `i` on: request, report, stop on a failure or a terminal status, else wait and continue; `Sweep timed out` once `maxAttempts` is reached; stated by `Api.PollResult`, `Api.PollCounts`, `Api.PollUpdates` |
| `Api.StopIndex` | src/services/api.ts:134-143 | the first attempt of the run that fails or returns `completed`/`failed`, or the budget when there is none |
| `Api.PollResult` | src/services/api.ts:134-148 | the run returns the first terminal status, rethrows the first failing request's error unchanged, and throws the timeout iff no attempt within `maxAttempts` stops it |
| `Api.PollCounts` | src/services/api.ts:134-145 | requests go out for every attempt up to and including the stopping one, so at most `maxAttempts`, and none without budget; exactly one wait follows each non-terminal status |
| `Api.PollUpdates` | src/services/api.ts:137-143 | with a callback, `onUpdate` receives exactly the fetched statuses in fetch order, the terminal one included; without one, nothing is reported |
| `Api.FetchedAt` | src/services/api.ts:135-139 | the n-th reported status is the reply to attempt `i + n`, which succeeded |
| `Api.PollWellFormed` | src/services/api.ts:134-145 | every request of a run is `GET /sweep/<sweepId>`, and every wait lasts `intervalMs` |
| `Api.PollSweepStatus` | src/services/api.ts:128-149 | the `for` loop returns or throws what `PollFrom` prescribes, with the same requests, `onUpdate` calls and waits, in the same order |
| `Api.PollWithDefaults` | src/services/api.ts:128-133 | a call without the last two arguments runs the loop with 60 attempts, 2000 ms apart |
| `Api.DefaultTimeout` | src/services/api.ts:131-148 | with the defaults a run makes at most 60 requests; when none of the 60 attempts fails or reaches a terminal status, it throws `Sweep timed out` after 60 requests and 60 waits |
| `SweepButton.CaughtMessage` | src/components/sweep/sweep-button.tsx:49-51 | the stored error is the caught `Error`'s message, or `Something went wrong` for any other value |
| `SweepButton.ChainInfo` | src/components/sweep/sweep-button.tsx:24 | metadata is found only for a truthy selected chain with an entry, and is that entry |
| `SweepButton.Truthy` | src/components/sweep/sweep-button.tsx:24-27 | definition: `selectedChain` as a condition; absent and chain id 0 are both false |
| `SweepButton.CanStart` | src/components/sweep/sweep-button.tsx:27 | definition: the guard of `handleSweep`; stated by `SweepButton.Button.HandleSweep` and `AppPage.PageAndButtonAgree` |
| `SweepButton.ButtonDisabled` | src/components/sweep/sweep-button.tsx:65 | definition: the `disabled` attribute; stated by `SweepButton.Button.Click` |
| `SweepButton.ShowsErrorBanner` | src/components/sweep/sweep-button.tsx:159 | definition: `status === 'error' && error`, an empty message being falsy; stated by `SweepButton.BannerAfterFault` |
| `SweepButton.ShowsProgressPanel` | src/components/sweep/sweep-button.tsx:107 | definition: sweeping or success, with chain metadata; stated by `SweepButton.PanelDuringRun` |
| `SweepButton.ShowsSelectPrompt` | src/components/sweep/sweep-button.tsx:172 | definition: `disabled && selectedChain === null`; stated by `SweepButton.SelectPromptMeansIdleClick` |
| `SweepButton.ButtonLabel` | src/components/sweep/sweep-button.tsx:76-102 | the label of each status; idle shows the chain's name, or `Chain` when there is none |
| `SweepButton.Run` | src/components/sweep/sweep-button.tsx:29-52 | definition: the statuses a started sweep sets, per fault; stated by `SweepButton.RunShape` |
| `SweepButton.Outcome` | src/components/sweep/sweep-button.tsx:49-51 | definition: the error a started sweep leaves; stated by `SweepButton.RunShape` and `SweepButton.BannerAfterFault` |
| `SweepButton.RunShape` | src/components/sweep/sweep-button.tsx:29-52 | a started sweep begins with `confirming`, stays in progress until it settles, and ends in `success` iff nothing was thrown (then the path is confirming, sweeping, success with no error), else in `error` with the caught message |
| `SweepButton.BannerAfterFault` | src/components/sweep/sweep-button.tsx:159 | after a failure the error banner shows unless the thrown `Error` had an empty message |
| `SweepButton.PanelDuringRun` | src/components/sweep/sweep-button.tsx:107 | the progress panel shows exactly at the `sweeping`/`success` steps of a run, and only for a chain with metadata |
| `SweepButton.SelectPromptMeansIdleClick` | src/components/sweep/sweep-button.tsx:172 | the "Select a chain" hint shows only when a click would do nothing; it tests `=== null`, unlike the guard |
| `SweepButton.Button.constructor` | src/components/sweep/sweep-button.tsx:21-22 | the button starts idle with no error |
| `SweepButton.Button.HandleSweep` | src/components/sweep/sweep-button.tsx:26-53 | when disabled or no truthy chain is selected, nothing changes; otherwise the statuses of the run are set in order, the error is cleared on entry, and the `catch` sets it |
| `SweepButton.Button.Click` | src/components/sweep/sweep-button.tsx:63-65 | a button that is disabled, or whose sweep is confirming or sweeping, ignores the click, so no second sweep starts while one is in progress |
| `SweepButton.Button.Reset` | src/components/sweep/sweep-button.tsx:55-58 | from any state: idle, with no error |
| `SweepButton.RetryAfterFailure` | src/components/sweep/sweep-button.tsx:159-167 | after a failed sweep whose message keeps the error banner (and its "Try again") on screen, pressing it and then the main button runs a complete new sweep |
| `BalanceList.Placeholders` | src/components/sweep/balance-list.tsx:35-40 | one loading row with balance 0 and no error per chain, in order |
| `BalanceList.Entry` | src/components/sweep/balance-list.tsx:51-64 | a fetched chain shows its balance and no error; a failed one shows 0 and `Failed to fetch`; neither is loading |
| `BalanceList.Collect` | src/components/sweep/balance-list.tsx:43-69 | one result per chain, in the chains' order, each built from that chain's own fetch |
| `BalanceList.Find` | src/components/sweep/balance-list.tsx:83 | `find` stops at the first row with the chain id, or finds none when no row has it |
| `BalanceList.BalanceOf` | src/components/sweep/balance-list.tsx:89 | the balance is 0 for a null chain, and a positive balance is that of a listed row of the chain |
| `BalanceList.AnyLoading` | src/components/sweep/balance-list.tsx:90 | definition: `balances.some(b => b.isLoading)`; stated by `BalanceList.WhileFetching` and `BalanceList.AfterFetch` |
| `BalanceList.ShowsNoBalances` | src/components/sweep/balance-list.tsx:181 | definition: nothing loading and every balance 0 (true of an empty list); stated by `BalanceList.NoBalancesAfterFetch` |
| `BalanceList.RowClickable` | src/components/sweep/balance-list.tsx:111-117 | definition: a positive balance and not loading; stated by `BalanceList.Balances.ClickRow` and `BalanceList.WhileFetching` |
| `BalanceList.Connected` | src/components/sweep/balance-list.tsx:30 | definition: `address` as a condition; stated by `BalanceList.Balances.BeginFetch` |
| `BalanceList.ViewRow` | src/components/sweep/balance-list.tsx:146-159 | a spinner exactly while loading, then the error when there is one, else the amount, with "No balance" exactly at 0 |
| `BalanceList.Balances.constructor` | src/components/sweep/balance-list.tsx:24-25 | an empty list that is not refreshing |
| `BalanceList.Balances.BeginFetch` | src/components/sweep/balance-list.tsx:29-40 | nothing happens without a connected address; otherwise every testnet row is loading and the refresh flag is set |
| `BalanceList.Balances.FinishFetch` | src/components/sweep/balance-list.tsx:68-70 | the collected results replace the list, and refreshing ends |
| `BalanceList.Balances.SelectChain` | src/components/sweep/balance-list.tsx:77-87 | re-selecting the selected chain deselects it with balance 0; any other chain is selected with its listed balance, 0 when it is absent |
| `BalanceList.Balances.ClickRow` | src/components/sweep/balance-list.tsx:111-117 | a row calls `selectChain` only when its balance is positive and it is not loading; a click on the selected chain clears the selection with balance 0, and on any other chain reports that chain with its listed balance |
| `BalanceList.TestnetsDistinct` | src/config/wagmi.ts:38-45 | no testnet id is listed twice |
| `BalanceList.BalanceOfListed` | src/components/sweep/balance-list.tsx:83-89 | in a list without repeated chains, the balance looked up for a listed chain is its own row's balance |
| `BalanceList.AfterFetch` | src/components/sweep/balance-list.tsx:35-69 | after a fetch there is exactly one row per testnet id, in `testnetChainIds` order, none loading; failures show 0 and `Failed to fetch`; the balance looked up for a chain is what its own fetch returned |
| `BalanceList.FailureIsolation` | src/components/sweep/balance-list.tsx:43-66 | a chain's row depends only on that chain's fetch |
| `BalanceList.WhileFetching` | src/components/sweep/balance-list.tsx:90-117 | while fetching, the list is loading, the empty-state message is hidden, and no row is clickable |
| `BalanceList.NoBalancesAfterFetch` | src/components/sweep/balance-list.tsx:181 | after a fetch, the "no balances" message shows iff every chain failed or reported 0 |
| `BalanceList.ToggleTwice` | src/components/sweep/balance-list.tsx:79-86 | selecting a chain, then selecting it again, ends with no selection |
| `DestinationChainSelector.EffectiveChain` | src/components/sweep/destination-chain-selector.tsx:26 | a null selection means the source chain; otherwise the selection |
| `DestinationChainSelector.IsCrossChain` | src/components/sweep/destination-chain-selector.tsx:27 | definition: a non-null selection other than the source; stated by `DestinationChainSelector.CrossChainMeansElsewhere` |
| `DestinationChainSelector.Choice` | src/components/sweep/destination-chain-selector.tsx:44 | choosing the source chain reports null; any other chain is reported as itself |
| `DestinationChainSelector.TriggerName` | src/components/sweep/destination-chain-selector.tsx:58 | the trigger shows the effective chain's name, or `Unknown` when it has no metadata or an empty name |
| `DestinationChainSelector.Rows` | src/components/sweep/destination-chain-selector.tsx:92-95 | one row per available chain; its flags are stated by `DestinationChainSelector.RowFlags` |
| `DestinationChainSelector.Selector.constructor` | src/components/sweep/destination-chain-selector.tsx:22 | the dropdown starts closed |
| `DestinationChainSelector.Selector.HandleSelect` | src/components/sweep/destination-chain-selector.tsx:42-46 | reports the normalised choice and closes the dropdown |
| `DestinationChainSelector.Selector.Toggle` | src/components/sweep/destination-chain-selector.tsx:52 | the trigger flips the open state |
| `DestinationChainSelector.Selector.MouseDown` | src/components/sweep/destination-chain-selector.tsx:32-37 | a mousedown outside closes the dropdown; one inside leaves it as it was |
| `DestinationChainSelector.ChoiceRoundTrip` | src/components/sweep/destination-chain-selector.tsx:42-46 | whichever chain is clicked becomes the effective destination |
| `DestinationChainSelector.CrossChainMeansElsewhere` | src/components/sweep/destination-chain-selector.tsx:27 | cross-chain iff the effective chain differs from the source; for a `handleSelect` value, iff the selection is non-null |
| `DestinationChainSelector.RowFlags` | src/components/sweep/destination-chain-selector.tsx:94-95 | exactly the rows of the effective chain are selected, and exactly the source rows say "Same chain"; with a null selection the two coincide; without repeats at most one row is selected |
| `DestinationForm.IsValidAddress` | src/components/sweep/destination-form.tsx:39 | definition: empty, or accepted by `isAddress`; stated by `DestinationForm.Form.HandleAddressChange` |
| `DestinationForm.Filter` | src/components/sweep/destination-form.tsx:27-30 | the filter keeps only accepted elements of its input and never grows it |
| `DestinationForm.FilterKeepsAll` | src/components/sweep/destination-form.tsx:27-30 | a filter that accepts everything returns its input |
| `DestinationForm.DestinationChains` | src/components/sweep/destination-form.tsx:27-30 | definition: `supportedChains` through the accept-all filter; stated by `DestinationForm.DestinationChainsAreSupported` |
| `DestinationForm.DestinationChainsAreSupported` | src/components/sweep/destination-form.tsx:27-30 | `destinationChains` is exactly `supportedChains`, in order |
| `DestinationForm.ChainLook` | src/components/sweep/destination-form.tsx:24 | a known chain shows its metadata, and an unknown one shows `Unknown` in `#888` |
| `DestinationForm.Form.constructor` | src/components/sweep/destination-form.tsx:21-22 | the dropdown starts closed and the field empty |
| `DestinationForm.Form.ShowsAddressError` | src/components/sweep/destination-form.tsx:110-116 | definition: the red border and "Invalid address format" hint, on the field's content; stated by `DestinationForm.Form.HandleAddressChange` |
| `DestinationForm.Form.HandleAddressChange` | src/components/sweep/destination-form.tsx:32-39 | the field always mirrors the typed value; the parent receives it iff it is empty or an address, so an invalid value never propagates; the error hint (line 114) shows exactly when nothing was forwarded |
| `DestinationForm.Form.ToggleDropdown` | src/components/sweep/destination-form.tsx:49 | the selector button flips the dropdown and leaves the field alone |
| `DestinationForm.Form.PickChain` | src/components/sweep/destination-form.tsx:76-79 | picking a chain reports its id and closes the dropdown |
| `FeeBreakdown.Gated` | src/components/sweep/fee-breakdown.tsx:32 | definition: no address, no destination or a zero balance; stated by `FeeBreakdown.Breakdown.BeginQuote` and `FeeBreakdown.Breakdown.FetchQuote` |
| `FeeBreakdown.FailureText` | src/components/sweep/fee-breakdown.tsx:52-56 | an `ApiError` shows its own message; any other failure shows the fixed backend-unreachable text |
| `FeeBreakdown.FailureTextShown` | src/components/sweep/fee-breakdown.tsx:51-58 | every failure of the quote request leaves a non-empty error, so the error panel renders |
| `FeeBreakdown.View` | src/components/sweep/fee-breakdown.tsx:67-95 | render precedence: loading, then a non-empty error, then no quote (nothing), then the amounts `BigInt(quote.fee)` and `BigInt(quote.estimatedReceive)`, or a throw when they do not parse |
| `FeeBreakdown.Breakdown.constructor` | src/components/sweep/fee-breakdown.tsx:24-26 | no quote, not loading, no error |
| `FeeBreakdown.Breakdown.BeginQuote` | src/components/sweep/fee-breakdown.tsx:32-46 | with no address, an empty destination or a zero balance: no request, the quote is cleared and `null` is reported; otherwise loading starts, the error is cleared, and POST `/quote` goes out for this chain, user and destination |
| `FeeBreakdown.Breakdown.FinishQuote` | src/components/sweep/fee-breakdown.tsx:47-61 | success stores the quote and reports that same quote; failure stores the error text, clears the quote and reports `null`; loading ends either way |
| `FeeBreakdown.Breakdown.FetchQuote` | src/components/sweep/fee-breakdown.tsx:30-62 | the whole effect: the request, when one goes out, is `POST /quote` for this chain, user and destination; exactly one `onQuoteChange` call, with the final quote; a gated call clears the quote and leaves loading and any earlier error as they were; a failed request clears the quote and stores its error text, which is what renders |
| `FeeBreakdown.LoadingWins` | src/components/sweep/fee-breakdown.tsx:67-74 | while loading, the spinner renders whatever the error and quote are |
| `FeeBreakdown.ShowsQuotedAmounts` | src/components/sweep/fee-breakdown.tsx:94-95 | the displayed fee and receive amount are exactly the quote's numbers, with no recomputation |
| `FeeBreakdown.StatusErrorShown` | src/components/sweep/fee-breakdown.tsx:52-53 | an error-status reply renders the message that `fetchApi` built for it |
| `AppPage.EffectiveDestination` | src/app/app/page.tsx:18 | the typed destination if non-empty, else the connected address, else `''` |
| `AppPage.SweepDisabled` | src/app/app/page.tsx:91 | definition: `selectedChain === null || !effectiveDestination`; stated by `AppPage.WorkspaceGates` |
| `AppPage.Render` | src/app/app/page.tsx:20-36 | without a wallet, only the connect screen renders |
| `AppPage.DestinationFallback` | src/app/app/page.tsx:18 | the effective destination is empty iff both the typed destination and the address are |
| `AppPage.WorkspaceGates` | src/app/app/page.tsx:75-91 | when connected, the fee breakdown renders iff a chain is selected, and the sweep button is disabled iff no chain is selected or the effective destination is empty |
| `AppPage.PageAndButtonAgree` | src/app/app/page.tsx:91 | the page's disabled rule and the button's own guard agree, except for chain id 0 |
| `ChainIcon.LogoUrl` | src/components/ui/chain-icon.tsx:17-109 | every logo URL in the table is non-empty |
| `ChainIcon.ColorEntry` | src/components/ui/chain-icon.tsx:112-150 | definition: the `chainColors` table; stated by `ChainIcon.LogoHasFallback` and `ChainIcon.TestnetLooksLikeMainnet` |
| `ChainIcon.InitialEntry` | src/components/ui/chain-icon.tsx:154-183 | definition: the table of `getChainInitial`; stated by `ChainIcon.LogoHasFallback` and `ChainIcon.TestnetLooksLikeMainnet` |
| `ChainIcon.GetChainInitial` | src/components/ui/chain-icon.tsx:153-185 | the table letter for a listed id, and `?` for any other id or an empty entry |
| `ChainIcon.FallbackColor` | src/components/ui/chain-icon.tsx:217 | the table colour, or `#888` for a missing or empty entry |
| `ChainIcon.View` | src/components/ui/chain-icon.tsx:216-228 | the fallback renders iff there is no logo URL or the image failed; it carries the fallback colour and initial; otherwise the logo renders |
| `ChainIcon.Icon.constructor` | src/components/ui/chain-icon.tsx:215 | `imageError` starts false |
| `ChainIcon.Icon.Render` | src/components/ui/chain-icon.tsx:216-242 | on the icon's fields: the fallback iff its chain has no logo or its image failed, with the chain's fallback colour and initial; otherwise that chain's logo |
| `ChainIcon.Icon.OnImageError` | src/components/ui/chain-icon.tsx:239 | the only writer of `imageError` sets it to true, so it only ever goes from false to true |
| `ChainIcon.Icon.SetChainId` | src/components/ui/chain-icon.tsx:214-215 | a new `chainId` prop keeps the error flag |
| `ChainIcon.TestnetLooksLikeMainnet` | src/components/ui/chain-icon.tsx:17-160 | each testnet has its mainnet's logo URL, colour and initial |
| `ChainIcon.LogoHasFallback` | src/components/ui/chain-icon.tsx:17-183 | every id with a logo also has a colour entry and an initial other than `?` |
| `ChainIcon.ListedLogosShow` | src/components/ui/chain-icon.tsx:216-219 | a listed chain shows its logo until the image fails, and the fallback after |
| `ChainIcon.SupportedChainsHaveLogos` | src/components/ui/chain-icon.tsx:17-109 | every supported chain id has a logo URL |
| `ChainIcon.ErrorOutlivesChainChange` | src/components/ui/chain-icon.tsx:215-239 | after one image failure, the icon shows the fallback for every chain it is later given |

## Left out

- Network I/O: `fetch` in `fetchApi` and `fetchPrices`, and viem's `createPublicClient`/`getBalance`. Each reply is an input of the method that awaits it.
- The base URL (`API_URL`, read from the environment): request paths are modelled without it.
- Timers and concurrency:
  - The `setTimeout` waits are not modelled; a poller wait is only recorded as an event.
  - `Promise.all` runs the balance fetches in parallel; here they form one ordered sequence.
  - Interleavings of several pending handlers (two `fetchQuote` effects, or a refresh during a refresh) are not modelled.
- The poller's backend is a total function from attempt number to reply; this stands for the sequence of replies the backend gives.
- Number formatting is not modelled: `formatEther`, `toFixed(6)`, the quote-expiry seconds and the icon font size. Token prices are `real`.
- `Prices.ToUpper`: only ASCII letters are upper-cased (JavaScript's `toUpperCase` also maps other Unicode letters).
- `Decimal.ParseBigInt`: leading and trailing whitespace and the `0x`/`0o`/`0b` forms that `BigInt` also accepts are not modelled.
- A JSON body of `null` or a non-object, and the `message` property when it is not a string: a body either does not parse or is an object whose `message` is an optional string.
- JSON serialisation of request bodies: a body is the request value itself.
- Object-key lookups in a prices map that would hit JavaScript prototype properties.
- viem's `isAddress` is a parameter; its checksum rules are not modelled.
- The sweep flow beyond the button: the simulated awaits in `handleSweep` stand where quoting, EIP-712 and EIP-7702 signing, submission and polling would go. None of those are called there, so none are modelled in the button.
- The prop mismatches in src/app/app/page.tsx. `DestinationForm` gets no `onChainChange` and a possibly null `chainId`. `FeeBreakdown` gets no `balance` or `destinationAddress`. Each component is modelled against its own declared props.
- Presentation only: colours and CSS classes, icons, animations, the balance list's token symbol, and the chain selector's `ChainIcon` size.
- `rpcUrls`: src/components/sweep/balance-list.tsx:7 imports it from src/config/wagmi.ts, which does not export it, so `rpcUrls[chainId]` at line 46 would throw inside the `try` and every row would show `Failed to fetch`. The model's `Fetcher` input covers that outcome (every fetch failed) among the others; which RPC endpoint a chain uses is not modelled.
- `console.error` at src/components/sweep/balance-list.tsx:58 and src/components/sweep/fee-breakdown.tsx:51 is logging only and is not modelled. The callbacks `onUpdate` (src/services/api.ts:138) and `onQuoteChange` (src/components/sweep/fee-breakdown.tsx:49) are assumed not to throw. A throwing `onQuoteChange` inside the `try` would reach the `catch`, which stores the backend-unreachable text and calls it again with `null`. The model reports exactly one call.
