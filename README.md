# web3-api resolution core, modelled in Dafny

This project models the request-resolution core of the web3-api HTTP
service. The service answers four kinds of query:

- token prices in USD, routed by network to Krystal (for `eth`) or to CoinGecko, behind a five-minute cache;
- swap quotes from four DEX aggregators (OpenOcean, 1inch Pathfinder, KyberSwap, 0x), singly or all together;
- block timestamps, read over JSON-RPC and kept in a map that is persisted to disk;
- ERC-20 token metadata (decimals, symbol, name), read over JSON-RPC and persisted the same way.

Each source file of the core is one Dafny module:

| module | source file |
|---|---|
| `Common` | the vocabulary shared by the others: `Option`/`Result`, the errors the core throws, HTTP replies, outbound calls, ASCII lower-casing, query-parameter truthiness |
| `Retry` | `src/utils/Utils.ts` |
| `PriceModels` | `src/models/PriceModels.ts` |
| `PriceController` | `src/controllers/PriceController.ts` |
| `NetworkUtils` | `src/utils/NetworkUtils.ts` |
| `AggregatorInterface` | `src/aggregators/AggregatorInterface.ts` |
| `OpenOceanAggregator`, `OneInchPathfinderAggregator`, `KyberAggregator`, `ZeroXAggregator` | the four adapters under `src/aggregators/` |
| `AggregatorController` | `src/controllers/AggregatorController.ts` |
| `BlockController` | `src/controllers/BlockController.ts` |
| `TokenController` | `src/controllers/TokenController.ts` |

How the model stands in for what it cannot run:

- **Upstream calls become parameters.** Every HTTP or RPC call becomes a parameter holding its outcome, a `Result` of the decoded body or the error it threw.
  - Where `retry` may call again, the parameter is a sequence with one outcome per attempt.
  - Every operation returns the calls it made, in order, as a `seq<Outbound>`, so "no outbound call" is `calls == []`.
- **Clocks become parameters.** `Date.now()` becomes an integer parameter. Where the source reads the clock twice (once for the freshness check, once for the store), the model takes two parameters.
- **Mutable state becomes classes.**
  - The module-level caches become classes whose methods update their fields: `PriceService`, `GasPriceCache`, `BlockCache`, `TokenCache`.
  - So does the OpenOcean adapter, with its per-instance gas price.
  - Each operation method states its whole new state, and the handlers built on them state the state they leave behind. Where possible, the new state is given as a pure function of the old state (`GasPriceGwei`, `Store`, `WithNetwork`, and the adapters' `Quote` steps), and the properties are proved about that function. The scenario methods that chain two calls on one object (`LookupTwice`, `QuoteTwice`, `FlushThenReload`, `TwoRequestsShareGasPrice`) state only the property the pair exhibits, not the whole state they leave.
- **The persisted files are a field.** The JSON file behind the block cache and the token cache is a field `file: Option<map>`. `Load` reads it at start, and `WriteToDisk(written)` is the periodic flush, whose `written` says whether `writeFileSync` succeeded.
- **JavaScript truthiness is explicit.**
  - A missing or empty query parameter is falsy.
  - A price of `0` or an absent price is falsy.
  - So is a gas price of `0`.
  - A stored block timestamp of `0` counts as a cache miss.

## Model

| member | source | states |
|---|---|---|
| `Common.ToLowerIdempotent` | src/controllers/PriceController.ts:29-30 | lower-casing leaves no upper-case letter behind and leaves lower-case text unchanged, so the cache keys built from lower-cased input are stable under a second lower-casing |
| `Retry.Retry` | src/utils/Utils.ts:5-26 | at least one attempt and never more than the budget; every attempt receives the same arguments; the result is the outcome of the last attempt, unchanged; every earlier attempt failed; the run stops before the budget only on a success; one sleep of 1000·k ms between attempt k and k+1 |
| `Retry.LinearBackoffTotal` | src/utils/Utils.ts:22-23 | sleeps of 1000·1, …, 1000·n ms total 1000·n(n+1)/2 ms |
| `Retry.RunBackoffTotal` | src/utils/Utils.ts:22-24 | a run of m attempts started at attempt 1 sleeps 1000·m(m-1)/2 ms in all |
| `Retry.FirstAttemptSucceeds` | src/utils/Utils.ts:12-14 | a first success is returned after one call and no sleep |
| `Retry.AlwaysFailingExhaustsBudget` | src/utils/Utils.ts:15-19 | a call that always fails runs exactly `maxTry` times, rethrows the error of the last attempt, and sleeps 1000·N(N-1)/2 ms |
| `Retry.SmallBudgetRunsOnce` | src/utils/Utils.ts:16-18 | with a budget of at most 1 the call runs once, whatever it does, and its outcome is the result |
| `Retry.FirstSuccessAt` | src/utils/Utils.ts:12-24 | failures on attempts 1..k-1 followed by a success on attempt k ≤ maxTry give that success after k calls and 1000·k(k-1)/2 ms of sleep |
| `Retry.BudgetBoundsWork` | src/utils/Utils.ts:16-24 | the budget alone bounds both the number of calls and the total sleep |
| `PriceModels.CoinGeckoChainId` | src/models/PriceModels.ts:1-9 | a network has a CoinGecko platform id exactly when it is one of the seven table keys, and the id is non-empty |
| `PriceModels.CoinGeckoTableContents` | src/models/PriceModels.ts:1-9 | the table has exactly the seven keys listed, each with a non-empty id (`near` is `aurora`, `cro` is `cronos`) |
| `PriceModels.CoinGeckoKeysAreLowerCase` | src/models/PriceModels.ts:1-9 | every network with an id is spelled in lower case, so any spelling with a capital letter has none |
| `PriceModels.CoinGeckoLookupIsExact` | src/models/PriceModels.ts:1-9 | an instance: `ETH` has no id, its lower-cased form `eth` does |
| `PriceController.AvailableNetworks` | src/controllers/PriceController.ts:10-12 | every advertised network is routed by the price switch, and every routed network is advertised |
| `PriceController.PriceFromKrystal` | src/controllers/PriceController.ts:95-104 | the price is 0 exactly when the market data is empty or its first price is falsy; otherwise it is that first price |
| `PriceController.PriceFromCoinGecko` | src/controllers/PriceController.ts:106-115 | an error exactly when the body is non-empty and lacks the token; 0 exactly when the body is empty or the token's price is falsy; otherwise the token's price |
| `PriceController.Route` | src/controllers/PriceController.ts:39-70 | `eth` and only `eth` goes to Krystal; exactly `cro`, `near`, `bsc`, `matic`, `avax` go to CoinGecko; anything else is unrouted |
| `PriceController.CoinGeckoRoutesHaveChainId` | src/controllers/PriceController.ts:48-58 | every network routed to CoinGecko has a platform id, so the handler's missing-id reply cannot happen |
| `PriceController.FetchFromKrystal` | src/controllers/PriceController.ts:41 | 1 to 10 Krystal calls, all for the lower-cased token; the result is what the last attempt yields, so a success is the normalised price of the last body; every earlier attempt was a rejected HTTP call; the fetch stops early only on a success; an error escapes only after 10 attempts, and it is the 10th HTTP error unchanged |
| `PriceController.FetchFromCoinGecko` | src/controllers/PriceController.ts:60 | 1 to 10 CoinGecko calls, all for the platform id and the lower-cased token; the result is what the last attempt yields, so a success is the normalisation of the last body; every earlier attempt was rejected or lacked the token; the fetch stops early only on a success; an error escapes only after 10 attempts, and it is the 10th attempt's error |
| `PriceController.Store` | src/controllers/PriceController.ts:74-81 | the stored entry is found under its two keys; the network's sub-map is created when missing; no other network and no other token of the same network changes |
| `PriceController.StoredEntryIsHitWithinWindow` | src/controllers/PriceController.ts:32-36 | a stored entry is a hit exactly until five minutes after its store time, and serves the stored response |
| `PriceController.StoreLeavesOtherKeys` | src/controllers/PriceController.ts:74-81 | storing one (network, token) entry changes no other lookup's hit status or its entry |
| `PriceController.FetchFor` | src/controllers/PriceController.ts:39-70 | the fetch the switch selects makes between 1 and 10 calls |
| `PriceController.PriceService.constructor` | src/controllers/PriceController.ts:8 | the cache starts empty |
| `PriceController.PriceService.GetPrice` | src/controllers/PriceController.ts:14-93 | the two 400 replies in order; a fresh entry is served with no outbound call and no change; an unrouted miss is a 503 with no call and no change; a routed miss replies with the fetched price tagged by its source; a fetch error is a 503 with no change; a zero price is returned but not stored; a non-zero price is stored at the store time, under the lower-cased keys, and nothing else changes |
| `PriceController.PriceService.Put` | src/controllers/PriceController.ts:74-81 | the in-place write leaves the cache equal to `Store` of the old cache |
| `PriceController.PriceService.Refresh` | src/controllers/PriceController.ts:38-84 | the miss path: calls, reply and new cache as `GetPrice` states them for a routed network |
| `PriceController.LookupTwice` | src/controllers/PriceController.ts:32-87 | after a fetched non-zero price is stored, a lookup within five minutes of the store gets the same reply with no outbound call |
| `NetworkUtils.ChainIdFromNetwork` | src/utils/NetworkUtils.ts:4-15 | case-insensitive: `eth` is 1, `gnosis` is 100, `arbitrum` is 42161, and any other network throws, naming the network as given |
| `NetworkUtils.ChainIdIgnoresCase` | src/utils/NetworkUtils.ts:5 | two spellings with the same lower-case form get the same answer |
| `NetworkUtils.ChainIdOfLowerCase` | src/utils/NetworkUtils.ts:5 | the lower-cased spelling gets the same answer as the given one |
| `NetworkUtils.GasPriceGwei` | src/utils/NetworkUtils.ts:24-42 | a fresh entry is returned with no call and no change; an unsupported network throws before any call; otherwise exactly one gas-price call for the network's chain; a failed call stores nothing and its own error escapes; a success sets only this network's entry, to the value and the store time; only supported networks are ever stored |
| `NetworkUtils.WeiFromGwei` | src/utils/NetworkUtils.ts:47 | exact scaling by 10^9 when the product lies within ±(2^53−1), dividing back to the gwei value; a `toNumber` overflow error otherwise |
| `NetworkUtils.WeiFromGweiInRange` | src/utils/NetworkUtils.ts:47 | every gas price from 0 to 9007199 gwei converts without overflow |
| `NetworkUtils.RefreshedEntryWindow` | src/utils/NetworkUtils.ts:26-34 | a stored entry is fresh for exactly 120 s after its store time, and storing it changes no other network's freshness |
| `NetworkUtils.KeysAreCaseSensitive` | src/utils/NetworkUtils.ts:25-26 | the gas cache is keyed by the network as given: an `eth` entry does not serve `ETH` |
| `NetworkUtils.RefreshServesNextLookup` | src/utils/NetworkUtils.ts:24-41 | within 120 s of a successful refresh, the next lookup of that network returns the same gas price with no call and no change |
| `NetworkUtils.GasPriceCache.constructor` | src/utils/NetworkUtils.ts:17 | the gas cache starts empty |
| `NetworkUtils.GasPriceCache.GetGasPriceGwei` | src/utils/NetworkUtils.ts:24-42 | result, calls and new cache are those of `GasPriceGwei` on the old cache, and only supported networks are stored |
| `NetworkUtils.GasPriceCache.GetGasPriceWei` | src/utils/NetworkUtils.ts:44-48 | the gwei lookup, then exact scaling to wei, or the lookup's error unchanged |
| `KyberAggregator.GetKyberChainName` | src/aggregators/KyberAggregator.ts:5-14 | case-insensitive: `eth` is `ethereum`, `arbitrum` is `arbitrum`, and any other network throws |
| `KyberAggregator.ChainNameIgnoresCase` | src/aggregators/KyberAggregator.ts:6 | the lower-cased spelling gets the same chain name |
| `KyberAggregator.GetAmountOut` | src/aggregators/KyberAggregator.ts:16-30 | an unsupported network throws before any call; otherwise exactly one routes call with tokens and amount passed through unchanged; the amount out is `routeSummary.amountOut`, with no aggregator tag; call errors propagate |
| `ZeroXAggregator.GetBaseUri` | src/aggregators/ZeroXAggregator.ts:5-14 | case-insensitive: `eth` and `arbitrum` get their API hosts, and any other network throws |
| `ZeroXAggregator.BaseUriIgnoresCase` | src/aggregators/ZeroXAggregator.ts:6 | the lower-cased spelling gets the same host |
| `ZeroXAggregator.GetAmountOut` | src/aggregators/ZeroXAggregator.ts:16-31 | an unsupported network throws before any call; otherwise one price call that buys the output token with the input amount of the input token; the amount out is `buyAmount`, tagged `0x` |
| `OpenOceanAggregator.GetChainIdFromNetwork` | src/aggregators/OpenOceanAggregator.ts:52-63 | case-insensitive chain ids 1, 100 and 42161; any other network throws |
| `OpenOceanAggregator.ChainIdAgreesWithNetworkUtils` | src/aggregators/OpenOceanAggregator.ts:52-63 | this class's copy of the chain-id switch agrees with the network utilities' one on every input |
| `OpenOceanAggregator.FreshInstanceRefreshes` | src/aggregators/OpenOceanAggregator.ts:8-21 | a new instance has no gas price, so a refresh is always due on its first quote (an unsupported network still fails before any call) |
| `OpenOceanAggregator.GetGasPrice` | src/aggregators/OpenOceanAggregator.ts:42-50 | an unsupported network throws with no call; otherwise one gas-price call for its chain, whose outcome is returned |
| `OpenOceanAggregator.OpenOceanAggregator.constructor` | src/aggregators/OpenOceanAggregator.ts:8-12 | the fixed base URI, no gas price, last refresh at 0 |
| `OpenOceanAggregator.Quote` | src/aggregators/OpenOceanAggregator.ts:14-39 | one quote as a function of the instance's two fields: they change only on a successful refresh, to the fetched price and the refresh time; a success ends with the swap call priced with the gas price the instance then holds; the gas-price call, when made, comes first |
| `OpenOceanAggregator.OpenOceanAggregator.GetAmountOut` | src/aggregators/OpenOceanAggregator.ts:14-39 | an unsupported network throws before the swap call and changes nothing; while the stored gas price is truthy and at most 120 s old it is reused whatever network fetched it; a failed refresh throws after the gas call and changes nothing; a successful refresh stores the price and the time, then swaps with it; the amount out is `outAmount`, untagged; run and new fields are those of `Quote` on the old fields |
| `OpenOceanAggregator.QuoteTwice` | src/aggregators/OpenOceanAggregator.ts:21-25 | after a refresh, a second quote within 120 s, for any supported network, makes only its swap call, priced with the first quote's gas price |
| `OpenOceanAggregator.RefreshReusedWithinWindow` | src/aggregators/OpenOceanAggregator.ts:21-25 | after a quote that refreshed the gas price with a truthy value, any quote within 120 s of the refresh, for any supported network, makes only its swap call at that price and leaves the instance unchanged |
| `OneInchPathfinderAggregator.QuoteOutcome` | src/aggregators/OneInchPathfinderAggregator.ts:24-39 | a body gives `toTokenAmount` tagged `1inch`; the `all quoteResults failed` rejection gives amount `0` tagged `1inch`; every other error is rethrown unchanged |
| `OneInchPathfinderAggregator.QuoteOutcomeTagged` | src/aggregators/OneInchPathfinderAggregator.ts:26-35 | every successful 1inch quote carries the `1inch` tag |
| `OneInchPathfinderAggregator.Quote` | src/aggregators/OneInchPathfinderAggregator.ts:6-40 | one quote as a function of the gas cache: the gas lookup's calls come first and at most one quotes call follows, for the network's chain with tokens and amount unchanged and the gas price in wei; a success always comes from the quotes call; with only supported networks cached, an unsupported network fails before any call |
| `OneInchPathfinderAggregator.GetAmountOut` | src/aggregators/OneInchPathfinderAggregator.ts:6-40 | the gas price in wei comes from the shared cache, whose new state is `GasPriceGwei`'s; a gas failure throws before the quotes call; otherwise one quotes call, with no retry, for the network's chain, with amount unchanged and the gas price in wei; an unsupported network fails with no call; the run is that of `Quote` on the old cache |
| `AggregatorController.ValidateQuote` | src/controllers/AggregatorController.ts:12-34 | accepted exactly when all four parameters are truthy; otherwise the first missing one, in the order network, tokenInAddress, tokenOutAddress, amountIn, names the 400 message |
| `AggregatorController.ValidateSpecific` | src/controllers/AggregatorController.ts:51-80 | accepted exactly when all five are truthy; network is checked first, then aggregator, then the other three in the same order as the other routes |
| `AggregatorController.SelectAggregator` | src/controllers/AggregatorController.ts:83-103 | an adapter is chosen exactly when the lower-cased name is `1inch`, `kyber`, `openocean` or `0x`, and it is the adapter of that name |
| `AggregatorController.SelectAggregatorInvertsName` | src/controllers/AggregatorController.ts:83-103 | a name selects an adapter exactly when it lower-cases to that adapter's name; every adapter's own name selects it |
| `AggregatorController.CombineMulti` | src/controllers/AggregatorController.ts:172-179 | a combined reply exactly when all four adapters succeed, holding each one's result under its key; otherwise the error of the first failure in the order OpenOcean, 1inch, Kyber, 0x |
| `AggregatorController.QuoteReply` | src/controllers/AggregatorController.ts:36-48 | a result is a 200 with the result; a thrown error is a 503 carrying it |
| `AggregatorController.GetAmountOut` | src/controllers/AggregatorController.ts:12-49 | a validation failure is a 400 with no call and no state change; an unsupported network is a 503 with no call and no change; within its window the shared proxy reuses its gas price and makes only the swap call; a due refresh whose gas call fails is a 503 with that error and no change; a successful refresh is stored in the proxy and priced into the swap; in every case reply, calls and the proxy's new fields are one `Quote` step on its old fields |
| `AggregatorController.GetSpecificAmountOut` | src/controllers/AggregatorController.ts:51-117 | a validation failure or an unknown aggregator is a 400 with no adapter call; only 1inch touches the gas cache, and its reply, calls and new cache are those of its `Quote` step and `GasPriceGwei`; Kyber and 0x reply with their adapter's outcome; a new OpenOcean instance always fetches a gas price before its swap |
| `AggregatorController.GetAmountOutMulti` | src/controllers/AggregatorController.ts:119-184 | a validation failure is a 400 with no change; otherwise the four adapters run on the same arguments, their calls are made in array order, and the reply is `CombineMulti` of their four outcomes, a 200 exactly when all four succeed; the proxy's fields and the gas cache end as the OpenOcean and 1inch steps leave them |
| `AggregatorController.TwoRequestsShareGasPrice` | src/controllers/AggregatorController.ts:10-49 | the proxy is one object for all requests: after a request that refreshed its gas price with a truthy value, a request within 120 s of that refresh, for any supported network, makes only its swap call at that price |
| `BlockController.FetchBlock` | src/controllers/BlockController.ts:57 | 1 to 10 `getBlock` calls, all for the requested number; the result is the last attempt's outcome (a block, null, or its error); every earlier attempt failed; the fetch stops early only on a success; an error escapes only after 10 attempts, and it is the 10th |
| `BlockController.BlockCache.Load` | src/controllers/BlockController.ts:26-31 | the map is the file's contents, or empty when there is no file; nothing is dirty |
| `BlockController.BlockCache.WriteToDisk` | src/controllers/BlockController.ts:33-41 | the file is rewritten with the whole map only when dirty and the write succeeds; the flag is cleared in both cases; the map is unchanged |
| `BlockController.BlockCache.GetBlockTimestamp` | src/controllers/BlockController.ts:45-77 | NaN or 0 is a 400 with no call; a truthy stored timestamp is served with no call; otherwise `retry` runs, and exhaustion is a 500 and a null block a 400, neither of which changes anything; a block sets only its own entry and marks the map dirty |
| `BlockController.FlushThenReload` | src/controllers/BlockController.ts:27-41 | flushing a dirty map and reloading from the file gives back the same map; flushing a clean one leaves the file as it was |
| `BlockController.LookupTwice` | src/controllers/BlockController.ts:52-66 | once a non-zero timestamp has been served, the next lookup of that block is served again with no RPC call |
| `TokenController.ReadString` | src/controllers/TokenController.ts:94-113 | a returned string is used; BAD_DATA falls back to the bytes32 decoding (or its failure); any other error is rethrown |
| `TokenController.WithNetwork` | src/controllers/TokenController.ts:87-89 | the network's sub-map exists afterwards, empty when created, and no other network changes |
| `TokenController.TokenCache.Load` | src/controllers/TokenController.ts:41-45 | the map is the file's contents, or empty when there is no file; nothing is dirty |
| `TokenController.TokenCache.WriteToDisk` | src/controllers/TokenController.ts:47-55 | the file is rewritten only when dirty and the write succeeds; the flag is cleared in both cases |
| `TokenController.TokenCache.GetInfos` | src/controllers/TokenController.ts:59-129 | the 400 replies in order (network, token, unknown network) with no call; a hit is served with no call; a miss creates the empty sub-map before its first RPC (kept even if the fetch fails) and reads decimals, symbol and name, stopping at the first failure with a 503; success stores the entry under the lower-cased keys and marks the map dirty; stored entries are never lost or changed |
| `TokenController.TokenCache.FetchInfos` | src/controllers/TokenController.ts:84-122 | the miss path as `GetInfos` states it |
| `TokenController.FlushThenReload` | src/controllers/TokenController.ts:41-55 | flushing a dirty map and reloading from the file gives back the same map |
| `TokenController.LookupTwice` | src/controllers/TokenController.ts:84-124 | once a token's metadata has been served, a later lookup with the same keys, in any letter case, gets the same reply with no RPC call |

## Left out

- HTTP plumbing is not modelled: Express routing, JSON serialisation, status codes other than those named, the text of the 503 bodies, and the logged `exception`. A thrown error is carried as a value in `Unavailable`.
- Promise.all timing is not modelled. The four adapters of `/getamountoutmulti` run sequentially in the model. The reply exists exactly when all four succeed, but the error the model reports is the first failure in array order, whereas at run time it is the first rejection in time. The model also does not interleave their gas-cache updates.
- Concurrent requests are not modelled: each handler runs to completion before the next one starts.
- Floating point is replaced by exact values. Prices are `real` and only compared with zero; `Number(...)` of an upstream price string is taken as already parsed. Gas prices are integers, so a fractional gwei value, which `BigNumber.from` would reject, cannot arise.
- `Number(req.query.blocknumber)` parsing is left out: the block number arrives already parsed (None for NaN). The block number's text in the error messages is dropped.
- Property names inherited from JavaScript's object prototype, such as a network called `constructor`, are not modelled: the maps hold only own keys.
- `toLowerCase` is ASCII only; Unicode case mapping is not modelled.
- Malformed upstream bodies are not modelled, apart from CoinGecko's body without the requested token. Every other decoded body is well-formed, and a field missing from it is not represented.
- The ERC-20 contract binding and the ethers provider are not part of this model. `decimals()`, `symbol()`, `name()` and `getBlock` appear only as their outcomes, and the bytes32 decoding only as its result (`StringCall.BadData`).
- Console logging is left out.
- The 60-second timers are left out; the flush is the explicit method `WriteToDisk`. Directory creation (`mkdirSync`) is left out.
- The flush clears the dirty flag before writing, so after a failed write the flag is cleared and the pending data is not written again until another change sets it.
- `BlockController.BlockCache.WriteToDisk` and `TokenController.TokenCache.WriteToDisk` treat a failed write as all-or-nothing: with `written` false the stored file keeps its old snapshot. `writeFileSync` truncates the file when it opens it and then writes, so a write that fails after the open can leave the file empty or partial, and the next start's `JSON.parse` of it would throw. The model does not capture that.
- A failed `writeFileSync` throws out of the timer callback, where nothing catches it, so by Node's default it ends the process. The model does not capture that crash: `WriteToDisk(false)` returns, and the cache carries on.
- The `AggregatorProxy` forwarder is modelled as the persistent OpenOcean instance it wraps, passed to the handlers as one object.
- PriceController.FetchFor: its ensures bounds the call count only; `FetchFromKrystal` and `FetchFromCoinGecko` state the rest.
