/** src/aggregators/OpenOceanAggregator.ts: an adapter object that keeps one
    gas price for all networks, refreshed after 120 seconds, then makes one
    swap call. */
module OpenOceanAggregator {
  import opened Common
  import opened AggregatorInterface
  import NetworkUtils

  /** Freshness window of the instance's gas price, in milliseconds. */
  const GasRefreshMs: int := 120 * 1000

  const OpenOceanBaseUri: string := "https://ethapi.openocean.finance/v2"

  /** The body of an OpenOcean swap response. */
  datatype SwapResponse = SwapResponse(outAmount: string)

  /** The class's own `GetChainIdFromNetwork`: case-insensitive, three
      networks, else throw. */
  function GetChainIdFromNetwork(network: string): (r: Result<int, Error>)
    ensures r.Ok? <==> ToLower(network) in {"eth", "gnosis", "arbitrum"}
    ensures ToLower(network) == "eth" ==> r == Ok(1)
    ensures ToLower(network) == "gnosis" ==> r == Ok(100)
    ensures ToLower(network) == "arbitrum" ==> r == Ok(42161)
    ensures r.Err? ==> r.error == UnsupportedNetwork(network)
  {
    match ToLower(network)
    case "eth" => Ok(1)
    case "gnosis" => Ok(100)
    case "arbitrum" => Ok(42161)
    case _ => Err(UnsupportedNetwork(network))
  }

  /** The copy in this class and the one in the network utilities agree on
      every input. */
  lemma ChainIdAgreesWithNetworkUtils(network: string)
    ensures GetChainIdFromNetwork(network) == NetworkUtils.ChainIdFromNetwork(network)
  {
  }

  /** `this.gasPrice` is falsy when never set or zero. */
  predicate GasPriceFalsy(gasPrice: Option<int>) {
    gasPrice.None? || gasPrice.value == 0
  }

  /** The refresh rule of `GetAmountOut`, on the two fields. */
  predicate NeedsGasRefresh(gasPrice: Option<int>, lastCallGasPrice: int, now: int) {
    GasPriceFalsy(gasPrice) || lastCallGasPrice < now - GasRefreshMs
  }

  /** A fresh instance (no gas price, last refresh at time 0) has a refresh
      due on its first call: the absent gas price is falsy. */
  lemma FreshInstanceRefreshes(now: int)
    ensures NeedsGasRefresh(None, 0, now)
  {
  }

  /** `GetGasPrice(network)`: the chain id, then one gas-price call whose
      outcome is `gasPrice`. */
  function GetGasPrice(network: string, gasPrice: Result<int, Error>): (r: (Result<int, Error>, seq<Outbound>))
    ensures GetChainIdFromNetwork(network).Err? ==> r == (Err(UnsupportedNetwork(network)), [])
    ensures GetChainIdFromNetwork(network).Ok? ==>
      r == (gasPrice, [OpenOceanGasPrice(GetChainIdFromNetwork(network).value)])
  {
    match GetChainIdFromNetwork(network)
    case Err(e) => (Err(e), [])
    case Ok(chainId) => (gasPrice, [OpenOceanGasPrice(chainId)])
  }

  function ProjectSwap(resp: SwapResponse): QuoteResult {
    QuoteResult(resp.outAmount, None)
  }

  /** One `GetAmountOut` on an instance: the run, and the instance's gas
      price and refresh time afterwards. */
  datatype QuoteStep = QuoteStep(run: AdapterRun, gasPrice: Option<int>, lastCallGasPrice: int)

  /** `GetAmountOut` as a function of the two fields before the call: refresh
      when due, then the chain id, then the swap call with the instance's gas
      price. */
  function Quote(gasPrice: Option<int>, lastCallGasPrice: int, baseUri: string, network: string,
                 tokenInAddress: string, tokenOutAddress: string, tokenInAmount: string,
                 now: int, refreshedAt: int, gasResp: Result<int, Error>, swap: Result<SwapResponse, Error>)
    : (s: QuoteStep)
    // the fields change only on a successful refresh, to the fetched price and the refresh time
    ensures s.gasPrice != gasPrice || s.lastCallGasPrice != lastCallGasPrice ==>
      && NeedsGasRefresh(gasPrice, lastCallGasPrice, now) && gasResp.Ok?
      && s.gasPrice == Some(gasResp.value) && s.lastCallGasPrice == refreshedAt
    // a success always ends with the swap call, priced with the gas price the instance now holds
    ensures s.run.result.Ok? ==>
      && GetChainIdFromNetwork(network).Ok? && s.gasPrice.Some? && |s.run.calls| >= 1
      && s.run.calls[|s.run.calls| - 1] == OpenOceanSwap(baseUri, GetChainIdFromNetwork(network).value,
                                                         tokenInAddress, tokenOutAddress, tokenInAmount, s.gasPrice.value)
      && s.run.result == Project(swap, ProjectSwap)
    // the gas-price call, when made, comes first
    ensures forall i :: 0 < i < |s.run.calls| ==> !s.run.calls[i].OpenOceanGasPrice?
  {
    match GetChainIdFromNetwork(network)
    case Err(e) => QuoteStep(AdapterRun(Err(e), []), gasPrice, lastCallGasPrice)
    case Ok(chainId) =>
      if NeedsGasRefresh(gasPrice, lastCallGasPrice, now) then
        if gasResp.Err? then
          QuoteStep(AdapterRun(Err(gasResp.error), [OpenOceanGasPrice(chainId)]), gasPrice, lastCallGasPrice)
        else
          QuoteStep(AdapterRun(Project(swap, ProjectSwap),
                               [OpenOceanGasPrice(chainId),
                                OpenOceanSwap(baseUri, chainId, tokenInAddress, tokenOutAddress, tokenInAmount, gasResp.value)]),
                    Some(gasResp.value), refreshedAt)
      else
        QuoteStep(AdapterRun(Project(swap, ProjectSwap),
                             [OpenOceanSwap(baseUri, chainId, tokenInAddress, tokenOutAddress, tokenInAmount, gasPrice.value)]),
                  gasPrice, lastCallGasPrice)
  }

  /** The gas price is shared across quotes: after a quote that refreshed it
      with a truthy price, every quote within 120 seconds of the refresh, for
      any supported network, makes only its swap call at that price and leaves
      the instance unchanged. */
  lemma RefreshReusedWithinWindow(gasPrice: Option<int>, lastCallGasPrice: int, baseUri: string, network: string,
                                  laterNetwork: string, tokenIn: string, tokenOut: string, amount: string,
                                  now: int, refreshedAt: int, later: int, gasResp: Result<int, Error>,
                                  laterGasResp: Result<int, Error>, swap: Result<SwapResponse, Error>,
                                  laterSwap: Result<SwapResponse, Error>)
    requires later <= refreshedAt + GasRefreshMs
    requires GetChainIdFromNetwork(laterNetwork).Ok?
    ensures var first := Quote(gasPrice, lastCallGasPrice, baseUri, network, tokenIn, tokenOut, amount,
                               now, refreshedAt, gasResp, swap);
      first.run.calls != [] && first.run.calls[0].OpenOceanGasPrice? && gasResp.Ok? && gasResp.value != 0 ==>
        var second := Quote(first.gasPrice, first.lastCallGasPrice, baseUri, laterNetwork, tokenIn, tokenOut,
                            amount, later, later, laterGasResp, laterSwap);
        && second.run.calls == [OpenOceanSwap(baseUri, GetChainIdFromNetwork(laterNetwork).value, tokenIn, tokenOut,
                                              amount, gasResp.value)]
        && second.gasPrice == first.gasPrice && second.lastCallGasPrice == first.lastCallGasPrice
  {
  }

  class OpenOceanAggregator {
    const baseUri: string
    var gasPrice: Option<int>
    var lastCallGasPrice: int

    constructor ()
      ensures baseUri == OpenOceanBaseUri
      ensures gasPrice == None && lastCallGasPrice == 0
    {
      baseUri := OpenOceanBaseUri;
      gasPrice := None;
      lastCallGasPrice := 0;
    }

    /** `GetAmountOut`. `now` is the clock at the refresh check and
        `refreshedAt` the clock after a refresh; `gasResp` and `swap` are the
        outcomes of the gas-price and swap calls. */
    method GetAmountOut(network: string, tokenInAddress: string, tokenOutAddress: string, tokenInAmount: string,
                        now: int, refreshedAt: int, gasResp: Result<int, Error>, swap: Result<SwapResponse, Error>)
      returns (run: AdapterRun)
      modifies this
      // an unsupported network throws before the swap call, refresh or not, and changes nothing
      ensures GetChainIdFromNetwork(network).Err? ==>
        && run == AdapterRun(Err(UnsupportedNetwork(network)), [])
        && gasPrice == old(gasPrice) && lastCallGasPrice == old(lastCallGasPrice)
      // within the window the stored gas price is reused, whatever network fetched it
      ensures GetChainIdFromNetwork(network).Ok? && !NeedsGasRefresh(old(gasPrice), old(lastCallGasPrice), now) ==>
        && gasPrice == old(gasPrice) && lastCallGasPrice == old(lastCallGasPrice)
        && run.calls == [OpenOceanSwap(baseUri, GetChainIdFromNetwork(network).value, tokenInAddress,
                                       tokenOutAddress, tokenInAmount, old(gasPrice).value)]
        && run.result == Project(swap, ProjectSwap)
      // a failed refresh throws after the gas call and changes nothing
      ensures GetChainIdFromNetwork(network).Ok? && NeedsGasRefresh(old(gasPrice), old(lastCallGasPrice), now) && gasResp.Err? ==>
        && run == AdapterRun(Err(gasResp.error), [OpenOceanGasPrice(GetChainIdFromNetwork(network).value)])
        && gasPrice == old(gasPrice) && lastCallGasPrice == old(lastCallGasPrice)
      // a successful refresh stores the price and the refresh time, then swaps with it
      ensures GetChainIdFromNetwork(network).Ok? && NeedsGasRefresh(old(gasPrice), old(lastCallGasPrice), now) && gasResp.Ok? ==>
        && gasPrice == Some(gasResp.value) && lastCallGasPrice == refreshedAt
        && run.calls == [OpenOceanGasPrice(GetChainIdFromNetwork(network).value),
                         OpenOceanSwap(baseUri, GetChainIdFromNetwork(network).value, tokenInAddress,
                                       tokenOutAddress, tokenInAmount, gasResp.value)]
        && run.result == Project(swap, ProjectSwap)
      // the run and the new fields are those of `Quote` on the old fields
      ensures QuoteStep(run, gasPrice, lastCallGasPrice)
           == Quote(old(gasPrice), old(lastCallGasPrice), baseUri, network, tokenInAddress, tokenOutAddress,
                    tokenInAmount, now, refreshedAt, gasResp, swap)
    {
      var calls: seq<Outbound> := [];
      if GasPriceFalsy(gasPrice) || lastCallGasPrice < now - GasRefreshMs {
        var (fetched, gasCalls) := GetGasPrice(network, gasResp);
        calls := gasCalls;
        if fetched.Err? {
          run := AdapterRun(Err(fetched.error), calls);
          return;
        }
        gasPrice := Some(fetched.value);
        lastCallGasPrice := refreshedAt;
      }

      var chainId := GetChainIdFromNetwork(network);
      if chainId.Err? {
        run := AdapterRun(Err(chainId.error), calls);
        return;
      }
      calls := calls + [OpenOceanSwap(baseUri, chainId.value, tokenInAddress, tokenOutAddress, tokenInAmount,
                                      gasPrice.value)];
      run := AdapterRun(Project(swap, ProjectSwap), calls);
    }
  }

  /** Two quotes from one instance: when the first refreshed the gas price
      and the second comes within 120 seconds of that refresh, the second
      makes only its swap call, priced with the gas price the first fetched,
      whatever network either quote is for. */
  method QuoteTwice(a: OpenOceanAggregator, network: string, laterNetwork: string, tokenIn: string, tokenOut: string,
                    amount: string, now: int, refreshedAt: int, later: int, gasResp: Result<int, Error>,
                    laterGasResp: Result<int, Error>, swap: Result<SwapResponse, Error>,
                    laterSwap: Result<SwapResponse, Error>)
    returns (first: AdapterRun, second: AdapterRun)
    requires later <= refreshedAt + GasRefreshMs
    requires GetChainIdFromNetwork(laterNetwork).Ok?
    modifies a
    ensures first.calls != [] && first.calls[0].OpenOceanGasPrice? && gasResp.Ok? && gasResp.value != 0 ==>
      second.calls == [OpenOceanSwap(a.baseUri, GetChainIdFromNetwork(laterNetwork).value, tokenIn, tokenOut,
                                     amount, gasResp.value)]
  {
    first := a.GetAmountOut(network, tokenIn, tokenOut, amount, now, refreshedAt, gasResp, swap);
    second := a.GetAmountOut(laterNetwork, tokenIn, tokenOut, amount, later, later, laterGasResp, laterSwap);
  }
}
