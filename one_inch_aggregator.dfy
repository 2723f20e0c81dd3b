/** src/aggregators/OneInchPathfinderAggregator.ts: gas price in wei from the
    shared gas cache, then one quotes call whose "all quoteResults failed"
    rejection is turned into a zero quote. */
module OneInchPathfinderAggregator {
  import opened Common
  import opened AggregatorInterface
  import opened NetworkUtils

  /** The `err` field of the rejection that means "no route". */
  const AllQuoteResultsFailed: string := "all quoteResults failed"

  /** The body of a successful Pathfinder quotes response. */
  datatype BestResult = BestResult(toTokenAmount: string)
  datatype QuotesResponse = QuotesResponse(bestResult: BestResult)

  /** The try/catch around the quotes call. */
  function QuoteOutcome(quotes: Result<QuotesResponse, Error>): (r: Result<QuoteResult, Error>)
    ensures quotes.Ok? ==> r == Ok(QuoteResult(quotes.value.bestResult.toTokenAmount, Some("1inch")))
    // the sanctioned "no route" rejection becomes a successful zero
    ensures quotes == Err(UpstreamFailure(Some(AllQuoteResultsFailed))) ==> r == Ok(QuoteResult("0", Some("1inch")))
    // every other error is rethrown unchanged
    ensures quotes.Err? && quotes.error != UpstreamFailure(Some(AllQuoteResultsFailed)) ==> r == Err(quotes.error)
  {
    match quotes
    case Ok(resp) => Ok(QuoteResult(resp.bestResult.toTokenAmount, Some("1inch")))
    case Err(e) =>
      if e.UpstreamFailure? && e.errField == Some(AllQuoteResultsFailed) then Ok(QuoteResult("0", Some("1inch")))
      else Err(e)
  }

  /** A successful quote is always tagged '1inch'. */
  lemma QuoteOutcomeTagged(quotes: Result<QuotesResponse, Error>)
    ensures QuoteOutcome(quotes).Ok? ==> QuoteOutcome(quotes).value.aggregator == Some("1inch")
  {
  }

  /** `GetAmountOut` as a function of the gas cache before the call: the gas
      price in wei, then the chain id, then one quotes call. */
  function Quote(entries: map<string, GasCachedValue>, network: string, tokenInAddress: string,
                 tokenOutAddress: string, tokenInAmount: string, now: int, checkedAt: int,
                 gasPrice: Result<int, Error>, quotes: Result<QuotesResponse, Error>): (run: AdapterRun)
    // the gas lookup's calls come first, and at most one quotes call follows, last
    ensures var g := GasPriceGwei(entries, network, now, checkedAt, gasPrice);
      && g.calls <= run.calls && |run.calls| <= |g.calls| + 1
      && (|run.calls| == |g.calls| + 1 ==>
            && ChainIdFromNetwork(network).Ok? && g.result.Ok? && WeiFromGwei(g.result.value).Ok?
            && run.calls[|g.calls|] == OneInchQuotes(ChainIdFromNetwork(network).value, tokenInAddress,
                                                     tokenOutAddress, tokenInAmount, WeiFromGwei(g.result.value).value)
            && run.result == QuoteOutcome(quotes))
    // a success always comes from the quotes call
    ensures run.result.Ok? ==> run.result == QuoteOutcome(quotes) && exists i :: 0 <= i < |run.calls| && run.calls[i].OneInchQuotes?
    // with only supported networks cached, an unsupported network fails before any call
    ensures OnlySupportedKeys(entries) && ChainIdFromNetwork(network).Err? ==>
      run == AdapterRun(Err(UnsupportedNetwork(network)), [])
  {
    var g := GasPriceGwei(entries, network, now, checkedAt, gasPrice);
    var wei := if g.result.Err? then Err(g.result.error) else WeiFromGwei(g.result.value);
    if wei.Err? then AdapterRun(Err(wei.error), g.calls)
    else
      match ChainIdFromNetwork(network)
      case Err(e) => AdapterRun(Err(e), g.calls)
      case Ok(chainId) =>
        AdapterRun(QuoteOutcome(quotes),
                   g.calls + [OneInchQuotes(chainId, tokenInAddress, tokenOutAddress, tokenInAmount, wei.value)])
  }

  /** `GetAmountOut`, gas price through the shared cache `gas`. `now` and
      `checkedAt` are the gas cache's clock readings, `gasPrice` the outcome
      of its upstream call and `quotes` that of the quotes call. */
  method GetAmountOut(gas: GasPriceCache, network: string, tokenInAddress: string, tokenOutAddress: string,
                      tokenInAmount: string, now: int, checkedAt: int, gasPrice: Result<int, Error>,
                      quotes: Result<QuotesResponse, Error>)
    returns (run: AdapterRun)
    requires gas.Valid()
    modifies gas
    ensures gas.Valid()
    ensures var g := GasPriceGwei(old(gas.entries), network, now, checkedAt, gasPrice);
      var wei := if g.result.Err? then Err(g.result.error) else WeiFromGwei(g.result.value);
      && gas.entries == g.entries
      // a failure to get the gas price throws before the quotes call
      && (wei.Err? ==> run == AdapterRun(Err(wei.error), g.calls))
      // otherwise one quotes call, amount unchanged, with the gas price in wei, and no retry
      && (wei.Ok? ==>
            && ChainIdFromNetwork(network).Ok?
            && run.calls == g.calls + [OneInchQuotes(ChainIdFromNetwork(network).value, tokenInAddress,
                                                    tokenOutAddress, tokenInAmount, wei.value)]
            && run.result == QuoteOutcome(quotes))
    // in particular an unsupported network fails in the gas lookup, before any call
    ensures ChainIdFromNetwork(network).Err? ==>
      run == AdapterRun(Err(UnsupportedNetwork(network)), []) && gas.entries == old(gas.entries)
     // the run is that of `Quote` on the old cache
    ensures run == Quote(old(gas.entries), network, tokenInAddress, tokenOutAddress, tokenInAmount,
                         now, checkedAt, gasPrice, quotes)
  {
    var gasPriceWei, calls := gas.GetGasPriceWei(network, now, checkedAt, gasPrice);
    if gasPriceWei.Err? {
      run := AdapterRun(Err(gasPriceWei.error), calls);
      return;
    }
    var chainId := ChainIdFromNetwork(network);
    if chainId.Err? {
      // a gas price was found, so the network has a chain id
      assert false;
      run := AdapterRun(Err(UnsupportedNetwork(network)), calls);
      return;
    }
    calls := calls + [OneInchQuotes(chainId.value, tokenInAddress, tokenOutAddress, tokenInAmount, gasPriceWei.value)];
    run := AdapterRun(QuoteOutcome(quotes), calls);
  }
}
