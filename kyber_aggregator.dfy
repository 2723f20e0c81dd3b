/** src/aggregators/KyberAggregator.ts: chain-name switch, one routes call,
    `routeSummary.amountOut` projected. */
module KyberAggregator {
  import opened Common
  import opened AggregatorInterface

  /** The `data.data` body of a KyberSwap routes response. */
  datatype RouteSummary = RouteSummary(amountOut: string)
  datatype RoutesResponse = RoutesResponse(routeSummary: RouteSummary)

  /** `GetKyberChainName`: case-insensitive, two networks, else throw. */
  function GetKyberChainName(network: string): (r: Result<string, Error>)
    ensures r.Ok? <==> ToLower(network) in {"eth", "arbitrum"}
    ensures ToLower(network) == "eth" ==> r == Ok("ethereum")
    ensures ToLower(network) == "arbitrum" ==> r == Ok("arbitrum")
    ensures r.Err? ==> r.error == UnsupportedNetwork(network)
  {
    match ToLower(network)
    case "eth" => Ok("ethereum")
    case "arbitrum" => Ok("arbitrum")
    case _ => Err(UnsupportedNetwork(network))
  }

  lemma ChainNameIgnoresCase(network: string)
    ensures GetKyberChainName(ToLower(network)).Ok? <==> GetKyberChainName(network).Ok?
    ensures GetKyberChainName(network).Ok? ==> GetKyberChainName(ToLower(network)) == GetKyberChainName(network)
  {
    ToLowerIdempotent(network);
  }

  function ProjectRoutes(resp: RoutesResponse): QuoteResult {
    QuoteResult(resp.routeSummary.amountOut, None)
  }

  /** `GetAmountOut`. `routes` is the outcome of the routes call, consulted
      only when the call is made. */
  function GetAmountOut(network: string, tokenInAddress: string, tokenOutAddress: string, tokenInAmount: string,
                        routes: Result<RoutesResponse, Error>): (run: AdapterRun)
    // an unsupported network throws while the URL is built, before any call
    ensures GetKyberChainName(network).Err? ==>
      run == AdapterRun(Err(UnsupportedNetwork(network)), [])
    // otherwise exactly one call, with the tokens and amount passed through unchanged
    ensures GetKyberChainName(network).Ok? ==>
      run.calls == [KyberRoutes(GetKyberChainName(network).value, tokenInAddress, tokenOutAddress, tokenInAmount)]
    // the amount out is `routeSummary.amountOut`, with no aggregator tag; call errors propagate
    ensures GetKyberChainName(network).Ok? && routes.Ok? ==>
      run.result == Ok(QuoteResult(routes.value.routeSummary.amountOut, None))
    ensures GetKyberChainName(network).Ok? && routes.Err? ==> run.result == Err(routes.error)
  {
    match GetKyberChainName(network)
    case Err(e) => AdapterRun(Err(e), [])
    case Ok(chainName) =>
      AdapterRun(Project(routes, ProjectRoutes),
                 [KyberRoutes(chainName, tokenInAddress, tokenOutAddress, tokenInAmount)])
  }
}
