/** src/aggregators/ZeroXAggregator.ts: base-URI switch, one price call with
    buy/sell parameters, `buyAmount` projected. */
module ZeroXAggregator {
  import opened Common
  import opened AggregatorInterface

  /** The body of a 0x `/swap/v1/price` response. */
  datatype PriceResponse = PriceResponse(buyAmount: string)

  /** `GetBaseUri`: case-insensitive, two networks, else throw. */
  function GetBaseUri(network: string): (r: Result<string, Error>)
    ensures r.Ok? <==> ToLower(network) in {"eth", "arbitrum"}
    ensures ToLower(network) == "eth" ==> r == Ok("https://api.0x.org")
    ensures ToLower(network) == "arbitrum" ==> r == Ok("https://arbitrum.api.0x.org")
    ensures r.Err? ==> r.error == UnsupportedNetwork(network)
  {
    match ToLower(network)
    case "eth" => Ok("https://api.0x.org")
    case "arbitrum" => Ok("https://arbitrum.api.0x.org")
    case _ => Err(UnsupportedNetwork(network))
  }

  lemma BaseUriIgnoresCase(network: string)
    ensures GetBaseUri(ToLower(network)).Ok? <==> GetBaseUri(network).Ok?
    ensures GetBaseUri(network).Ok? ==> GetBaseUri(ToLower(network)) == GetBaseUri(network)
  {
    ToLowerIdempotent(network);
  }

  function ProjectPrice(resp: PriceResponse): QuoteResult {
    QuoteResult(resp.buyAmount, Some("0x"))
  }

  /** `GetAmountOut`. `price` is the outcome of the price call, consulted only
      when the call is made. */
  function GetAmountOut(network: string, tokenInAddress: string, tokenOutAddress: string, tokenInAmount: string,
                        price: Result<PriceResponse, Error>): (run: AdapterRun)
    // an unsupported network throws while the URL is built, before any call
    ensures GetBaseUri(network).Err? ==>
      run == AdapterRun(Err(UnsupportedNetwork(network)), [])
    // otherwise one call: buyToken = tokenOut, sellToken = tokenIn, sellAmount = the amount
    ensures GetBaseUri(network).Ok? ==>
      run.calls == [ZeroXPrice(GetBaseUri(network).value, tokenOutAddress, tokenInAddress, tokenInAmount)]
    // the amount out is `buyAmount`, tagged '0x'; call errors propagate
    ensures GetBaseUri(network).Ok? && price.Ok? ==>
      run.result == Ok(QuoteResult(price.value.buyAmount, Some("0x")))
    ensures GetBaseUri(network).Ok? && price.Err? ==> run.result == Err(price.error)
  {
    match GetBaseUri(network)
    case Err(e) => AdapterRun(Err(e), [])
    case Ok(baseUri) =>
      AdapterRun(Project(price, ProjectPrice), [ZeroXPrice(baseUri, tokenOutAddress, tokenInAddress, tokenInAmount)])
  }
}
