/** Shared vocabulary of the resolution core: option and result types,
    the errors the core raises, the HTTP replies the handlers produce, the
    outbound calls they issue and ASCII case folding. */
module Common {

  datatype Option<+T> = None | Some(value: T)

  datatype Result<+T, +E> = Ok(value: T) | Err(error: E)

  /** Everything the core can throw. */
  datatype Error =
    | UnsupportedNetwork(network: string)   // "Could not find chainid / chain name for ..."
    | UnknownPriceNetwork(network: string)  // price handler: "Unknown network ..."
    | UpstreamFailure(errField: Option<string>)  // a rejected HTTP call; errField is `e.response.data.err` when present
    | MissingField                          // a TypeError from reading a field of an absent response object
    | SafeIntegerOverflow                   // BigNumber.toNumber outside the safe-integer range
    | RpcFailure(code: string)              // an ethers error other than BAD_DATA
    | DecodeFailure                         // bytes32 decoding that itself fails

  /** The reply a route handler writes. */
  datatype Reply<+T> =
    | Json(body: T)                 // 200
    | BadRequest(message: string)   // 400
    | ServerError(message: string)  // 500
    | Unavailable(error: Error)     // 503

  /** Every outbound HTTP or RPC call the core makes, with the parameters that
      reach the wire. An operation returns the calls it made, in order. */
  datatype Outbound =
    | KrystalMarket(tokenAddress: string)
    | CoinGeckoTokenPrice(coinGeckoChainId: string, tokenAddress: string)
    | OpenOceanGasPrice(chainId: int)
    | OpenOceanSwap(baseUri: string, chainId: int, inTokenAddress: string, outTokenAddress: string,
                    amount: string, gasPrice: int)
    | OneInchQuotes(chainId: int, fromTokenAddress: string, toTokenAddress: string, amount: string,
                    gasPriceWei: int)
    | KyberRoutes(chainName: string, tokenIn: string, tokenOut: string, amountIn: string)
    | ZeroXPrice(baseUri: string, buyToken: string, sellToken: string, sellAmount: string)
    | GetBlock(blockNumber: int)
    | Erc20Decimals(network: string, tokenAddress: string)
    | Erc20Symbol(network: string, tokenAddress: string)
    | Erc20Name(network: string, tokenAddress: string)

  /** A query parameter as Express hands it over: absent, or a string. */
  type QueryParam = Option<string>

  /** JavaScript truthiness of a query parameter: present and non-empty. */
  predicate Present(p: QueryParam) {
    p.Some? && p.value != ""
  }

  /** The value of a present parameter (`toString()` of a string). */
  function Value(p: QueryParam): string
    requires Present(p)
  {
    p.value
  }

  function LowerChar(c: char): (d: char)
    ensures 'A' <= c <= 'Z' ==> d as int == c as int + 32
    ensures !('A' <= c <= 'Z') ==> d == c
    ensures !('A' <= d <= 'Z')
  {
    if 'A' <= c <= 'Z' then (c as int + 32) as char else c
  }

  /** `String.prototype.toLowerCase`, restricted to ASCII letters. */
  function ToLower(s: string): (r: string)
    ensures |r| == |s|
    ensures forall i :: 0 <= i < |s| ==> r[i] == LowerChar(s[i])
  {
    if s == [] then [] else [LowerChar(s[0])] + ToLower(s[1..])
  }

  /** A string is in lower case when no character is an upper-case letter. */
  predicate IsLower(s: string) {
    forall i :: 0 <= i < |s| ==> !('A' <= s[i] <= 'Z')
  }

  /** Lower-casing yields a lower-case string and leaves lower-case strings
      alone, so lower-casing twice is lower-casing once. */
  lemma ToLowerIdempotent(s: string)
    ensures IsLower(ToLower(s))
    ensures IsLower(s) ==> ToLower(s) == s
    ensures ToLower(ToLower(s)) == ToLower(s)
  {
    var t := ToLower(s);
    assert IsLower(t);
    assert |ToLower(t)| == |t|;
    assert forall i :: 0 <= i < |t| ==> ToLower(t)[i] == t[i];
    if IsLower(s) {
      assert forall i :: 0 <= i < |s| ==> t[i] == s[i];
    }
  }
}
