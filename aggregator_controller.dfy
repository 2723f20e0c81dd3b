/** src/controllers/AggregatorController.ts: parameter validation in a fixed
    order, case-insensitive adapter selection, and the all-or-nothing
    combination of the four adapters. */
module AggregatorController {
  import opened Common
  import opened AggregatorInterface
  import opened NetworkUtils
  import OO = OpenOceanAggregator
  import OneInch = OneInchPathfinderAggregator
  import Kyber = KyberAggregator
  import ZeroX = ZeroXAggregator

  /** The query of `/getamountout` and `/getamountoutmulti`. */
  datatype QuoteQuery = QuoteQuery(network: QueryParam, tokenInAddress: QueryParam,
                                   tokenOutAddress: QueryParam, amountIn: QueryParam)

  /** A validated query: every parameter present, as strings. */
  datatype QuoteRequest = QuoteRequest(network: string, tokenInAddress: string, tokenOutAddress: string, amountIn: string)

  /** The early-return checks of `/getamountout` and `/getamountoutmulti`:
      network, tokenInAddress, tokenOutAddress, amountIn, in that order. */
  function ValidateQuote(q: QuoteQuery): (r: Result<QuoteRequest, string>)
    ensures r.Ok? <==> Present(q.network) && Present(q.tokenInAddress) && Present(q.tokenOutAddress) && Present(q.amountIn)
    ensures r.Ok? ==> r.value == QuoteRequest(Value(q.network), Value(q.tokenInAddress), Value(q.tokenOutAddress), Value(q.amountIn))
    // the first missing parameter decides the message
    ensures !Present(q.network) ==> r == Err("network query param mandatory")
    ensures Present(q.network) && !Present(q.tokenInAddress) ==> r == Err("tokenInAddress query param mandatory")
    ensures Present(q.network) && Present(q.tokenInAddress) && !Present(q.tokenOutAddress) ==>
      r == Err("tokenOutAddress query param mandatory")
    ensures Present(q.network) && Present(q.tokenInAddress) && Present(q.tokenOutAddress) && !Present(q.amountIn) ==>
      r == Err("amountIn query param mandatory")
  {
    if !Present(q.network) then Err("network query param mandatory")
    else if !Present(q.tokenInAddress) then Err("tokenInAddress query param mandatory")
    else if !Present(q.tokenOutAddress) then Err("tokenOutAddress query param mandatory")
    else if !Present(q.amountIn) then Err("amountIn query param mandatory")
    else Ok(QuoteRequest(Value(q.network), Value(q.tokenInAddress), Value(q.tokenOutAddress), Value(q.amountIn)))
  }

  /** The four adapters. */
  datatype AggregatorKind = OneInchKind | KyberKind | OpenOceanKind | ZeroXKind

  /** The name a client uses for each adapter, in lower case. */
  function AggregatorName(k: AggregatorKind): string {
    match k
    case OneInchKind => "1inch"
    case KyberKind => "kyber"
    case OpenOceanKind => "openocean"
    case ZeroXKind => "0x"
  }

  /** The chain of `if`s that sets `agg`: each test compares
      the lower-cased name against one adapter name, a later match
      overriding an earlier one. */
  function SelectAggregator(aggregator: string): (r: Option<AggregatorKind>)
    ensures r.Some? <==> ToLower(aggregator) in {"1inch", "kyber", "openocean", "0x"}
    ensures r.Some? ==> AggregatorName(r.value) == ToLower(aggregator)
  {
    var name := ToLower(aggregator);
    var agg := None;
    var agg := if name == "1inch" then Some(OneInchKind) else agg;
    var agg := if name == "kyber" then Some(KyberKind) else agg;
    var agg := if name == "openocean" then Some(OpenOceanKind) else agg;
    var agg := if name == "0x" then Some(ZeroXKind) else agg;
    agg
  }

  /** Selection is the inverse of naming, in any letter case: a name selects
      exactly the adapter whose name it lower-cases to. */
  lemma SelectAggregatorInvertsName(aggregator: string, k: AggregatorKind)
    ensures SelectAggregator(aggregator) == Some(k) <==> ToLower(aggregator) == AggregatorName(k)
    ensures SelectAggregator(AggregatorName(k)) == Some(k)
  {
    var n := AggregatorName(k);
    assert ToLower(n) == n by {
      assert IsLower(n);
      ToLowerIdempotent(n);
    }
    var r := SelectAggregator(aggregator);
    if ToLower(aggregator) == n {
      AggregatorNameInjective(r.value, k);
    }
    AggregatorNameInjective(SelectAggregator(n).value, k);
  }

  /** No two adapters share a name. */
  lemma AggregatorNameInjective(a: AggregatorKind, b: AggregatorKind)
    ensures AggregatorName(a) == AggregatorName(b) ==> a == b
  {
    if a != b {
      assert AggregatorName(a)[0] != AggregatorName(b)[0] || |AggregatorName(a)| != |AggregatorName(b)|;
    }
  }

  /** The query of `/getspecificamountout`. */
  datatype SpecificQuery = SpecificQuery(network: QueryParam, aggregator: QueryParam, tokenInAddress: QueryParam,
                                         tokenOutAddress: QueryParam, amountIn: QueryParam)

  /** The early-return checks of `/getspecificamountout`: network,
      aggregator, tokenInAddress, tokenOutAddress, amountIn, in that order. */
  function ValidateSpecific(q: SpecificQuery): (r: Result<(QuoteRequest, string), string>)
    ensures r.Ok? <==> Present(q.network) && Present(q.aggregator) && Present(q.tokenInAddress)
                       && Present(q.tokenOutAddress) && Present(q.amountIn)
    ensures r.Ok? ==> r.value == (QuoteRequest(Value(q.network), Value(q.tokenInAddress), Value(q.tokenOutAddress),
                                               Value(q.amountIn)), Value(q.aggregator))
    ensures !Present(q.network) ==> r == Err("network query param mandatory")
    ensures Present(q.network) && !Present(q.aggregator) ==> r == Err("aggregator query param mandatory")
    // after the aggregator, the same order as the other endpoints
    ensures Present(q.network) && Present(q.aggregator) ==>
      var rest := ValidateQuote(QuoteQuery(q.network, q.tokenInAddress, q.tokenOutAddress, q.amountIn));
      rest.Err? ==> r == Err(rest.error)
  {
    if !Present(q.network) then Err("network query param mandatory")
    else if !Present(q.aggregator) then Err("aggregator query param mandatory")
    else if !Present(q.tokenInAddress) then Err("tokenInAddress query param mandatory")
    else if !Present(q.tokenOutAddress) then Err("tokenOutAddress query param mandatory")
    else if !Present(q.amountIn) then Err("amountIn query param mandatory")
    else Ok((QuoteRequest(Value(q.network), Value(q.tokenInAddress), Value(q.tokenOutAddress), Value(q.amountIn)),
             Value(q.aggregator)))
  }

  /** The combined body of `/getamountoutmulti`, one field per key. */
  datatype MultiQuote = MultiQuote(openOcean: QuoteResult, oneInch: QuoteResult, kyber: QuoteResult, zeroX: QuoteResult)

  /** `await Promise.all([...])` then the four awaits: every adapter must
      succeed; otherwise the first error, in the order of the array, is
      thrown and no partial result survives. */
  function CombineMulti(openOcean: Result<QuoteResult, Error>, oneInch: Result<QuoteResult, Error>,
                        kyber: Result<QuoteResult, Error>, zeroX: Result<QuoteResult, Error>): (r: Result<MultiQuote, Error>)
    ensures r.Ok? <==> openOcean.Ok? && oneInch.Ok? && kyber.Ok? && zeroX.Ok?
    ensures r.Ok? ==> r.value == MultiQuote(openOcean.value, oneInch.value, kyber.value, zeroX.value)
    ensures openOcean.Err? ==> r == Err(openOcean.error)
    ensures openOcean.Ok? && oneInch.Err? ==> r == Err(oneInch.error)
    ensures openOcean.Ok? && oneInch.Ok? && kyber.Err? ==> r == Err(kyber.error)
    ensures openOcean.Ok? && oneInch.Ok? && kyber.Ok? && zeroX.Err? ==> r == Err(zeroX.error)
  {
    if openOcean.Err? then Err(openOcean.error)
    else if oneInch.Err? then Err(oneInch.error)
    else if kyber.Err? then Err(kyber.error)
    else if zeroX.Err? then Err(zeroX.error)
    else Ok(MultiQuote(openOcean.value, oneInch.value, kyber.value, zeroX.value))
  }

  /** The reply of an adapter call: its result, or 503 with its error. */
  function QuoteReply<T>(r: Result<T, Error>): (reply: Reply<T>)
    ensures r.Ok? ==> reply == Json(r.value)
    ensures r.Err? ==> reply == Unavailable(r.error)
  {
    match r
    case Ok(v) => Json(v)
    case Err(e) => Unavailable(e)
  }

  /** The outcomes of every upstream call one request may make, and the two
      clock readings each adapter takes. */
  datatype Upstreams = Upstreams(
    now: int, later: int,
    openOceanGas: Result<int, Error>, openOceanSwap: Result<OO.SwapResponse, Error>,
    oneInchGas: Result<int, Error>, oneInchQuotes: Result<OneInch.QuotesResponse, Error>,
    kyberRoutes: Result<Kyber.RoutesResponse, Error>, zeroXPrice: Result<ZeroX.PriceResponse, Error>)

  /** `/getamountout`: always the one shared proxy instance, whose gas price
      persists across requests. */
  method GetAmountOut(proxy: OO.OpenOceanAggregator, q: QuoteQuery, up: Upstreams)
    returns (reply: Reply<QuoteResult>, calls: seq<Outbound>)
    modifies proxy
    ensures ValidateQuote(q).Err? ==>
      reply == BadRequest(ValidateQuote(q).error) && calls == []
      && proxy.gasPrice == old(proxy.gasPrice) && proxy.lastCallGasPrice == old(proxy.lastCallGasPrice)
    // an unsupported network is a 503 with no outbound call
    ensures ValidateQuote(q).Ok? && OO.GetChainIdFromNetwork(ValidateQuote(q).value.network).Err? ==>
      && reply == Unavailable(UnsupportedNetwork(ValidateQuote(q).value.network)) && calls == []
      && proxy.gasPrice == old(proxy.gasPrice) && proxy.lastCallGasPrice == old(proxy.lastCallGasPrice)
    // the proxy's gas price persists across requests: within its window only the swap call is made
    ensures ValidateQuote(q).Ok? && OO.GetChainIdFromNetwork(ValidateQuote(q).value.network).Ok?
            && !OO.NeedsGasRefresh(old(proxy.gasPrice), old(proxy.lastCallGasPrice), up.now) ==>
      var r := ValidateQuote(q).value;
      && calls == [OpenOceanSwap(proxy.baseUri, OO.GetChainIdFromNetwork(r.network).value, r.tokenInAddress,
                                 r.tokenOutAddress, r.amountIn, old(proxy.gasPrice).value)]
      && reply == QuoteReply(Project(up.openOceanSwap, OO.ProjectSwap))
      && proxy.gasPrice == old(proxy.gasPrice) && proxy.lastCallGasPrice == old(proxy.lastCallGasPrice)
    // a due refresh whose gas call fails is a 503 with that error, after the gas call only
    ensures ValidateQuote(q).Ok? && OO.GetChainIdFromNetwork(ValidateQuote(q).value.network).Ok?
            && OO.NeedsGasRefresh(old(proxy.gasPrice), old(proxy.lastCallGasPrice), up.now) && up.openOceanGas.Err? ==>
      && reply == Unavailable(up.openOceanGas.error)
      && calls == [OpenOceanGasPrice(OO.GetChainIdFromNetwork(ValidateQuote(q).value.network).value)]
      && proxy.gasPrice == old(proxy.gasPrice) && proxy.lastCallGasPrice == old(proxy.lastCallGasPrice)
    // a due refresh that succeeds is stored in the proxy, then the swap uses it
    ensures ValidateQuote(q).Ok? && OO.GetChainIdFromNetwork(ValidateQuote(q).value.network).Ok?
            && OO.NeedsGasRefresh(old(proxy.gasPrice), old(proxy.lastCallGasPrice), up.now) && up.openOceanGas.Ok? ==>
      var r := ValidateQuote(q).value;
      var chainId := OO.GetChainIdFromNetwork(r.network).value;
      && calls == [OpenOceanGasPrice(chainId),
                   OpenOceanSwap(proxy.baseUri, chainId, r.tokenInAddress, r.tokenOutAddress, r.amountIn,
                                 up.openOceanGas.value)]
      && reply == QuoteReply(Project(up.openOceanSwap, OO.ProjectSwap))
      && proxy.gasPrice == Some(up.openOceanGas.value) && proxy.lastCallGasPrice == up.later
    // in every case: reply, calls and the proxy's new fields are those of one `Quote` step on its old fields
    ensures ValidateQuote(q).Ok? ==>
      var r := ValidateQuote(q).value;
      var step := OO.Quote(old(proxy.gasPrice), old(proxy.lastCallGasPrice), proxy.baseUri, r.network,
                           r.tokenInAddress, r.tokenOutAddress, r.amountIn, up.now, up.later,
                           up.openOceanGas, up.openOceanSwap);
      && reply == QuoteReply(step.run.result) && calls == step.run.calls
      && proxy.gasPrice == step.gasPrice && proxy.lastCallGasPrice == step.lastCallGasPrice
  {
    calls := [];
    var req := ValidateQuote(q);
    if req.Err? {
      reply := BadRequest(req.error);
      return;
    }
    var r := req.value;
    var run := proxy.GetAmountOut(r.network, r.tokenInAddress, r.tokenOutAddress, r.amountIn,
                                  up.now, up.later, up.openOceanGas, up.openOceanSwap);
    calls := run.calls;
    reply := QuoteReply(run.result);
  }

  /** `/getspecificamountout`: validate, select by name, and call a new
      instance of the chosen adapter (1inch through the shared gas cache). */
  method GetSpecificAmountOut(gas: GasPriceCache, q: SpecificQuery, up: Upstreams)
    returns (reply: Reply<QuoteResult>, calls: seq<Outbound>)
    requires gas.Valid()
    modifies gas
    ensures gas.Valid()
    ensures ValidateSpecific(q).Err? ==>
      reply == BadRequest(ValidateSpecific(q).error) && calls == [] && gas.entries == old(gas.entries)
    // an unknown aggregator name invokes no adapter
    ensures ValidateSpecific(q).Ok? && SelectAggregator(ValidateSpecific(q).value.1).None? ==>
      reply == BadRequest("unknown aggregator") && calls == [] && gas.entries == old(gas.entries)
    // only 1inch touches the gas cache
    ensures ValidateSpecific(q).Ok? && SelectAggregator(ValidateSpecific(q).value.1) != Some(OneInchKind) ==>
      gas.entries == old(gas.entries)
    ensures ValidateSpecific(q).Ok? && SelectAggregator(ValidateSpecific(q).value.1) == Some(KyberKind) ==>
      var r := ValidateSpecific(q).value.0;
      var run := Kyber.GetAmountOut(r.network, r.tokenInAddress, r.tokenOutAddress, r.amountIn, up.kyberRoutes);
      reply == QuoteReply(run.result) && calls == run.calls
    ensures ValidateSpecific(q).Ok? && SelectAggregator(ValidateSpecific(q).value.1) == Some(ZeroXKind) ==>
      var r := ValidateSpecific(q).value.0;
      var run := ZeroX.GetAmountOut(r.network, r.tokenInAddress, r.tokenOutAddress, r.amountIn, up.zeroXPrice);
      reply == QuoteReply(run.result) && calls == run.calls
    // 1inch goes through the shared gas cache
    ensures ValidateSpecific(q).Ok? && SelectAggregator(ValidateSpecific(q).value.1) == Some(OneInchKind) ==>
      var r := ValidateSpecific(q).value.0;
      var run := OneInch.Quote(old(gas.entries), r.network, r.tokenInAddress, r.tokenOutAddress, r.amountIn,
                               up.now, up.later, up.oneInchGas, up.oneInchQuotes);
      && reply == QuoteReply(run.result) && calls == run.calls
      && gas.entries == GasPriceGwei(old(gas.entries), r.network, up.now, up.later, up.oneInchGas).entries
    // a new OpenOcean instance has no gas price, so it always fetches one first
    ensures ValidateSpecific(q).Ok? && SelectAggregator(ValidateSpecific(q).value.1) == Some(OpenOceanKind) ==>
      var r := ValidateSpecific(q).value.0;
      var chainId := OO.GetChainIdFromNetwork(r.network);
      && (chainId.Err? ==> reply == Unavailable(UnsupportedNetwork(r.network)) && calls == [])
      && (chainId.Ok? && up.openOceanGas.Err? ==>
            reply == Unavailable(up.openOceanGas.error) && calls == [OpenOceanGasPrice(chainId.value)])
      && (chainId.Ok? && up.openOceanGas.Ok? ==>
            && calls == [OpenOceanGasPrice(chainId.value),
                         OpenOceanSwap(OO.OpenOceanBaseUri, chainId.value, r.tokenInAddress, r.tokenOutAddress,
                                       r.amountIn, up.openOceanGas.value)]
            && reply == QuoteReply(Project(up.openOceanSwap, OO.ProjectSwap)))
  {
    calls := [];
    var checked := ValidateSpecific(q);
    if checked.Err? {
      reply := BadRequest(checked.error);
      return;
    }
    var (r, aggregator) := checked.value;
    var agg := SelectAggregator(aggregator);
    if agg.None? {
      reply := BadRequest("unknown aggregator");
      return;
    }
    var run: AdapterRun;
    match agg.value {
      case OneInchKind =>
        run := OneInch.GetAmountOut(gas, r.network, r.tokenInAddress, r.tokenOutAddress, r.amountIn,
                                    up.now, up.later, up.oneInchGas, up.oneInchQuotes);
      case KyberKind =>
        run := Kyber.GetAmountOut(r.network, r.tokenInAddress, r.tokenOutAddress, r.amountIn, up.kyberRoutes);
      case OpenOceanKind =>
        var instance := new OO.OpenOceanAggregator();
        run := instance.GetAmountOut(r.network, r.tokenInAddress, r.tokenOutAddress, r.amountIn,
                                  up.now, up.later, up.openOceanGas, up.openOceanSwap);
      case ZeroXKind =>
        run := ZeroX.GetAmountOut(r.network, r.tokenInAddress, r.tokenOutAddress, r.amountIn, up.zeroXPrice);
    }
    calls := run.calls;
    reply := QuoteReply(run.result);
  }

  /** `/getamountoutmulti`: the proxy and new 1inch, Kyber and 0x adapters, all
      with the same arguments; the reply exists only if all four succeed. */
  method GetAmountOutMulti(proxy: OO.OpenOceanAggregator, gas: GasPriceCache, q: QuoteQuery, up: Upstreams)
    returns (reply: Reply<MultiQuote>, calls: seq<Outbound>)
    requires gas.Valid()
    modifies proxy, gas
    ensures gas.Valid()
    ensures ValidateQuote(q).Err? ==>
      && reply == BadRequest(ValidateQuote(q).error) && calls == [] && gas.entries == old(gas.entries)
      && proxy.gasPrice == old(proxy.gasPrice) && proxy.lastCallGasPrice == old(proxy.lastCallGasPrice)
    // all four adapters run on the same arguments, in array order, and the reply is their all-or-nothing combination
    ensures ValidateQuote(q).Ok? ==>
      var r := ValidateQuote(q).value;
      var openOcean := OO.Quote(old(proxy.gasPrice), old(proxy.lastCallGasPrice), proxy.baseUri, r.network,
                                r.tokenInAddress, r.tokenOutAddress, r.amountIn, up.now, up.later,
                                up.openOceanGas, up.openOceanSwap);
      var oneInch := OneInch.Quote(old(gas.entries), r.network, r.tokenInAddress, r.tokenOutAddress, r.amountIn,
                                   up.now, up.later, up.oneInchGas, up.oneInchQuotes);
      var kyber := Kyber.GetAmountOut(r.network, r.tokenInAddress, r.tokenOutAddress, r.amountIn, up.kyberRoutes);
      var zeroX := ZeroX.GetAmountOut(r.network, r.tokenInAddress, r.tokenOutAddress, r.amountIn, up.zeroXPrice);
      && reply == QuoteReply(CombineMulti(openOcean.run.result, oneInch.result, kyber.result, zeroX.result))
      && calls == openOcean.run.calls + oneInch.calls + kyber.calls + zeroX.calls
      && (reply.Json? <==> openOcean.run.result.Ok? && oneInch.result.Ok? && kyber.result.Ok? && zeroX.result.Ok?)
      && proxy.gasPrice == openOcean.gasPrice && proxy.lastCallGasPrice == openOcean.lastCallGasPrice
      && gas.entries == GasPriceGwei(old(gas.entries), r.network, up.now, up.later, up.oneInchGas).entries
    // Kyber and 0x see the validated arguments unchanged, and a failure of either fails the whole reply
    ensures ValidateQuote(q).Ok? ==>
      var r := ValidateQuote(q).value;
      var kyber := Kyber.GetAmountOut(r.network, r.tokenInAddress, r.tokenOutAddress, r.amountIn, up.kyberRoutes);
      var zeroX := ZeroX.GetAmountOut(r.network, r.tokenInAddress, r.tokenOutAddress, r.amountIn, up.zeroXPrice);
      && (kyber.result.Err? || zeroX.result.Err? ==> reply.Unavailable?)
      && (reply.Json? ==> reply.body.kyber == kyber.result.value && reply.body.zeroX == zeroX.result.value)
  {
    calls := [];
    var req := ValidateQuote(q);
    if req.Err? {
      reply := BadRequest(req.error);
      return;
    }
    var r := req.value;
    var openOcean := proxy.GetAmountOut(r.network, r.tokenInAddress, r.tokenOutAddress, r.amountIn,
                                        up.now, up.later, up.openOceanGas, up.openOceanSwap);
    var oneInch := OneInch.GetAmountOut(gas, r.network, r.tokenInAddress, r.tokenOutAddress, r.amountIn,
                                        up.now, up.later, up.oneInchGas, up.oneInchQuotes);
    var kyber := Kyber.GetAmountOut(r.network, r.tokenInAddress, r.tokenOutAddress, r.amountIn, up.kyberRoutes);
    var zeroX := ZeroX.GetAmountOut(r.network, r.tokenInAddress, r.tokenOutAddress, r.amountIn, up.zeroXPrice);
    calls := openOcean.calls + oneInch.calls + kyber.calls + zeroX.calls;
    reply := QuoteReply(CombineMulti(openOcean.result, oneInch.result, kyber.result, zeroX.result));
  }

  /** Two `/getamountout` requests served by the one proxy: when the first
      refreshed the gas price with a truthy value, a second request within
      120 seconds of that refresh, for any supported network, makes only its
      swap call, priced with the first request's gas price. */
  method TwoRequestsShareGasPrice(proxy: OO.OpenOceanAggregator, q: QuoteQuery, laterQ: QuoteQuery,
                                  up: Upstreams, laterUp: Upstreams)
    returns (firstCalls: seq<Outbound>, secondCalls: seq<Outbound>)
    requires laterUp.now <= up.later + OO.GasRefreshMs
    requires ValidateQuote(laterQ).Ok? && OO.GetChainIdFromNetwork(ValidateQuote(laterQ).value.network).Ok?
    modifies proxy
    ensures firstCalls != [] && firstCalls[0].OpenOceanGasPrice? && up.openOceanGas.Ok? && up.openOceanGas.value != 0 ==>
      var r := ValidateQuote(laterQ).value;
      secondCalls == [OpenOceanSwap(proxy.baseUri, OO.GetChainIdFromNetwork(r.network).value, r.tokenInAddress,
                                    r.tokenOutAddress, r.amountIn, up.openOceanGas.value)]
  {
    var first, second;
    first, firstCalls := GetAmountOut(proxy, q, up);
    second, secondCalls := GetAmountOut(proxy, laterQ, laterUp);
  }
}
