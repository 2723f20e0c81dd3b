/** src/controllers/PriceController.ts: the `/` price handler with its
    five-minute two-level cache, the network routing switch, and the two
    upstream normalisations (Krystal market data, CoinGecko token price). */
module PriceController {
  import opened Common
  import opened Retry
  import opened PriceModels

  /** `PRICE_CACHE_DURATION`: five minutes, in milliseconds. */
  const PriceCacheDurationMs: int := 5 * 60 * 1000

  /** The attempt budget handed to `retry` for each upstream fetch. */
  const PriceRetryBudget: int := 10

  /** A price field of an upstream JSON body: absent, or a number. */
  datatype PriceField = Absent | Number(v: real)

  predicate Falsy(f: PriceField) {
    f.Absent? || f.v == 0.0
  }

  /** Krystal `/v1/market` body: `data.marketData[*].price`. */
  datatype KrystalResponse = KrystalResponse(marketData: seq<PriceField>)

  /** CoinGecko `simple/token_price` body: token address to its `usd` field. */
  datatype CoinGeckoResponse = CoinGeckoResponse(data: map<string, PriceField>)

  /** `GetPriceFromKyber` once the HTTP body is in hand: zero when there is no
      usable first price, that price otherwise. */
  function PriceFromKrystal(resp: KrystalResponse): (price: real)
    ensures price == 0.0 <==> |resp.marketData| == 0 || Falsy(resp.marketData[0])
    ensures price != 0.0 ==> price == resp.marketData[0].v
  {
    if |resp.marketData| == 0 || Falsy(resp.marketData[0]) then 0.0 else resp.marketData[0].v
  }

  /** `GetPriceFromCoinGecko` once the HTTP body is in hand. An empty body
      gives zero; a non-empty body without the token throws (reading `.usd`
      of undefined); otherwise a falsy `usd` gives zero and a truthy one is
      returned. */
  function PriceFromCoinGecko(resp: CoinGeckoResponse, tokenAddress: string): (r: Result<real, Error>)
    ensures r.Err? <==> |resp.data| != 0 && tokenAddress !in resp.data
    ensures r.Err? ==> r.error == MissingField
    ensures r == Ok(0.0) <==> |resp.data| == 0 || (tokenAddress in resp.data && Falsy(resp.data[tokenAddress]))
    ensures r.Ok? && r.value != 0.0 ==> tokenAddress in resp.data && r.value == resp.data[tokenAddress].v
  {
    if |resp.data| == 0 then Ok(0.0)
    else if tokenAddress !in resp.data then Err(MissingField)
    else if Falsy(resp.data[tokenAddress]) then Ok(0.0)
    else Ok(resp.data[tokenAddress].v)
  }

  /** Where the routing switch sends a lower-cased network key. */
  datatype PriceSource = KyberKrystal | CoinGecko

  function Route(networkKey: string): (r: Option<PriceSource>)
    ensures r == Some(KyberKrystal) <==> networkKey == "eth"
    ensures r == Some(CoinGecko) <==> networkKey in {"cro", "near", "bsc", "matic", "avax"}
  {
    match networkKey
    case "eth" => Some(KyberKrystal)
    case "cro" => Some(CoinGecko)
    case "near" => Some(CoinGecko)
    case "bsc" => Some(CoinGecko)
    case "matic" => Some(CoinGecko)
    case "avax" => Some(CoinGecko)
    case _ => None
  }

  /** The `source` tag of a price response. */
  function SourceName(s: PriceSource): string {
    match s
    case KyberKrystal => "kyberkrystal"
    case CoinGecko => "coingecko"
  }

  /** The `/availablenetworks` list. Every network it names is routed by the
      price switch ("optimism" has a CoinGecko id but is not routed, and is
      not listed). */
  function AvailableNetworks(): (r: seq<string>)
    ensures forall i :: 0 <= i < |r| ==> Route(r[i]).Some?
    ensures forall n :: Route(n).Some? ==> n in r
  {
    ["eth", "cro", "near", "bsc", "matic", "avax"]
  }

  /** Every network the switch routes to CoinGecko has a chain id, so the
      handler's "missing chain id" reply is dead code. */
  lemma CoinGeckoRoutesHaveChainId(networkKey: string)
    requires Route(networkKey) == Some(CoinGecko)
    ensures CoinGeckoChainId(networkKey).Some?
  {
  }

  /** What one attempt of `GetPriceFromKyber` yields, given its HTTP
      outcome: a rejected call throws, a body is normalised. */
  function KrystalAttempt(raw: Result<KrystalResponse, Error>): Result<real, Error> {
    if raw.Err? then Err(raw.error) else Ok(PriceFromKrystal(raw.value))
  }

  /** What one attempt of `GetPriceFromCoinGecko` yields, given its HTTP
      outcome. */
  function CoinGeckoAttempt(raw: Result<CoinGeckoResponse, Error>, tokenAddress: string): Result<real, Error> {
    if raw.Err? then Err(raw.error) else PriceFromCoinGecko(raw.value, tokenAddress)
  }

  /** The attempts of the Krystal fetch, one per HTTP outcome. */
  function KrystalAttempts(raw: seq<Result<KrystalResponse, Error>>): (outs: seq<Result<real, Error>>)
    ensures |outs| == |raw|
  {
    seq(|raw|, i requires 0 <= i < |raw| => KrystalAttempt(raw[i]))
  }

  /** The attempts of the CoinGecko fetch, one per HTTP outcome. */
  function CoinGeckoAttempts(raw: seq<Result<CoinGeckoResponse, Error>>, tokenAddress: string): (outs: seq<Result<real, Error>>)
    ensures |outs| == |raw|
  {
    seq(|raw|, i requires 0 <= i < |raw| => CoinGeckoAttempt(raw[i], tokenAddress))
  }

  /** `retry(GetPriceFromKyber, [tokenAddressKey], 10)`. */
  function FetchFromKrystal(tokenKey: string, raw: seq<Result<KrystalResponse, Error>>): (run: RetryRun<Outbound, real, Error>)
    requires |raw| >= PriceRetryBudget
    ensures 1 <= |run.calls| <= PriceRetryBudget
    ensures forall i :: 0 <= i < |run.calls| ==> run.calls[i] == KrystalMarket(tokenKey)
    // the result is what the last attempt made yields: its HTTP error, or the normalised price of its body
    ensures run.result == KrystalAttempt(raw[|run.calls| - 1])
    ensures run.result.Ok? ==> raw[|run.calls| - 1].Ok? && run.result.value == PriceFromKrystal(raw[|run.calls| - 1].value)
    // every earlier attempt was a rejected HTTP call (a body is never retried)
    ensures forall k :: 0 <= k < |run.calls| - 1 ==> raw[k].Err?
    // the fetch stops before the budget only on a success
    ensures |run.calls| < PriceRetryBudget ==> run.result.Ok?
    // retries are exhausted before an error escapes, and it is the last HTTP error unchanged
    ensures run.result.Err? ==>
      |run.calls| == PriceRetryBudget && raw[PriceRetryBudget - 1] == Err(run.result.error)
  {
    var outs := KrystalAttempts(raw);
    var run := RetryFromStart(outs, KrystalMarket(tokenKey), PriceRetryBudget);
    assert forall k :: 0 <= k < |raw| ==> outs[k] == KrystalAttempt(raw[k]);
    assert forall k :: 0 <= k < |raw| ==> (outs[k].Err? <==> raw[k].Err?);
    run
  }

  /** `retry(GetPriceFromCoinGecko, [coingeckoChainId, tokenAddressKey], 10)`. */
  function FetchFromCoinGecko(chainId: string, tokenKey: string, raw: seq<Result<CoinGeckoResponse, Error>>): (run: RetryRun<Outbound, real, Error>)
    requires |raw| >= PriceRetryBudget
    ensures 1 <= |run.calls| <= PriceRetryBudget
    ensures forall i :: 0 <= i < |run.calls| ==> run.calls[i] == CoinGeckoTokenPrice(chainId, tokenKey)
    // the result is what the last attempt made yields: its HTTP error, the missing-token error, or the price
    ensures run.result == CoinGeckoAttempt(raw[|run.calls| - 1], tokenKey)
    ensures run.result.Ok? ==>
      raw[|run.calls| - 1].Ok? && run.result == PriceFromCoinGecko(raw[|run.calls| - 1].value, tokenKey)
    // every earlier attempt was rejected, or its body lacked the token
    ensures forall k :: 0 <= k < |run.calls| - 1 ==>
      raw[k].Err? || PriceFromCoinGecko(raw[k].value, tokenKey).Err?
    ensures |run.calls| < PriceRetryBudget ==> run.result.Ok?
    ensures run.result.Err? ==>
      && |run.calls| == PriceRetryBudget
      && run.result == (if raw[PriceRetryBudget - 1].Err? then Err(raw[PriceRetryBudget - 1].error)
                        else PriceFromCoinGecko(raw[PriceRetryBudget - 1].value, tokenKey))
  {
    var outs := CoinGeckoAttempts(raw, tokenKey);
    var run := RetryFromStart(outs, CoinGeckoTokenPrice(chainId, tokenKey), PriceRetryBudget);
    assert forall k :: 0 <= k < |raw| ==> outs[k] == CoinGeckoAttempt(raw[k], tokenKey);
    run
  }

  /** A cache hit: the entry exists and is at most five minutes old. */
  predicate IsHit(cache: PriceCacheMap, networkKey: string, tokenKey: string, now: int) {
    && networkKey in cache
    && tokenKey in cache[networkKey]
    && !(cache[networkKey][tokenKey].cacheDate < now - PriceCacheDurationMs)
  }

  /** Write one entry, creating the network's sub-map if needed. */
  function Store(cache: PriceCacheMap, networkKey: string, tokenKey: string, entry: CachedData): (c: PriceCacheMap)
    ensures networkKey in c && tokenKey in c[networkKey] && c[networkKey][tokenKey] == entry
    ensures c.Keys == cache.Keys + {networkKey}
    ensures forall n :: n in cache && n != networkKey ==> c[n] == cache[n]
    ensures forall t :: t in c[networkKey] && t != tokenKey ==> networkKey in cache && t in cache[networkKey] && c[networkKey][t] == cache[networkKey][t]
    ensures networkKey in cache ==> c[networkKey].Keys == cache[networkKey].Keys + {tokenKey}
  {
    var inner := if networkKey in cache then cache[networkKey] else map[];
    cache[networkKey := inner[tokenKey := entry]]
  }

  /** An entry just stored at time t is served, unchanged, to every lookup
      up to five minutes later, and is stale afterwards. */
  lemma StoredEntryIsHitWithinWindow(cache: PriceCacheMap, networkKey: string, tokenKey: string, entry: CachedData, now: int)
    ensures IsHit(Store(cache, networkKey, tokenKey, entry), networkKey, tokenKey, now)
        <==> now <= entry.cacheDate + PriceCacheDurationMs
    ensures Store(cache, networkKey, tokenKey, entry)[networkKey][tokenKey].priceResponse == entry.priceResponse
  {
  }

  /** Storing one entry changes no other (network, token) lookup. */
  lemma StoreLeavesOtherKeys(cache: PriceCacheMap, networkKey: string, tokenKey: string, entry: CachedData,
                             n: string, t: string, now: int)
    requires n != networkKey || t != tokenKey
    ensures IsHit(Store(cache, networkKey, tokenKey, entry), n, t, now) <==> IsHit(cache, n, t, now)
    ensures IsHit(cache, n, t, now) ==> Store(cache, networkKey, tokenKey, entry)[n][t] == cache[n][t]
  {
  }

  /** The upstream fetch the switch selects for a routed network. */
  function FetchFor(source: PriceSource, networkKey: string, tokenKey: string,
                    krystal: seq<Result<KrystalResponse, Error>>, coinGecko: seq<Result<CoinGeckoResponse, Error>>)
    : (run: RetryRun<Outbound, real, Error>)
    requires Route(networkKey) == Some(source)
    requires |krystal| >= PriceRetryBudget && |coinGecko| >= PriceRetryBudget
    ensures 1 <= |run.calls| <= PriceRetryBudget
  {
    match source
    case KyberKrystal => FetchFromKrystal(tokenKey, krystal)
    case CoinGecko => FetchFromCoinGecko(CoinGeckoChainIdMap[networkKey], tokenKey, coinGecko)
  }

  /** Both mandatory parameters are present and the lower-cased keys miss. */
  predicate Misses(cache: PriceCacheMap, network: QueryParam, tokenAddress: QueryParam, now: int) {
    Present(network) && Present(tokenAddress) &&
    !IsHit(cache, ToLower(Value(network)), ToLower(Value(tokenAddress)), now)
  }

  /** The price handler's state: the module-level `priceCache`. */
  class PriceService {
    var cache: PriceCacheMap

    constructor ()
      ensures cache == map[]
    {
      cache := map[];
    }

    /** The `/` handler. `now` is the clock at the freshness check and
        `storedAt` the clock when a fetched price is written; `krystal` and
        `coinGecko` give the HTTP outcome of each retry attempt. */
    method GetPrice(network: QueryParam, tokenAddress: QueryParam, now: int, storedAt: int,
                    krystal: seq<Result<KrystalResponse, Error>>, coinGecko: seq<Result<CoinGeckoResponse, Error>>)
      returns (reply: Reply<PriceResponse>, calls: seq<Outbound>)
      requires |krystal| >= PriceRetryBudget && |coinGecko| >= PriceRetryBudget
      modifies this
      ensures !Present(network) ==>
        reply == BadRequest("network query param mandatory") && calls == [] && cache == old(cache)
      ensures Present(network) && !Present(tokenAddress) ==>
        reply == BadRequest("tokenAddress query param mandatory") && calls == [] && cache == old(cache)
      // a fresh entry is served as stored, with no outbound call
      ensures Present(network) && Present(tokenAddress) && !Misses(old(cache), network, tokenAddress, now) ==>
        var nk, tk := ToLower(Value(network)), ToLower(Value(tokenAddress));
        reply == Json(old(cache)[nk][tk].priceResponse) && calls == [] && cache == old(cache)
      // an unrouted network fails with no outbound call and no cache change
      ensures Misses(old(cache), network, tokenAddress, now) && Route(ToLower(Value(network))).None? ==>
        reply == Unavailable(UnknownPriceNetwork(Value(network))) && calls == [] && cache == old(cache)
      // a routed miss fetches through retry and replies with what it got
      ensures Misses(old(cache), network, tokenAddress, now) && Route(ToLower(Value(network))).Some? ==>
        var nk, tk := ToLower(Value(network)), ToLower(Value(tokenAddress));
        var source := Route(nk).value;
        var run := FetchFor(source, nk, tk, krystal, coinGecko);
        && calls == run.calls
        && (run.result.Err? ==> reply == Unavailable(run.result.error) && cache == old(cache))
        && (run.result.Ok? ==> reply == Json(PriceResponse(run.result.value, SourceName(source))))
        // a zero price is returned but never stored
        && (run.result == Ok(0.0) ==> cache == old(cache))
        // a non-zero price is stored at the store time, overwriting only its own entry
        && (run.result.Ok? && run.result.value != 0.0 ==>
              cache == Store(old(cache), nk, tk, CachedData(storedAt, PriceResponse(run.result.value, SourceName(source)))))
    {
      calls := [];
      if !Present(network) {
        reply := BadRequest("network query param mandatory");
        return;
      }
      if !Present(tokenAddress) {
        reply := BadRequest("tokenAddress query param mandatory");
        return;
      }
      var networkKey := ToLower(Value(network));
      var tokenAddressKey := ToLower(Value(tokenAddress));

      if IsHit(cache, networkKey, tokenAddressKey, now) {
        reply := Json(cache[networkKey][tokenAddressKey].priceResponse);
        return;
      }

      var source := Route(networkKey);
      if source.None? {
        reply := Unavailable(UnknownPriceNetwork(Value(network)));
        return;
      }
      reply, calls := Refresh(source.value, networkKey, tokenAddressKey, storedAt, krystal, coinGecko);
    }

    /** Write one entry in place, creating the network's sub-map first when
        it is missing. */
    method Put(networkKey: string, tokenAddressKey: string, entry: CachedData)
      modifies this
      ensures cache == Store(old(cache), networkKey, tokenAddressKey, entry)
    {
      if networkKey !in cache {
        cache := cache[networkKey := map[]];
      }
      cache := cache[networkKey := cache[networkKey][tokenAddressKey := entry]];
    }

    /** The miss path of the `/` handler for a routed network: fetch through
        `retry`, reply with the outcome, and store only a non-zero price. */
    method Refresh(source: PriceSource, networkKey: string, tokenAddressKey: string, storedAt: int,
                   krystal: seq<Result<KrystalResponse, Error>>, coinGecko: seq<Result<CoinGeckoResponse, Error>>)
      returns (reply: Reply<PriceResponse>, calls: seq<Outbound>)
      requires Route(networkKey) == Some(source)
      requires |krystal| >= PriceRetryBudget && |coinGecko| >= PriceRetryBudget
      modifies this
      ensures var run := FetchFor(source, networkKey, tokenAddressKey, krystal, coinGecko);
        && calls == run.calls
        && (run.result.Err? ==> reply == Unavailable(run.result.error) && cache == old(cache))
        && (run.result.Ok? ==> reply == Json(PriceResponse(run.result.value, SourceName(source))))
        && (run.result == Ok(0.0) ==> cache == old(cache))
        && (run.result.Ok? && run.result.value != 0.0 ==>
              cache == Store(old(cache), networkKey, tokenAddressKey,
                             CachedData(storedAt, PriceResponse(run.result.value, SourceName(source)))))
    {
      var run: RetryRun<Outbound, real, Error>;
      if source == KyberKrystal {
        run := FetchFromKrystal(tokenAddressKey, krystal);
      } else {
        var chainId := CoinGeckoChainId(networkKey);
        if chainId.None? {
          // the table covers every network routed here
          assert false;
          reply := BadRequest("amountIn query param mandatory");
          return;
        }
        run := FetchFromCoinGecko(chainId.value, tokenAddressKey, coinGecko);
      }
      calls := run.calls;
      if run.result.Err? {
        reply := Unavailable(run.result.error);
        return;
      }
      var priceResponse := PriceResponse(run.result.value, SourceName(source));
      if priceResponse.priceUSD != 0.0 {
        Put(networkKey, tokenAddressKey, CachedData(storedAt, priceResponse));
      }
      reply := Json(priceResponse);
    }
  }

  /** Two lookups of the same token: once a fetched non-zero price has been
      stored, a second lookup within five minutes of the store gets the same
      reply and makes no outbound call. */
  method LookupTwice(s: PriceService, network: QueryParam, tokenAddress: QueryParam, now: int, storedAt: int,
                     later: int, krystal: seq<Result<KrystalResponse, Error>>,
                     coinGecko: seq<Result<CoinGeckoResponse, Error>>)
    returns (first: Reply<PriceResponse>, second: Reply<PriceResponse>, firstCalls: seq<Outbound>,
             secondCalls: seq<Outbound>)
    requires |krystal| >= PriceRetryBudget && |coinGecko| >= PriceRetryBudget
    requires later <= storedAt + PriceCacheDurationMs
    modifies s
    ensures firstCalls != [] && first.Json? && first.body.priceUSD != 0.0 ==> second == first && secondCalls == []
  {
    first, firstCalls := s.GetPrice(network, tokenAddress, now, storedAt, krystal, coinGecko);
    if firstCalls != [] && first.Json? && first.body.priceUSD != 0.0 {
      var nk, tk := ToLower(Value(network)), ToLower(Value(tokenAddress));
      StoredEntryIsHitWithinWindow(old(s.cache), nk, tk, CachedData(storedAt, first.body), later);
    }
    second, secondCalls := s.GetPrice(network, tokenAddress, later, later, krystal, coinGecko);
  }
}
