/** src/models/PriceModels.ts: the CoinGecko platform table and the shapes of
    the two-level price cache. */
module PriceModels {
  import opened Common

  /** `coinGeckoChainIdMap`: network key to CoinGecko asset-platform id. */
  const CoinGeckoChainIdMap: map<string, string> := map[
    "eth" := "ethereum",
    "avax" := "avalanche",
    "matic" := "polygon-pos",
    "bsc" := "binance-smart-chain",
    "near" := "aurora",
    "cro" := "cronos",
    "optimism" := "optimistic-ethereum"
  ]

  /** `IPriceResponse`. Prices are kept abstract: the core only tests them
      against zero. */
  datatype PriceResponse = PriceResponse(priceUSD: real, source: string)

  /** `ICachedData`. */
  datatype CachedData = CachedData(cacheDate: int, priceResponse: PriceResponse)

  /** `IPriceCache`: network key to token key to cached entry. */
  type PriceCacheMap = map<string, map<string, CachedData>>

  /** `coinGeckoChainIdMap[network]`: an exact-key lookup, undefined for
      anything not in the table. */
  function CoinGeckoChainId(network: string): (r: Option<string>)
    ensures r.Some? <==> network in {"eth", "avax", "matic", "bsc", "near", "cro", "optimism"}
    ensures r.Some? ==> r.value != "" && r.value == CoinGeckoChainIdMap[network]
  {
    if network in CoinGeckoChainIdMap then Some(CoinGeckoChainIdMap[network]) else None
  }

  /** The table holds exactly seven entries, all with non-empty ids. */
  lemma CoinGeckoTableContents()
    ensures CoinGeckoChainIdMap.Keys == {"eth", "avax", "matic", "bsc", "near", "cro", "optimism"}
    ensures CoinGeckoChainIdMap["near"] == "aurora" && CoinGeckoChainIdMap["cro"] == "cronos"
    ensures forall k :: k in CoinGeckoChainIdMap ==> CoinGeckoChainIdMap[k] != ""
  {
  }

  /** Every key of the table is already lower case, so a spelling with a
      capital letter has no id: the caller must lower-case first. */
  lemma CoinGeckoKeysAreLowerCase(network: string)
    ensures CoinGeckoChainId(network).Some? ==> IsLower(network) && ToLower(network) == network
  {
    if CoinGeckoChainId(network).Some? {
      ToLowerIdempotent(network);
    }
  }

  /** An instance of the above: "ETH" misses, its lower-cased form hits. */
  lemma CoinGeckoLookupIsExact()
    ensures CoinGeckoChainId("ETH") == None && CoinGeckoChainId(ToLower("ETH")) == Some("ethereum")
  {
    assert ToLower("ETH") == "eth";
  }
}
