/** src/utils/NetworkUtils.ts: the chain-id switch, the per-network gas-price
    cache with its 120-second window, and the gwei-to-wei scaling. */
module NetworkUtils {
  import opened Common

  /** Freshness window of a cached gas price, in milliseconds. */
  const GasCacheDurationMs: int := 120 * 1000

  /** `Number.MAX_SAFE_INTEGER`, the bound of `BigNumber.toNumber`. */
  const MaxSafeInteger: int := 9007199254740991

  /** `BigNumber.from(10).pow(9)`. */
  const WeiPerGwei: int := 1000000000

  /** `GetChainIdFromNetwork`: case-insensitive, three networks, else throw. */
  function ChainIdFromNetwork(network: string): (r: Result<int, Error>)
    ensures r.Ok? <==> ToLower(network) in {"eth", "gnosis", "arbitrum"}
    ensures r.Err? ==> r.error == UnsupportedNetwork(network)
    ensures ToLower(network) == "eth" ==> r == Ok(1)
    ensures ToLower(network) == "gnosis" ==> r == Ok(100)
    ensures ToLower(network) == "arbitrum" ==> r == Ok(42161)
  {
    match ToLower(network)
    case "eth" => Ok(1)
    case "gnosis" => Ok(100)
    case "arbitrum" => Ok(42161)
    case _ => Err(UnsupportedNetwork(network))
  }

  /** The lookup does not depend on letter case: any spelling that lower-cases
      to the same key gets the same answer. */
  lemma ChainIdIgnoresCase(a: string, b: string)
    requires ToLower(a) == ToLower(b)
    ensures ChainIdFromNetwork(a).Ok? <==> ChainIdFromNetwork(b).Ok?
    ensures ChainIdFromNetwork(a).Ok? ==> ChainIdFromNetwork(a) == ChainIdFromNetwork(b)
  {
  }

  /** In particular the lower-cased spelling is as good as the given one. */
  lemma ChainIdOfLowerCase(network: string)
    ensures ChainIdFromNetwork(ToLower(network)).Ok? <==> ChainIdFromNetwork(network).Ok?
    ensures ChainIdFromNetwork(network).Ok? ==> ChainIdFromNetwork(ToLower(network)) == ChainIdFromNetwork(network)
  {
    ToLowerIdempotent(network);
    ChainIdIgnoresCase(ToLower(network), network);
  }

  /** `GasCachedValue`. */
  datatype GasCachedValue = GasCachedValue(gasPriceGwei: int, checkDate: int)

  /** A lookup of `network` at time `now` goes upstream: no entry, or one
      older than the window. */
  predicate NeedsRefresh(entries: map<string, GasCachedValue>, network: string, now: int) {
    network !in entries || entries[network].checkDate < now - GasCacheDurationMs
  }

  /** Only networks with a chain id are ever stored. */
  ghost predicate OnlySupportedKeys(entries: map<string, GasCachedValue>) {
    forall k :: k in entries ==> ChainIdFromNetwork(k).Ok?
  }

  /** What one `GetGasPriceGWEI` call returns, calls upstream and leaves in
      the cache. */
  datatype GasLookup = GasLookup(result: Result<int, Error>, calls: seq<Outbound>, entries: map<string, GasCachedValue>)

  /** `GetGasPriceGWEI(network)` against the cache `entries`: `now` is the
      clock at the freshness check, `checkedAt` the clock when a fetched value
      is stored, `gasPrice` the outcome of the OpenOcean gas-price call. */
  function GasPriceGwei(entries: map<string, GasCachedValue>, network: string, now: int, checkedAt: int,
                        gasPrice: Result<int, Error>): (g: GasLookup)
    // a fresh entry is returned without any call and without change
    ensures !NeedsRefresh(entries, network, now) ==>
      g == GasLookup(Ok(entries[network].gasPriceGwei), [], entries)
    // an unsupported network throws before any call and stores nothing
    ensures NeedsRefresh(entries, network, now) && ChainIdFromNetwork(network).Err? ==>
      g == GasLookup(Err(UnsupportedNetwork(network)), [], entries)
    // otherwise exactly one gas-price call is made for the network's chain
    ensures NeedsRefresh(entries, network, now) && ChainIdFromNetwork(network).Ok? ==>
      g.calls == [OpenOceanGasPrice(ChainIdFromNetwork(network).value)]
    // a failed call stores nothing and propagates its error
    ensures NeedsRefresh(entries, network, now) && gasPrice.Err? ==>
      g.entries == entries && g.result.Err?
    ensures NeedsRefresh(entries, network, now) && ChainIdFromNetwork(network).Ok? && gasPrice.Err? ==>
      g.result == gasPrice
    // a successful refresh sets only this network's entry, to the value and the store time
    ensures NeedsRefresh(entries, network, now) && ChainIdFromNetwork(network).Ok? && gasPrice.Ok? ==>
      g.result == gasPrice && g.entries == entries[network := GasCachedValue(gasPrice.value, checkedAt)]
    // a success always concerns a supported network, and the invariant is kept
    ensures g.result.Ok? && OnlySupportedKeys(entries) ==> ChainIdFromNetwork(network).Ok?
    ensures OnlySupportedKeys(entries) ==> OnlySupportedKeys(g.entries)
  {
    if !NeedsRefresh(entries, network, now) then
      GasLookup(Ok(entries[network].gasPriceGwei), [], entries)
    else
      match ChainIdFromNetwork(network)
      case Err(e) => GasLookup(Err(e), [], entries)
      case Ok(chainId) =>
        var calls := [OpenOceanGasPrice(chainId)];
        match gasPrice
        case Err(e) => GasLookup(Err(e), calls, entries)
        case Ok(v) => GasLookup(Ok(v), calls, entries[network := GasCachedValue(v, checkedAt)])
  }

  /** `BigNumber.from(gwei).mul(10 ** 9).toNumber()`: exact integer scaling,
      throwing when the product leaves the safe-integer range. */
  function WeiFromGwei(gwei: int): (r: Result<int, Error>)
    ensures r.Ok? <==> -MaxSafeInteger <= gwei * WeiPerGwei <= MaxSafeInteger
    ensures r.Ok? ==> r.value == gwei * WeiPerGwei && r.value / WeiPerGwei == gwei
    ensures r.Err? ==> r.error == SafeIntegerOverflow
  {
    var wei := gwei * WeiPerGwei;
    if -MaxSafeInteger <= wei <= MaxSafeInteger then Ok(wei) else Err(SafeIntegerOverflow)
  }

  /** Every gas price from 0 to 9007199 gwei converts. */
  lemma WeiFromGweiInRange(gwei: int)
    requires 0 <= gwei <= MaxSafeInteger / WeiPerGwei
    ensures WeiFromGwei(gwei) == Ok(gwei * WeiPerGwei)
  {
    assert gwei * WeiPerGwei <= (MaxSafeInteger / WeiPerGwei) * WeiPerGwei;
  }

  /** A fresh entry for one network is a hit for exactly 120 seconds after it
      was stored, and other networks' entries are unaffected by the store. */
  lemma RefreshedEntryWindow(entries: map<string, GasCachedValue>, network: string, v: int, checkedAt: int,
                             other: string, now: int)
    requires other != network
    ensures var e := entries[network := GasCachedValue(v, checkedAt)];
      && (NeedsRefresh(e, network, now) <==> checkedAt < now - GasCacheDurationMs)
      && (NeedsRefresh(e, other, now) <==> NeedsRefresh(entries, other, now))
  {
  }

  /** Keys are the network as given, not lower-cased: a fresh "eth" entry
      does not serve "ETH". */
  lemma KeysAreCaseSensitive(entries: map<string, GasCachedValue>, now: int)
    requires "ETH" !in entries
    ensures NeedsRefresh(entries["eth" := GasCachedValue(1, now)], "ETH", now)
  {
  }

  /** A refresh is reused: for 120 seconds after a fetched gas price is
      stored, the next lookup of the same network returns it with no call and
      leaves the cache as it is. */
  lemma RefreshServesNextLookup(entries: map<string, GasCachedValue>, network: string, now: int, checkedAt: int,
                                gasPrice: Result<int, Error>, later: int, laterCheckedAt: int,
                                laterGasPrice: Result<int, Error>)
    requires later <= checkedAt + GasCacheDurationMs
    ensures var g := GasPriceGwei(entries, network, now, checkedAt, gasPrice);
      g.calls != [] && g.result.Ok? ==>
        GasPriceGwei(g.entries, network, later, laterCheckedAt, laterGasPrice) == GasLookup(g.result, [], g.entries)
  {
  }

  /** The module-level `gasPriceCache`. */
  class GasPriceCache {
    var entries: map<string, GasCachedValue>

    ghost predicate Valid()
      reads this
    {
      OnlySupportedKeys(entries)
    }

    constructor ()
      ensures Valid() && entries == map[]
    {
      entries := map[];
    }

    /** `GetGasPriceGWEI`, updating the cache in place. */
    method GetGasPriceGwei(network: string, now: int, checkedAt: int, gasPrice: Result<int, Error>)
      returns (r: Result<int, Error>, calls: seq<Outbound>)
      requires Valid()
      modifies this
      ensures Valid()
      ensures var g := GasPriceGwei(old(entries), network, now, checkedAt, gasPrice);
        r == g.result && calls == g.calls && entries == g.entries
    {
      calls := [];
      if NeedsRefresh(entries, network, now) {
        var chainId := ChainIdFromNetwork(network);
        if chainId.Err? {
          r := Err(chainId.error);
          return;
        }
        calls := [OpenOceanGasPrice(chainId.value)];
        if gasPrice.Err? {
          r := Err(gasPrice.error);
          return;
        }
        entries := entries[network := GasCachedValue(gasPrice.value, checkedAt)];
      }
      r := Ok(entries[network].gasPriceGwei);
    }

    /** `GetGasPriceWei`: the gwei lookup followed by the scaling. */
    method GetGasPriceWei(network: string, now: int, checkedAt: int, gasPrice: Result<int, Error>)
      returns (r: Result<int, Error>, calls: seq<Outbound>)
      requires Valid()
      modifies this
      ensures Valid()
      ensures var g := GasPriceGwei(old(entries), network, now, checkedAt, gasPrice);
        && calls == g.calls && entries == g.entries
        && r == (if g.result.Err? then Err(g.result.error) else WeiFromGwei(g.result.value))
    {
      var gwei;
      gwei, calls := GetGasPriceGwei(network, now, checkedAt, gasPrice);
      if gwei.Err? {
        r := Err(gwei.error);
        return;
      }
      r := WeiFromGwei(gwei.value);
    }
  }
}
