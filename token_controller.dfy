/** src/controllers/TokenController.ts: the network to token to ERC-20
    metadata map, loaded from its file at start, filled on misses by three
    RPC reads, and written back by a dirty-flag-gated `writeToDisk`. */
module TokenController {
  import opened Common

  /** The networks with an RPC provider (`web3ProviderMapping`). */
  const KnownNetworks: set<string> := {"eth", "avax", "cro", "bsc", "matic", "gnosis"}

  /** `TokenInfos`. */
  datatype TokenInfos = TokenInfos(address: string, symbol: string, decimals: int, name: string)

  type TokenMap = map<string, map<string, TokenInfos>>

  /** The outcome of an ERC-20 `symbol()` or `name()` call: a string, a
      BAD_DATA error whose bytes32 payload decodes (or fails to), or any other
      error. */
  datatype StringCall = Returned(value: string) | BadData(decoded: Result<string, Error>) | Failed(error: Error)

  /** The try/catch around `symbol()` and `name()`: BAD_DATA falls back to
      the bytes32 decoding, anything else propagates. */
  function ReadString(call: StringCall): (r: Result<string, Error>)
    ensures call.Returned? ==> r == Ok(call.value)
    ensures call.BadData? ==> r == call.decoded
    ensures call.Failed? ==> r == Err(call.error)
  {
    match call
    case Returned(s) => Ok(s)
    case BadData(d) => d
    case Failed(e) => Err(e)
  }

  /** A hit: the network's sub-map exists and holds the token. */
  predicate IsHit(infos: TokenMap, networkKey: string, tokenKey: string) {
    networkKey in infos && tokenKey in infos[networkKey]
  }

  /** The map with the network's sub-map created, empty, when missing. */
  function WithNetwork(infos: TokenMap, networkKey: string): (m: TokenMap)
    ensures networkKey in m && m.Keys == infos.Keys + {networkKey}
    ensures forall n :: n in infos ==> m[n] == infos[n]
    ensures networkKey !in infos ==> m[networkKey] == map[]
  {
    if networkKey in infos then infos else infos[networkKey := map[]]
  }

  /** Every entry of `a` is still in `b`, unchanged. */
  ghost predicate Extends(a: TokenMap, b: TokenMap) {
    forall n, t :: n in a && t in a[n] ==> n in b && t in b[n] && b[n][t] == a[n][t]
  }

  /** The module's `tokenInfosCache`, its `newData` flag and the contents of
      `tokencache.json` (None while the file does not exist). */
  class TokenCache {
    var infos: TokenMap
    var newData: bool
    var file: Option<TokenMap>

    /** Module start: load the file if it exists, else start empty. */
    constructor Load(stored: Option<TokenMap>)
      ensures infos == (if stored.Some? then stored.value else map[])
      ensures !newData && file == stored
    {
      infos := if stored.Some? then stored.value else map[];
      newData := false;
      file := stored;
    }

    /** `writeToDisk`: a no-op unless dirty; the flag is cleared before the
        write, so it stays cleared when the write fails (`written` false). */
    method WriteToDisk(written: bool)
      modifies this
      ensures !newData && infos == old(infos)
      ensures file == (if old(newData) && written then Some(old(infos)) else old(file))
    {
      if newData {
        newData := false;
        if written {
          file := Some(infos);
        }
      }
    }

    /** The `/infos` handler. `decimals`, `symbol` and `name` are the outcomes
        of the three ERC-20 reads, consulted in that order and only on a
        miss. */
    method GetInfos(network: QueryParam, tokenAddress: QueryParam,
                    decimals: Result<int, Error>, symbol: StringCall, name: StringCall)
      returns (reply: Reply<TokenInfos>, calls: seq<Outbound>)
      modifies this
      ensures file == old(file)
      // stored entries are never overwritten or removed
      ensures Extends(old(infos), infos)
      ensures !Present(network) ==>
        reply == BadRequest("network query param mandatory") && calls == []
        && infos == old(infos) && newData == old(newData)
      ensures Present(network) && !Present(tokenAddress) ==>
        reply == BadRequest("tokenAddress query param mandatory") && calls == []
        && infos == old(infos) && newData == old(newData)
      // an unknown network is rejected before any cache read or RPC
      ensures Present(network) && Present(tokenAddress) && ToLower(Value(network)) !in KnownNetworks ==>
        reply == BadRequest(Value(network) + " is not known") && calls == []
        && infos == old(infos) && newData == old(newData)
      // a hit is served as stored
      ensures Present(network) && Present(tokenAddress) && ToLower(Value(network)) in KnownNetworks
              && IsHit(old(infos), ToLower(Value(network)), ToLower(Value(tokenAddress))) ==>
        reply == Json(old(infos)[ToLower(Value(network))][ToLower(Value(tokenAddress))]) && calls == []
        && infos == old(infos) && newData == old(newData)
      ensures Present(network) && Present(tokenAddress) && ToLower(Value(network)) in KnownNetworks
              && !IsHit(old(infos), ToLower(Value(network)), ToLower(Value(tokenAddress))) ==>
        Fetched(ToLower(Value(network)), ToLower(Value(tokenAddress)), old(infos), old(newData),
                decimals, symbol, name, reply, calls)
    {
      calls := [];
      if !Present(network) {
        reply := BadRequest("network query param mandatory");
        return;
      }
      var networkKey := ToLower(Value(network));
      if !Present(tokenAddress) {
        reply := BadRequest("tokenAddress query param mandatory");
        return;
      }
      var tokenAddressKey := ToLower(Value(tokenAddress));
      if networkKey !in KnownNetworks {
        reply := BadRequest(Value(network) + " is not known");
        return;
      }
      if !IsHit(infos, networkKey, tokenAddressKey) {
        reply, calls := FetchInfos(networkKey, tokenAddressKey, decimals, symbol, name);
        return;
      }
      reply := Json(infos[networkKey][tokenAddressKey]);
    }

    /** The outcome of the miss path, over the state before it. */
    ghost predicate Fetched(networkKey: string, tokenKey: string, before: TokenMap, wasDirty: bool,
                            decimals: Result<int, Error>, symbol: StringCall, name: StringCall,
                            reply: Reply<TokenInfos>, calls: seq<Outbound>)
      reads this
    {
      var dec := Erc20Decimals(networkKey, tokenKey);
      var sym := Erc20Symbol(networkKey, tokenKey);
      var nam := Erc20Name(networkKey, tokenKey);
      // the sub-map exists before the first RPC, whatever happens next
      if decimals.Err? then
        reply == Unavailable(decimals.error) && calls == [dec]
        && infos == WithNetwork(before, networkKey) && newData == wasDirty
      else if ReadString(symbol).Err? then
        reply == Unavailable(ReadString(symbol).error) && calls == [dec, sym]
        && infos == WithNetwork(before, networkKey) && newData == wasDirty
      else if ReadString(name).Err? then
        reply == Unavailable(ReadString(name).error) && calls == [dec, sym, nam]
        && infos == WithNetwork(before, networkKey) && newData == wasDirty
      else
        var entry := TokenInfos(tokenKey, ReadString(symbol).value, decimals.value, ReadString(name).value);
        && reply == Json(entry) && calls == [dec, sym, nam]
        && infos == WithNetwork(before, networkKey)[networkKey := WithNetwork(before, networkKey)[networkKey][tokenKey := entry]]
        && newData
    }

    /** The miss path: create the sub-map, read decimals, symbol and name,
        then store the entry and mark the map dirty. */
    method FetchInfos(networkKey: string, tokenKey: string,
                      decimals: Result<int, Error>, symbol: StringCall, name: StringCall)
      returns (reply: Reply<TokenInfos>, calls: seq<Outbound>)
      requires !IsHit(infos, networkKey, tokenKey)
      modifies this
      ensures file == old(file)
      ensures Extends(old(infos), infos)
      ensures Fetched(networkKey, tokenKey, old(infos), old(newData), decimals, symbol, name, reply, calls)
    {
      if networkKey !in infos {
        infos := infos[networkKey := map[]];
      }
      calls := [Erc20Decimals(networkKey, tokenKey)];
      if decimals.Err? {
        reply := Unavailable(decimals.error);
        return;
      }
      calls := calls + [Erc20Symbol(networkKey, tokenKey)];
      var symbolValue := ReadString(symbol);
      if symbolValue.Err? {
        reply := Unavailable(symbolValue.error);
        return;
      }
      calls := calls + [Erc20Name(networkKey, tokenKey)];
      var nameValue := ReadString(name);
      if nameValue.Err? {
        reply := Unavailable(nameValue.error);
        return;
      }
      var entry := TokenInfos(tokenKey, symbolValue.value, decimals.value, nameValue.value);
      infos := infos[networkKey := infos[networkKey][tokenKey := entry]];
      newData := true;
      reply := Json(entry);
    }
  }

  /** A flush of a dirty cache followed by a load in a fresh instance gives
      back the flushed map; a flush of a clean cache writes nothing. */
  method FlushThenReload(c: TokenCache) returns (d: TokenCache)
    modifies c
    ensures fresh(d) && !d.newData
    ensures old(c.newData) ==> d.infos == old(c.infos)
    ensures !old(c.newData) ==> c.file == old(c.file)
  {
    c.WriteToDisk(true);
    d := new TokenCache.Load(c.file);
  }

  /** Two lookups of the same token: once its metadata has been served, the
      second lookup (in any letter case) gets the same reply with no RPC
      call. */
  method LookupTwice(c: TokenCache, network: QueryParam, tokenAddress: QueryParam, laterNetwork: QueryParam,
                     laterTokenAddress: QueryParam, decimals: Result<int, Error>, symbol: StringCall, name: StringCall)
    returns (first: Reply<TokenInfos>, second: Reply<TokenInfos>, secondCalls: seq<Outbound>)
    requires Present(network) && Present(laterNetwork) && ToLower(Value(network)) == ToLower(Value(laterNetwork))
    requires Present(tokenAddress) && Present(laterTokenAddress)
    requires ToLower(Value(tokenAddress)) == ToLower(Value(laterTokenAddress))
    modifies c
    ensures first.Json? ==> second == first && secondCalls == []
  {
    var firstCalls;
    first, firstCalls := c.GetInfos(network, tokenAddress, decimals, symbol, name);
    second, secondCalls := c.GetInfos(laterNetwork, laterTokenAddress, decimals, symbol, name);
  }
}
