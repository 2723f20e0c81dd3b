/** src/controllers/BlockController.ts: the block-number to timestamp map,
    loaded from its file at start, filled on misses through `retry`, and
    written back by a dirty-flag-gated `writeToDisk`. */
module BlockController {
  import opened Common
  import opened Retry

  /** The attempt budget handed to `retry` for `getBlock`. */
  const BlockRetryBudget: int := 10

  const MissingBlockNumber: string := "blocknumber query param mandatory"
  const NoBlockData: string := "Could not find data for block"

  /** What `getBlock` resolves to: a block, or null for an unknown number. */
  datatype Block = Block(timestamp: int)

  type BlockMap = map<int, int>

  /** A stored timestamp counts only when it is truthy, so a stored 0 is a
      miss. */
  predicate IsHit(blocks: BlockMap, blockNumber: int) {
    blockNumber in blocks && blocks[blockNumber] != 0
  }

  /** `Number(req.query.blocknumber)` turned away: NaN (None) or zero. */
  predicate Rejected(blockNumber: Option<int>) {
    blockNumber.None? || blockNumber.value == 0
  }

  /** `retry(() => web3Provider.getBlock(blocknumber), [], 10)`. */
  function FetchBlock(blockNumber: int, rpc: seq<Result<Option<Block>, Error>>): (run: RetryRun<Outbound, Option<Block>, Error>)
    requires |rpc| >= BlockRetryBudget
    ensures 1 <= |run.calls| <= BlockRetryBudget
    ensures forall i :: 0 <= i < |run.calls| ==> run.calls[i] == GetBlock(blockNumber)
    // the result is the last attempt's outcome: a block, null, or its error
    ensures run.result == rpc[|run.calls| - 1]
    // every earlier attempt failed, and the fetch stops before the budget only on a success
    ensures forall k :: 0 <= k < |run.calls| - 1 ==> rpc[k].Err?
    ensures |run.calls| < BlockRetryBudget ==> run.result.Ok?
    ensures run.result.Err? ==> |run.calls| == BlockRetryBudget && run.result == rpc[BlockRetryBudget - 1]
  {
    RetryFromStart(rpc, GetBlock(blockNumber), BlockRetryBudget)
  }

  /** The cache held by the controller module, the `newData` flag and the
      contents of `blockcache.json` (None while the file does not exist). */
  class BlockCache {
    var blocks: BlockMap
    var newData: bool
    var file: Option<BlockMap>

    /** Module start: load the file if it exists, else start empty. */
    constructor Load(stored: Option<BlockMap>)
      ensures blocks == (if stored.Some? then stored.value else map[])
      ensures !newData && file == stored
    {
      blocks := if stored.Some? then stored.value else map[];
      newData := false;
      file := stored;
    }

    /** `writeToDisk`. The flag is cleared before the write, so it stays
        cleared when the write fails (`written` false). */
    method WriteToDisk(written: bool)
      modifies this
      ensures !newData && blocks == old(blocks)
      ensures file == (if old(newData) && written then Some(old(blocks)) else old(file))
    {
      if newData {
        newData := false;
        if written {
          file := Some(blocks);
        }
      }
    }

    /** The `/getblocktimestamp` handler. `rpc` gives the outcome of each
        `getBlock` attempt. */
    method GetBlockTimestamp(blockNumber: Option<int>, rpc: seq<Result<Option<Block>, Error>>)
      returns (reply: Reply<int>, calls: seq<Outbound>)
      requires |rpc| >= BlockRetryBudget
      modifies this
      ensures file == old(file)
      // NaN or 0: rejected with no RPC call and no state change
      ensures Rejected(blockNumber) ==>
        && reply == BadRequest(MissingBlockNumber) && calls == []
        && blocks == old(blocks) && newData == old(newData)
      // a truthy stored timestamp is served with no RPC call
      ensures !Rejected(blockNumber) && IsHit(old(blocks), blockNumber.value) ==>
        && reply == Json(old(blocks)[blockNumber.value]) && calls == []
        && blocks == old(blocks) && newData == old(newData)
      ensures !Rejected(blockNumber) && !IsHit(old(blocks), blockNumber.value) ==>
        var run := FetchBlock(blockNumber.value, rpc);
        && calls == run.calls
        // retries exhausted: 500, nothing changes
        && (run.result.Err? ==>
              reply == ServerError(NoBlockData) && blocks == old(blocks) && newData == old(newData))
        // null block: 400, nothing changes
        && (run.result == Ok(None) ==>
              reply == BadRequest(NoBlockData) && blocks == old(blocks) && newData == old(newData))
        // a block: only its entry is set, to its timestamp, and the map is dirty
        && (run.result.Ok? && run.result.value.Some? ==>
              var ts := run.result.value.value.timestamp;
              reply == Json(ts) && blocks == old(blocks)[blockNumber.value := ts] && newData)
    {
      calls := [];
      if blockNumber.None? || blockNumber.value == 0 {
        reply := BadRequest(MissingBlockNumber);
        return;
      }
      var n := blockNumber.value;
      if n in blocks && blocks[n] != 0 {
        reply := Json(blocks[n]);
        return;
      }
      var run := FetchBlock(n, rpc);
      calls := run.calls;
      if run.result.Err? {
        reply := ServerError(NoBlockData);
        return;
      }
      if run.result.value.None? {
        reply := BadRequest(NoBlockData);
        return;
      }
      var timestamp := run.result.value.value.timestamp;
      blocks := blocks[n := timestamp];
      newData := true;
      reply := Json(timestamp);
    }
  }

  /** A flush of a dirty cache followed by a load in a fresh instance gives
      back the flushed map; a flush of a clean cache writes nothing. */
  method FlushThenReload(c: BlockCache) returns (d: BlockCache)
    modifies c
    ensures fresh(d) && !d.newData
    ensures old(c.newData) ==> d.blocks == old(c.blocks)
    ensures !old(c.newData) ==> c.file == old(c.file)
  {
    c.WriteToDisk(true);
    d := new BlockCache.Load(c.file);
  }

  /** Two lookups of the same block: once a non-zero timestamp has been
      served, the second lookup gets it again with no RPC call. */
  method LookupTwice(c: BlockCache, blockNumber: Option<int>, rpc: seq<Result<Option<Block>, Error>>,
                     laterRpc: seq<Result<Option<Block>, Error>>)
    returns (first: Reply<int>, second: Reply<int>, secondCalls: seq<Outbound>)
    requires |rpc| >= BlockRetryBudget && |laterRpc| >= BlockRetryBudget
    modifies c
    ensures first.Json? && first.body != 0 ==> second == first && secondCalls == []
  {
    var firstCalls;
    first, firstCalls := c.GetBlockTimestamp(blockNumber, rpc);
    second, secondCalls := c.GetBlockTimestamp(blockNumber, laterRpc);
  }
}
