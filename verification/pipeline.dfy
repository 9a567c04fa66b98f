/**
 * The chunked aggregation run: read a chunk into the buffer, cut the lines
 * read into blocks, count each block into block-local dictionaries, merge
 * each block's dictionaries and counter into the global ones, and repeat
 * until a read returns nothing; then pick the most frequent address.
 * The blocks of a chunk are processed one after another, in the order the
 * partitioner yields them (see `Tally.MergeOrderIrrelevant` for any order).
 */
module Pipeline {
  import opened Options
  import opened Counts
  import opened LogLine
  import opened Chunks
  import opened Tally

  /** Lines pulled from the log per read. */
  const ChunkSize: nat := 10000
  /** Passed to the partitioner, where it is used as the number of lines per block. */
  const MaxDegreeOfParallelism: nat := 12

  /**
   * Adds every entry of `local` into `global` with insert-or-add, one key
   * at a time, as the merge loops over a block-local dictionary do.
   */
  method AddInto<K>(global: map<K, nat>, local: map<K, nat>) returns (merged: map<K, nat>)
    ensures merged == AddAll(global, local)
  {
    merged := global;
    var pending := local.Keys;
    while pending != {}
      invariant pending <= local.Keys
      invariant merged == AddAll(global, local - pending)
      decreases pending
    {
      var k :| k in pending;
      assert local - (pending - {k}) == Upsert(local - pending, k, local[k]);
      UpsertAddAll(global, local - pending, k, local[k]);
      merged := Upsert(merged, k, local[k]);
      pending := pending - {k};
    }
    assert local - pending == local;
  }

  /** The run-wide results, updated in place by each block's merge. */
  class GlobalAggregate {
    var requestTypes: map<Method, nat>
    var ipAddresses: map<string, nat>
    var total4xxErrors: nat

    constructor ()
      ensures Snapshot() == Zero
    {
      requestTypes := map[];
      ipAddresses := map[];
      total4xxErrors := 0;
    }

    /** The current results as one value. */
    function Snapshot(): Totals
      reads this
    {
      Totals(requestTypes, ipAddresses, total4xxErrors)
    }

    /**
     * Merges one block's results: each method and address count is added
     * into the global one (inserted when new), and the 4xx counter is added.
     */
    method MergeBlock(local: Totals)
      modifies this
      ensures Snapshot() == Combine(old(Snapshot()), local)
    {
      requestTypes := AddInto(requestTypes, local.methods);
      ipAddresses := AddInto(ipAddresses, local.ips);
      total4xxErrors := total4xxErrors + local.clientErrors;
    }
  }

  /** One worker: counts the lines of its block into fresh local results. */
  method AggregateBlock(block: seq<string>) returns (local: Totals)
    ensures local == Aggregate(block)
  {
    var localRequestTypes: map<Method, nat> := map[];
    var localIpAddresses: map<string, nat> := map[];
    var local4xxErrors: nat := 0;
    for i := 0 to |block|
      invariant Totals(localRequestTypes, localIpAddresses, local4xxErrors) == Aggregate(block[..i])
    {
      assert block[..i + 1][..i] == block[..i];
      var parsed := Parse(block[i]);
      if parsed.Some? {
        var rec := parsed.value;
        localRequestTypes := Upsert(localRequestTypes, rec.verb, 1);
        localIpAddresses := Upsert(localIpAddresses, rec.ip, 1);
        if rec.status >= 400 && rec.status < 500 {
          local4xxErrors := local4xxErrors + 1;
        }
      }
    }
    assert block[..|block|] == block;
    local := Totals(localRequestTypes, localIpAddresses, local4xxErrors);
  }

  /**
   * An address with the largest count, or `None` (the default entry) when
   * no address was counted. Among equal counts the first one met is kept.
   */
  method MostFrequentIp(ips: map<string, nat>) returns (top: Option<(string, nat)>)
    ensures top.None? <==> ips == map[]
    ensures top.Some? ==> top.value.0 in ips && ips[top.value.0] == top.value.1
    ensures top.Some? ==> forall ip :: ip in ips ==> ips[ip] <= top.value.1
  {
    top := None;
    var pending := ips.Keys;
    while pending != {}
      invariant pending <= ips.Keys
      invariant top.None? <==> pending == ips.Keys
      invariant top.Some? ==> top.value.0 in ips && ips[top.value.0] == top.value.1
      invariant top.Some? ==> forall ip :: ip in ips && ip !in pending ==> ips[ip] <= top.value.1
      decreases pending
    {
      var ip :| ip in pending;
      if top.None? || ips[ip] > top.value.1 {
        top := Some((ip, ips[ip]));
      }
      pending := pending - {ip};
    }
    assert ips.Keys == {} ==> ips == map[];
  }

  /** Merging one more block's result extends the merged prefix of the blocks by that block. */
  lemma ChunkStep(start: Totals, blocks: seq<seq<string>>, j: nat)
    requires j < |blocks|
    ensures Combine(Combine(start, Aggregate(Flatten(blocks[..j]))), Aggregate(blocks[j]))
         == Combine(start, Aggregate(Flatten(blocks[..j + 1])))
  {
    assert blocks[..j + 1] == blocks[..j] + [blocks[j]];
    FlattenSnoc(blocks[..j], blocks[j]);
    AggregateAppend(Flatten(blocks[..j]), blocks[j]);
    CombineAssociates(start, Aggregate(Flatten(blocks[..j])), Aggregate(blocks[j]));
  }

  /**
   * One chunk: cut the lines read into blocks of `blockSize`, count each
   * block, and merge each block's results into the global ones.
   */
  method ProcessChunk(global: GlobalAggregate, chunk: seq<string>, blockSize: nat)
    modifies global
    ensures global.Snapshot() == Combine(old(global.Snapshot()), Aggregate(chunk))
  {
    var blocks := Partition(chunk, blockSize);
    ghost var start := global.Snapshot();
    for j := 0 to |blocks|
      invariant global.Snapshot() == Combine(start, Aggregate(Flatten(blocks[..j])))
    {
      var local := AggregateBlock(blocks[j]);
      global.MergeBlock(local);
      ChunkStep(start, blocks, j);
    }
    assert blocks[..|blocks|] == blocks;
  }

  /** A counted prefix of the log followed by the next lines read is a longer prefix. */
  lemma PrefixExtends(log: seq<string>, counted: seq<string>, i: nat, j: nat, next: seq<string>)
    requires i <= j <= |log| && counted == log[..i] && next == log[i..j]
    ensures counted + next == log[..j]
  {
  }

  /**
   * The chunk loop over the lines of a log, with a buffer of `chunkSize`
   * slots and blocks of `blockSize` lines. With a non-empty buffer the
   * result is the aggregate of the whole log, whatever the chunk and block
   * sizes; with an empty buffer the first read returns 0 and nothing is
   * counted. Only the `linesRead` slots filled by the latest read are
   * handed on, never what an earlier chunk left in the buffer.
   */
  method CountChunks(log: seq<string>, chunkSize: nat, blockSize: nat) returns (totals: Totals)
    ensures chunkSize > 0 ==> totals == Aggregate(log)
    ensures chunkSize == 0 ==> totals == Zero
  {
    var global := new GlobalAggregate();
    var reader := new LineReader(log);
    var linesBuffer := new string[chunkSize];
    var linesRead: nat := ReadLines(reader, linesBuffer);
    ghost var counted: seq<string> := [];
    while linesRead > 0
      invariant reader.Valid() && reader.lines == log
      invariant linesBuffer.Length == chunkSize
      invariant linesRead <= reader.pos && linesRead <= chunkSize
      invariant counted + linesBuffer[..linesRead] == log[..reader.pos]
      invariant global.Snapshot() == Aggregate(counted)
      invariant linesRead < chunkSize ==> reader.pos == |log|
      invariant chunkSize == 0 ==> reader.pos == 0
      decreases |log| - reader.pos + linesRead
    {
      var chunk := linesBuffer[..linesRead];
      ProcessChunk(global, chunk, blockSize);
      AggregateAppend(counted, chunk);
      counted := counted + chunk;
      ghost var before := reader.pos;
      linesRead := ReadLines(reader, linesBuffer);
      PrefixExtends(log, counted, before, reader.pos, linesBuffer[..linesRead]);
    }
    assert chunkSize > 0 ==> counted == log;
    assert chunkSize == 0 ==> counted == [];
    totals := global.Snapshot();
  }

  /** The whole run: the chunk loop, then the most frequent address of the final counts. */
  method Analyze(log: seq<string>, chunkSize: nat, blockSize: nat)
    returns (totals: Totals, top: Option<(string, nat)>)
    ensures chunkSize > 0 ==> totals == Aggregate(log)
    ensures chunkSize == 0 ==> totals == Zero
    ensures top.None? <==> totals.ips == map[]
    ensures top.Some? ==> top.value.0 in totals.ips && totals.ips[top.value.0] == top.value.1
    ensures top.Some? ==> forall ip :: ip in totals.ips ==> totals.ips[ip] <= top.value.1
  {
    totals := CountChunks(log, chunkSize, blockSize);
    top := MostFrequentIp(totals.ips);
  }

  /** The run with the fixed settings: 10000-line chunks cut into 12-line blocks. */
  method AnalyzeAccessLog(log: seq<string>) returns (totals: Totals, top: Option<(string, nat)>)
    ensures totals == Aggregate(log)
    ensures top.None? <==> totals.ips == map[]
    ensures top.Some? ==> top.value.0 in totals.ips && totals.ips[top.value.0] == top.value.1
    ensures top.Some? ==> forall ip :: ip in totals.ips ==> totals.ips[ip] <= top.value.1
  {
    totals, top := Analyze(log, ChunkSize, MaxDegreeOfParallelism);
  }
}
