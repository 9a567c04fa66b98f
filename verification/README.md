# Chunked access-log aggregation, modelled in Dafny

This project models the core of a log parser that reads a large access log
in chunks and counts, over all lines that match the access-log pattern:

- the requests per method (GET, POST, PUT, DELETE);
- the requests per client address;
- the responses with a 4xx status.

It then reports the most frequent address. The program reads up to 10000
lines at a time into a reusable buffer and cuts each chunk into blocks. A
worker counts each block into block-local dictionaries. The worker then
merges them into the global dictionaries and the global 4xx counter.

Modules, one per file:

- `Options` (options.dfy): the optional-value datatype.
- `Counts` (counts.dfy): counting dictionaries. `Upsert` is insert-or-add;
  `AddAll` is the entrywise sum that a merge computes; `Total` sums all
  counts. Lemmas show that merging is commutative and associative, has the
  empty map as its unit, and conserves the total.
- `LogLine` (log_line.dfy): the request method, the parsed record, and
  `Parse`. `Parse` is a hand-written matcher that makes the same choice as
  the backtracking regular-expression engine for this pattern.
- `Chunks` (chunks.dfy): `Flatten`, the `Partition` method, the
  `LineReader` class (a line stream with a cursor) and `ReadLines`, which
  fills an `array<string>` buffer.
- `Tally` (tally.dfy): the `Totals` value, the one-pass specification
  `Aggregate`, the merge `Combine`, reference counts, and the lemmas that
  connect them.
- `Pipeline` (pipeline.dfy): the `GlobalAggregate` class that holds the
  global dictionaries and counter, the block worker, the merge loops, the
  chunk loop, and the most-frequent-address choice.

The central result is `Pipeline.CountChunks`: for any non-empty buffer size
and any block size, the final totals equal `Aggregate` of the whole log.
Neither size therefore changes the result. Stale buffer slots left by an
earlier, longer chunk never reach the workers. `Tally.MergeOrderIrrelevant`
shows that merging the blocks in any order gives the same totals. This is
why the model may run the parallel loop sequentially.

Three facts about the source shape the model:

- `Partition` is called with the parallelism degree, 12, as its block size
  (Resources/LogParser.cs:35). A chunk is therefore cut into blocks of 12
  lines, not into 12 blocks.
- The status group is any three digits, 000 to 999
  (Resources/LogParser.cs:19 and :51). Only statuses from 400 to 499 count
  as client errors.
- Only the update of the 4xx total runs under a lock
  (Resources/LogParser.cs:69-72). The dictionaries are concurrent ones, and
  neither the block-local counting nor the merge is one atomic step. The
  model runs the blocks one after another, so this does not show in it.

## Model

| member | source | states |
|---|---|---|
| `Counts.Upsert` | Resources/LogParser.cs:54-55 | insert-or-add: a new key gets the value, an existing key has it added; the key set grows by that key only, and no other count changes |
| `Counts.AddAllAt` | Resources/LogParser.cs:62-66 | after a merge, each key's count is its old global count (0 if absent) plus its local count; a key absent from the local map keeps its count; a key is present iff it was in either map |
| `Counts.AddAllEmpty` | Resources/LogParser.cs:39-40 | a block with nothing counted (fresh, empty local dictionaries) changes nothing when merged |
| `Counts.AddAllCommutes` | Resources/LogParser.cs:62-66 | merging two counting maps gives the same result in either order |
| `Counts.AddAllAssociates` | Resources/LogParser.cs:62-66 | merging three counting maps gives the same result however the merges are grouped |
| `Counts.TotalUpsert` | Resources/LogParser.cs:54-55 | inserting-or-adding `v` raises the sum of all counts by exactly `v` |
| `Counts.TotalAddAll` | Resources/LogParser.cs:62-66 | merging conserves counts: the sum of the merged map is the sum of the two parts |
| `LogLine.TokenLength` | Resources/LogParser.cs:19 | the address group: the length of the leading run of non-white-space characters, which is followed by white space or the end of the line |
| `LogLine.StatusValue` | Resources/LogParser.cs:51 | the three status digits read as a decimal number: its hundreds, tens and units digits are the three characters, so it is below 1000 |
| `LogLine.LastStatus` | Resources/LogParser.cs:19 | the greedy choice of status: the last position below the bound where quote, space and three digits start, or none when there is no such position |
| `LogLine.RequestMethod` | Resources/LogParser.cs:19 | the method alternation at one position: some method exactly when an opener with that method fits there before the status, and none otherwise |
| `LogLine.LastRequest` | Resources/LogParser.cs:19 | the greedy choice of request: the position and method of the last opener below the bound that fits before the status, with no opener fitting after it, or none when no opener fits |
| `LogLine.Parse` | Resources/LogParser.cs:45-51 | a match yields a status below 1000 and a non-empty address that is the line's leading non-white-space token, followed by a space |
| `LogLine.MatchRequestFound` | Resources/LogParser.cs:19 | the part of the pattern after the address matches the rest of a line exactly when some request opener fits before some status |
| `LogLine.ParseMatches` | Resources/LogParser.cs:45-46 | a line matches exactly when its leading token is non-empty and followed by a space, and the rest holds some request opener before some status |
| `LogLine.MethodUnique` | Resources/LogParser.cs:19 | no two of the four method names fit at the same position, so the alternation yields at most one method there |
| `LogLine.GreedyExists` | Resources/LogParser.cs:19 | whenever some opener fits before some status, the greedy choice exists: a last status, and a last opener fitting before it |
| `LogLine.MatchRequestGreedy` | Resources/LogParser.cs:19 | when the rest's last status is at `j` and its last fitting opener before it is for method `m`, the match yields `m` and the value of the digits at `j` |
| `LogLine.ParseGreedy` | Resources/LogParser.cs:45-51 | a line whose rest has its last status at `j` and its last fitting opener before it for method `m` parses to the leading token, `m` and the value of the digits at `j` |
| `Chunks.Partition` | Resources/LogParser.cs:108-122 | the blocks concatenate back to the source in order; no block is empty; an empty source gives no blocks; every block but the last has exactly `blockSize` items and none has more; with `blockSize` 0 everything is one block |
| `Chunks.LineReader.constructor` | Resources/LogParser.cs:25 | a stream over the log's lines with the cursor on the first line |
| `Chunks.LineReader.EndOfStream` | Resources/LogParser.cs:100 | end of stream exactly when the cursor is past the last line |
| `Chunks.LineReader.ReadLine` | Resources/LogParser.cs:102 | returns the line under the cursor and advances the cursor by one |
| `Chunks.ReadLines` | Resources/LogParser.cs:97-105 | returns `count <= buffer.Length`; the first `count` slots hold the next `count` lines of the stream, in order; the other slots are unchanged; the cursor advances by exactly `count`; a count short of the buffer length means the stream is at its end |
| `Tally.IpCounted` | Resources/LogParser.cs:43-55 | each address's aggregated count is the number of matching lines with that address, and the address is a key iff that number is positive |
| `Tally.MethodCounted` | Resources/LogParser.cs:43-54 | each method's aggregated count is the number of matching lines with that method, and the method is a key iff that number is positive |
| `Tally.ClientErrorsCounted` | Resources/LogParser.cs:56-57 | the 4xx counter is the number of matching lines with 400 <= status < 500, and never exceeds the number of matching lines |
| `Tally.CountsConserved` | Resources/LogParser.cs:43-55 | the method counts sum to the number of matching lines, and so do the address counts; non-matching lines add nothing |
| `Tally.CombineZero` | Resources/LogParser.cs:39-41 | an empty partial result is the unit of merging |
| `Tally.CombineCommutes` | Resources/LogParser.cs:62-72 | merging two partial results gives the same totals in either order |
| `Tally.CombineAssociates` | Resources/LogParser.cs:62-72 | merging is associative |
| `Tally.CombineConserves` | Resources/LogParser.cs:62-72 | the merged method and address counts sum to the sums of the two parts |
| `Tally.AggregateAppend` | Resources/LogParser.cs:31-35 | counting two runs of lines separately and merging gives the same totals as counting them together in one pass |
| `Tally.MergeAllFlatten` | Resources/LogParser.cs:34-72 | merging the block results of a partition gives the one-pass totals of the chunk the blocks concatenate to |
| `Tally.MergeOrderIrrelevant` | Resources/LogParser.cs:34-37 | any rearrangement of the blocks yields the same merged totals, so the order in which workers finish does not matter |
| `Pipeline.AddInto` | Resources/LogParser.cs:62-66 | the key-by-key insert-or-add loop over a local dictionary leaves the entrywise sum of the global and local maps |
| `Pipeline.GlobalAggregate.constructor` | Resources/LogParser.cs:14-16 | the global dictionaries start empty and the 4xx total at 0 |
| `Pipeline.GlobalAggregate.MergeBlock` | Resources/LogParser.cs:61-72 | the new global state is the old one merged with the block's result: both dictionaries added entrywise, the 4xx total raised by the local counter |
| `Pipeline.AggregateBlock` | Resources/LogParser.cs:37-59 | the worker's loop leaves the local dictionaries and counter equal to the one-pass aggregate of its block |
| `Pipeline.MostFrequentIp` | Resources/LogParser.cs:78 | none (the default entry) exactly when no address was counted; otherwise an address of the map with its count, and that count is at least every count in the map |
| `Pipeline.ChunkStep` | Resources/LogParser.cs:34-72 | merging one more block's result into the running totals gives the old totals merged with the one-pass aggregate of the blocks so far, now including that block |
| `Pipeline.ProcessChunk` | Resources/LogParser.cs:34-73 | after partitioning a chunk and merging every block, the global totals are the old ones merged with the chunk's one-pass aggregate |
| `Pipeline.CountChunks` | Resources/LogParser.cs:25-75 | with a non-empty buffer the final totals are the one-pass aggregate of the whole log, for every chunk size and block size; with an empty buffer nothing is counted |
| `Pipeline.Analyze` | Resources/LogParser.cs:25-78 | the totals of the chunk loop, plus an address with the maximal count, or none when no address was counted |
| `Pipeline.AnalyzeAccessLog` | Resources/LogParser.cs:3-5 | with the program's fixed settings (10000-line chunks, blocks of 12) the totals are the aggregate of the whole log, and the reported address has the maximal count |

## Left out

- Opening the file: the existence check, the `StreamReader` and its disposal.
  The log is the sequence of lines that `ReadLine` would return. Splitting
  the file text into lines is not modelled.
- Chunks.LineReader.ReadLine: requires a line to be left. The stream's
  own `ReadLine` returns null at the end, but its only caller checks for the
  end first.
- Console output, the stopwatch and the catch block that prints an error
  message. These are presentation, wall-clock time and error reporting only.
- Concurrency: the parallel loop, its degree limit, the thread safety of the
  concurrent dictionaries, and the lock around the 4xx total. The blocks are
  processed one after another, in the order the partitioner yields them.
  `Tally.MergeOrderIrrelevant` covers any other completion order.
- LogLine.Parse: its own contract states only the status range and the
  shape of the address. Which lines match is stated by `ParseMatches`. For
  every matching line `GreedyExists` gives the greedy choice of status and
  opener, and `ParseGreedy` states the record the match then yields. The matcher
  assumes lines contain no newline character, which lines from `ReadLine`
  never do. There, "any text" matches every character.
- LogLine.Parse: treats only ASCII 0-9 as digits. The regular-expression
  engine also accepts other Unicode decimal digits, and `int.Parse` would
  then throw, ending the run through the catch block. That failure path is
  not modelled.
- Pipeline.MostFrequentIp: does not fix which of several equally frequent
  addresses is reported. The source leaves this to the dictionary's
  enumeration order, which is unspecified.
- Counts are unbounded naturals. The source's 32-bit counters would wrap
  after 2^31 matching lines; that is not modelled.
