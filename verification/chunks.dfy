/**
 * Reading the log a chunk at a time into a fixed buffer, and cutting a chunk
 * into consecutive blocks for the workers.
 */
module Chunks {

  /** The concatenation of a sequence of blocks, in order. */
  function Flatten<T>(blocks: seq<seq<T>>): seq<T> {
    if blocks == [] then [] else blocks[0] + Flatten(blocks[1..])
  }

  /** Appending one block at the end appends its items at the end. */
  lemma {:induction false} FlattenSnoc<T>(blocks: seq<seq<T>>, b: seq<T>)
    ensures Flatten(blocks + [b]) == Flatten(blocks) + b
  {
    if blocks != [] {
      assert (blocks + [b])[1..] == blocks[1..] + [b];
      FlattenSnoc(blocks[1..], b);
    }
  }

  /** Flattening distributes over concatenation of block sequences. */
  lemma {:induction false} FlattenAppend<T>(xs: seq<seq<T>>, ys: seq<seq<T>>)
    ensures Flatten(xs + ys) == Flatten(xs) + Flatten(ys)
  {
    if xs != [] {
      assert (xs + ys)[1..] == xs[1..] + ys;
      FlattenAppend(xs[1..], ys);
    } else {
      assert xs + ys == ys;
    }
  }

  /**
   * Splits `source` into consecutive blocks of `blockSize` items, the last
   * holding the non-empty remainder. A block is emitted as soon as it holds
   * `blockSize` items, so with `blockSize == 0` no block is ever full and the
   * whole source comes out as a single block.
   */
  method Partition<T>(source: seq<T>, blockSize: nat) returns (blocks: seq<seq<T>>)
    ensures Flatten(blocks) == source
    ensures source == [] <==> blocks == []
    ensures forall i :: 0 <= i < |blocks| ==> 0 < |blocks[i]|
    ensures blockSize > 0 ==> forall i :: 0 <= i < |blocks| - 1 ==> |blocks[i]| == blockSize
    ensures blockSize > 0 ==> forall i :: 0 <= i < |blocks| ==> |blocks[i]| <= blockSize
    ensures blockSize == 0 ==> |blocks| <= 1
  {
    blocks := [];
    var block: seq<T> := [];
    for i := 0 to |source|
      invariant Flatten(blocks) + block == source[..i]
      invariant forall k :: 0 <= k < |blocks| ==> 0 < |blocks[k]|
      invariant blockSize > 0 ==> forall k :: 0 <= k < |blocks| ==> |blocks[k]| == blockSize
      invariant blockSize > 0 ==> |block| < blockSize
      invariant blockSize == 0 ==> blocks == []
    {
      block := block + [source[i]];
      if |block| == blockSize {
        FlattenSnoc(blocks, block);
        blocks := blocks + [block];
        block := [];
      }
    }
    if |block| > 0 {
      FlattenSnoc(blocks, block);
      blocks := blocks + [block];
    }
    assert source[..|source|] == source;
  }

  /** A line stream: the lines of the log and a cursor on the next one. */
  class LineReader {
    const lines: seq<string>
    var pos: nat

    ghost predicate Valid()
      reads this
    {
      pos <= |lines|
    }

    constructor (log: seq<string>)
      ensures Valid() && lines == log && pos == 0
    {
      lines := log;
      pos := 0;
    }

    function EndOfStream(): (end: bool)
      reads this
      requires Valid()
      ensures end <==> pos == |lines|
    {
      pos == |lines|
    }

    /** Returns the next line and moves the cursor past it. */
    method ReadLine() returns (line: string)
      requires Valid() && !EndOfStream()
      modifies this
      ensures Valid()
      ensures line == lines[old(pos)] && pos == old(pos) + 1
    {
      line := lines[pos];
      pos := pos + 1;
    }
  }

  /**
   * Fills `buffer` from the front with the next lines of the stream until
   * the buffer is full or the stream is at its end; returns how many slots
   * were written. Slots past that count keep whatever they held.
   */
  method ReadLines(reader: LineReader, buffer: array<string>) returns (count: nat)
    requires reader.Valid()
    modifies reader, buffer
    ensures reader.Valid()
    ensures count <= buffer.Length
    ensures reader.pos == old(reader.pos) + count
    ensures buffer[..count] == reader.lines[old(reader.pos)..reader.pos]
    ensures buffer[count..] == old(buffer[count..])
    ensures count < buffer.Length ==> reader.EndOfStream()
  {
    count := 0;
    while count < buffer.Length && !reader.EndOfStream()
      invariant reader.Valid()
      invariant count <= buffer.Length
      invariant reader.pos == old(reader.pos) + count
      invariant buffer[..count] == reader.lines[old(reader.pos)..reader.pos]
      invariant buffer[count..] == old(buffer[count..])
      decreases buffer.Length - count
    {
      var line := reader.ReadLine();
      buffer[count] := line;
      count := count + 1;
    }
  }
}
