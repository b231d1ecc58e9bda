/** The `sejours` table as the scraper rewrites it (ScraperController.php,
    lines 150-156): the table is emptied, then the collected rows are
    inserted by batches of one hundred, as `array_chunk` cuts them. */
module SejourStore {
  import opened Seqs
  import opened Pricing

  /** Rows per insert statement. */
  const ChunkSize: nat := 100

  /** `array_chunk(s, 100)`: `s` cut, from the front, into pieces of
      `ChunkSize` elements, the last piece holding what remains. */
  function ArrayChunk<T>(s: seq<T>): (chunks: seq<seq<T>>)
    ensures |chunks| == (|s| + ChunkSize - 1) / ChunkSize
    ensures forall k :: 0 <= k < |chunks| ==> 0 < |chunks[k]| <= ChunkSize
    ensures forall k :: 0 <= k < |chunks| - 1 ==> |chunks[k]| == ChunkSize
    decreases |s|
  {
    if |s| == 0 then []
    else if |s| <= ChunkSize then [s]
    else [s[..ChunkSize]] + ArrayChunk(s[ChunkSize..])
  }

  /** Laying the chunks end to end gives back the input: nothing is lost,
      duplicated or reordered by the batching. */
  lemma {:induction false} ArrayChunkFlatten<T>(s: seq<T>)
    ensures Flatten(ArrayChunk(s)) == s
    decreases |s|
  {
    if |s| == 0 {
    } else if |s| <= ChunkSize {
      assert [s][..0] == [];
    } else {
      ArrayChunkFlatten(s[ChunkSize..]);
      var head := [s[..ChunkSize]];
      FlattenConcat(head, ArrayChunk(s[ChunkSize..]));
      assert head[..0] == [];
      assert Flatten(head) == s[..ChunkSize];
      assert s[..ChunkSize] + s[ChunkSize..] == s;
    }
  }

  /** The last chunk holds the remainder of the division by the chunk size,
      or a full chunk when the size divides the length. */
  lemma {:induction false} ArrayChunkLast<T>(s: seq<T>)
    requires |s| > 0
    ensures var chunks := ArrayChunk(s);
      |chunks[|chunks| - 1]| == if |s| % ChunkSize == 0 then ChunkSize else |s| % ChunkSize
    decreases |s|
  {
    if |s| > ChunkSize {
      ArrayChunkLast(s[ChunkSize..]);
    }
  }

  /** A class whose one field is the content of the `sejours` table, in
      insertion order (the auto-increment id and the timestamps are not
      kept). */
  class SejourTable {
    var rows: seq<Row>

    constructor (initial: seq<Row>)
      ensures rows == initial
    {
      rows := initial;
    }

    /** `Sejour::truncate()`: every row is deleted. */
    method Truncate()
      modifies this
      ensures rows == []
    {
      rows := [];
    }

    /** `Sejour::insert($chunk)`: the rows are appended in order. */
    method Insert(chunk: seq<Row>)
      modifies this
      ensures rows == old(rows) + chunk
    {
      rows := rows + chunk;
    }

    /** Lines 151-156: truncate, then one insert per chunk of one hundred.
        Returns the batches handed to the inserts; the table ends holding
        exactly `newRows`, whatever it held before. */
    method ReplaceAll(newRows: seq<Row>) returns (batches: seq<seq<Row>>)
      modifies this
      ensures batches == ArrayChunk(newRows)
      ensures rows == newRows
    {
      Truncate();
      batches := ArrayChunk(newRows);
      for n := 0 to |batches|
        invariant rows == Flatten(batches[..n])
      {
        Insert(batches[n]);
        FlattenPrefixStep(batches, n);
      }
      assert batches[..|batches|] == batches;
      ArrayChunkFlatten(newRows);
    }
  }

  /** Two hundred and fifty rows go in as three inserts of 100, 100 and 50. */
  lemma ChunksOf250<T>(s: seq<T>)
    requires |s| == 250
    ensures |ArrayChunk(s)| == 3
    ensures |ArrayChunk(s)[0]| == 100 && |ArrayChunk(s)[1]| == 100
    ensures |ArrayChunk(s)[2]| == 50
  {
    ArrayChunkLast(s);
  }
}
