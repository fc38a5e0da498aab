/** How a document is cut into chunks: a short first one, then equal ones, then what is left. */
module DocumentChunks {
  import opened Common

  type byte = b: int | 0 <= b < 256

  const FIRST_CHUNK: nat := 8 * 1024
  const CHUNK: nat := 16 * 1024

  datatype Range = Range(start: nat, length: nat, last: bool)

  function ChunkCount(size: nat): nat {
    if size == 0 then 0
    else if size <= FIRST_CHUNK then 1
    else 1 + (size - FIRST_CHUNK + CHUNK - 1) / CHUNK
  }

  function ChunkRange(size: nat, index: nat): Option<Range> {
    if index >= ChunkCount(size) then None
    else
      var start := if index == 0 then 0 else FIRST_CHUNK + (index - 1) * CHUNK;
      var maximum := if index == 0 then FIRST_CHUNK else CHUNK;
      Some(Range(start, Min(maximum, size - start), index == ChunkCount(size) - 1))
  }

  /** The bytes before chunk `index`. */
  function Before(size: nat, index: nat): nat
    requires index <= ChunkCount(size)
  {
    if index == ChunkCount(size) then size else ChunkRange(size, index).value.start
  }

  function Chunk(doc: seq<byte>, index: nat): seq<byte>
    requires index < ChunkCount(|doc|)
  {
    RangeInside(|doc|, index);
    var r := ChunkRange(|doc|, index).value;
    doc[r.start..r.start + r.length]
  }

  lemma {:induction false} RangeInside(size: nat, index: nat)
    requires index < ChunkCount(size)
    ensures var r := ChunkRange(size, index).value;
      r.start < size && 1 <= r.length && r.start + r.length <= size && Before(size, index) == r.start
      && Before(size, index + 1) == r.start + r.length
      && (r.last <==> r.start + r.length == size)
  {
    var n := ChunkCount(size);
    if index > 0 && index < n - 1 {
      assert (index - 1) * CHUNK + CHUNK == index * CHUNK;
    }
  }

  function Chunks(doc: seq<byte>, n: nat): (r: seq<seq<byte>>)
    requires n <= ChunkCount(|doc|)
    ensures |r| == n
  {
    if n == 0 then [] else Chunks(doc, n - 1) + [Chunk(doc, n - 1)]
  }

  /** The first `n` chunks are, one after the other, the bytes before chunk `n`; all of them are the document. */
  lemma {:induction false} ChunksPartition(doc: seq<byte>, n: nat)
    requires n <= ChunkCount(|doc|)
    ensures Before(|doc|, n) <= |doc|
    ensures Before(|doc|, n) == |doc| <==> n == ChunkCount(|doc|)
    ensures Flat(Chunks(doc, n)) == doc[..Before(|doc|, n)]
  {
    if n > 0 {
      ChunksPartition(doc, n - 1);
      NextChunkJoins(doc, n - 1);
    }
  }

  lemma {:induction false} NextChunkJoins(doc: seq<byte>, n: nat)
    requires n < ChunkCount(|doc|)
    ensures Before(|doc|, n) <= Before(|doc|, n + 1) <= |doc|
    ensures doc[..Before(|doc|, n)] + Chunk(doc, n) == doc[..Before(|doc|, n + 1)]
  {
    RangeInside(|doc|, n);
    SliceJoin(doc, Before(|doc|, n), Before(|doc|, n + 1));
  }
}
