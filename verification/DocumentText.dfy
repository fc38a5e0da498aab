/** What the text of a document's first chunks is, and where reading them once leaves a decoder. */
module DocumentText {
  import opened Common
  import opened DocumentChunks
  import opened Utf8

  function Reading(doc: seq<byte>, n: nat): Scan
    requires n <= ChunkCount(|doc|)
  {
    ChunksPartition(doc, n);
    Scanning(IDLE, doc[..Before(|doc|, n)])
  }

  /** The first `n` chunks are UTF-8, up to a character cut off at their end; a whole document cuts none off. */
  predicate Reads(doc: seq<byte>, n: nat)
    requires n <= ChunkCount(|doc|)
  {
    Reading(doc, n).Scanned? && (n == ChunkCount(|doc|) ==> Reading(doc, n).state == IDLE)
  }

  function TextOf(doc: seq<byte>, n: nat): seq<Scalar>
    requires n <= ChunkCount(|doc|) && Reads(doc, n)
  {
    Unmarked(false, Reading(doc, n).text)
  }

  function LeftBy(doc: seq<byte>, n: nat): Decoder
    requires n <= ChunkCount(|doc|) && Reads(doc, n)
  {
    if n == ChunkCount(|doc|) then FRESH else Decoder(Reading(doc, n).state, [], Reading(doc, n).text != [])
  }

  lemma {:induction false} ReadingNext(doc: seq<byte>, n: nat)
    requires n < ChunkCount(|doc|)
    ensures Reading(doc, n + 1) == Joined(Reading(doc, n), Chunk(doc, n))
  {
    ChunksPartition(doc, n);
    ChunksPartition(doc, n + 1);
    NextChunkJoins(doc, n);
    ScanningJoins(IDLE, doc[..Before(|doc|, n)], Chunk(doc, n));
  }

  lemma {:induction false} ReadsBack(doc: seq<byte>, n: nat, m: nat)
    requires n <= m <= ChunkCount(|doc|) && Reads(doc, m)
    ensures Reads(doc, n)
  {
    if n < m {
      ReadingNext(doc, m - 1);
      ReadsBack(doc, n, m - 1);
    }
  }

  lemma UnmarkedJoins(t: seq<Scalar>, u: seq<Scalar>)
    ensures Unmarked(false, t) + Unmarked(t != [], u) == Unmarked(false, t + u)
  {
    if t == [] {
      assert t + u == u;
    } else {
      assert (t + u)[1..] == t[1..] + u;
    }
  }

  /** A call on the next chunk puts out what that chunk adds to the text, or fails if they do not read together. */
  lemma {:induction false} NextCall(doc: seq<byte>, n: nat)
    requires n < ChunkCount(|doc|) && Reads(doc, n)
    ensures
      var d := Decode(LeftBy(doc, n), Chunk(doc, n), n + 1 == ChunkCount(|doc|));
      && (d.text.Some? <==> Reads(doc, n + 1))
      && (d.text.Some? ==>
            TextOf(doc, n + 1) == TextOf(doc, n) + d.text.value && d.decoder == LeftBy(doc, n + 1))
  {
    var r := Reading(doc, n);
    ReadingNext(doc, n);
    assert [] + Chunk(doc, n) == Chunk(doc, n);
    var s := Scanning(r.state, Chunk(doc, n));
    if s.Scanned? { UnmarkedJoins(r.text, s.text); }
  }

  /** A whole document reads as a text exactly if it is the encoding of that text. */
  lemma {:induction false} WholeIsEncoded(doc: seq<byte>, text: seq<Scalar>)
    ensures
      var n := ChunkCount(|doc|);
      Reads(doc, n) && Reading(doc, n).text == text <==> doc == EncodeAll(text)
  {
    var n := ChunkCount(|doc|);
    ChunksPartition(doc, n);
    assert doc[..Before(|doc|, n)] == doc;
    ReadsItsEncoding(doc, text);
    if Reads(doc, n) && Reading(doc, n).text == text { assert Scanning(IDLE, doc) == Scanned(text, IDLE); }
  }

  lemma {:induction false} Utf8Reads(doc: seq<byte>)
    ensures IsUtf8(doc) <==> Reads(doc, ChunkCount(|doc|))
  {
    if IsUtf8(doc) {
      var text :| doc == EncodeAll(text);
      WholeIsEncoded(doc, text);
    }
    if Reads(doc, ChunkCount(|doc|)) { WholeIsEncoded(doc, Reading(doc, ChunkCount(|doc|)).text); }
  }
}
