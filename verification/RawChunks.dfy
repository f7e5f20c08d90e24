/** RAW_CHUNK framing: every chunk is a record of its own. */
module RawChunks {
  import opened Splitting
  import opened Framing
  import opened Chunking

  /** The chunks that hold something. */
  function Chunks(chunks: seq<Bytes>): seq<Bytes> {
    if chunks == [] then []
    else
      var n := |chunks| - 1;
      Chunks(chunks[..n]) + if chunks[n] == [] then [] else [chunks[n]]
  }

  /** One record per chunk: the chunk itself, or as much of it as the limit allows. */
  ghost predicate RawOf(max: nat, chunks: seq<Bytes>, records: seq<Record>) {
    |records| == |Chunks(chunks)| &&
    forall i | 0 <= i < |records| ::
      var chunk, payload := Chunks(chunks)[i], records[i].payload;
      payload <= chunk && |payload| == (if |chunk| <= max then |chunk| else max) &&
      (records[i].truncated <==> |chunk| > max)
  }

  lemma {:induction false} RawFeeds(max: nat, chunks: seq<Bytes>)
    ensures RawOf(max, chunks, FeedAll(RawChunk, max, chunks).1)
  {
    if chunks != [] {
      RawFeeds(max, chunks[..|chunks| - 1]);
    }
  }

  /** RAW_CHUNK: exactly one record for every chunk that is not empty, in order; nothing is left for the flush. */
  lemma RawRecords(max: nat, chunks: seq<Bytes>)
    ensures RawOf(max, chunks, FeedAndFlush(RawChunk, max, chunks))
  {
    RawFeeds(max, chunks);
    var out := FeedAll(RawChunk, max, chunks).1;
    assert FeedAndFlush(RawChunk, max, chunks) == out;
  }

  function Payloads(records: seq<Record>): seq<Bytes> {
    seq(|records|, i requires 0 <= i < |records| => records[i].payload)
  }

  lemma {:induction false} ChunksConcat(chunks: seq<Bytes>)
    ensures Concat(Chunks(chunks)) == Concat(chunks)
  {
    if chunks != [] {
      var n := |chunks| - 1;
      ChunksConcat(chunks[..n]);
      LastAfter(chunks);
      ConcatAppend(chunks[..n], [chunks[n]]);
      ConcatAppend(Chunks(chunks[..n]), if chunks[n] == [] then [] else [chunks[n]]);
      ConcatOne(chunks[n]);
      EmptyRight(Concat(chunks[..n]));
    }
  }

  /** If no chunk is over the limit, none is truncated and the payloads are the stream. */
  lemma RawLossless(max: nat, chunks: seq<Bytes>, records: seq<Record>)
    requires RawOf(max, chunks, records) && forall chunk | chunk in Chunks(chunks) :: |chunk| <= max
    ensures forall r | r in records :: !r.truncated
    ensures Concat(Payloads(records)) == Concat(chunks)
  {
    forall i | 0 <= i < |records| ensures records[i].payload == Chunks(chunks)[i] && !records[i].truncated {
      assert Chunks(chunks)[i] in Chunks(chunks);
    }
    assert Payloads(records) == Chunks(chunks);
    ChunksConcat(chunks);
  }

  lemma {:induction false} RawAppend(max: nat, a: seq<Bytes>, b: seq<Bytes>)
    ensures FeedAll(RawChunk, max, a + b).1 == FeedAll(RawChunk, max, a).1 + FeedAll(RawChunk, max, b).1
    ensures FeedAll(RawChunk, max, a + b).0 == Empty
  {
    if b == [] {
      EmptyRight(a);
      EmptyRight(FeedAll(RawChunk, max, a).1);
      RawState(max, a);
    } else {
      var n := |b| - 1;
      RawAppend(max, a, b[..n]);
      LastSlices(a, b);
      Associative(FeedAll(RawChunk, max, a).1, FeedAll(RawChunk, max, b[..n]).1, Fed(RawChunk, max, Empty, b[n]).1);
      RawState(max, b[..n]);
    }
  }

  lemma LastSlices<T>(a: seq<T>, b: seq<T>)
    requires b != []
    ensures a + b != [] && (a + b)[..|a + b| - 1] == a + b[..|b| - 1] && (a + b)[|a + b| - 1] == b[|b| - 1]
  {
  }

  lemma {:induction false} RawState(max: nat, chunks: seq<Bytes>)
    ensures FeedAll(RawChunk, max, chunks).0 == Empty
  {
    if chunks != [] {
      RawState(max, chunks[..|chunks| - 1]);
    }
  }
}
