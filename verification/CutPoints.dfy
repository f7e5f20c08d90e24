/**
 When CR LF framing depends on the chunking, said of the stream and the places where it is cut:
 no framer is needed to check it.
 */
module CutPoints {
  import opened Splitting
  import opened Framing
  import opened Chunking
  import opened CrLfChunking
  import opened FramerBudget

  /** Where the record under way began. */
  function TailStart(s: Bytes): nat {
    TailIsSuffix(s, CRLF, 0);
    |s| - |Cut(s, CRLF, 0).tail|
  }

  /**
   A cut after `s`, the cut before it being at `previous`, severs a separator: CR before it and LF
   after it, the record under way over the limit, but not yet over it at the previous cut.
   */
  predicate Severs(max: nat, s: Bytes, previous: nat, data: Bytes) {
    s != [] && LastOf(s) == CR && data != [] && data[0] == LF &&
    previous <= TailStart(s) + max < |s|
  }

  /** Where the last non-empty chunk began. */
  function PreviousCut(chunks: seq<Bytes>): nat {
    if chunks == [] then 0
    else
      var n := |chunks| - 1;
      if chunks[n] == [] then PreviousCut(chunks[..n]) else |Concat(chunks[..n])|
  }

  predicate SeversAt(max: nat, chunks: seq<Bytes>, n: nat)
    requires n < |chunks|
  {
    Severs(max, Concat(chunks[..n]), PreviousCut(chunks[..n]), chunks[n])
  }

  predicate SafeCuts(max: nat, chunks: seq<Bytes>) {
    forall n | 0 <= n < |chunks| :: !SeversAt(max, chunks, n)
  }

  /** The only severing cut is before an LF that ends the stream. */
  predicate EndsSevered(max: nat, chunks: seq<Bytes>) {
    chunks != [] &&
    var n := |chunks| - 1;
    if chunks[n] == [] then EndsSevered(max, chunks[..n])
    else chunks[n] == [LF] && SeversAt(max, chunks, n) && SafeCuts(max, chunks[..n])
  }

  // ----- What the cuts say of the framer ---------------------------------

  /** An overflow has just cleared the buffer exactly if the previous cut was not over the limit. */
  ghost predicate CutsSay(max: nat, s: Bytes, previous: nat, st: FramerState) {
    st.overflow ==> (st.buf == [] <==> previous <= TailStart(s) + max)
  }

  lemma SuffixFree(p: Bytes, q: Bytes, sep: Bytes)
    requires Free(p + q, sep, 0)
    ensures Free(q, sep, 0)
  {
    forall i: nat | i <= |q| ensures !OccursAt(q, sep, i) {
      OccursInSuffix(p, q, sep, |p| + i);
    }
  }

  lemma {:induction false} TailWithin(c: Pieces, sepLength: nat)
    ensures |c.tail| <= Length(c, sepLength)
    decreases |c.closed|
  {
    if c.closed != [] {
      TailWithin(Rest(c), sepLength);
    }
  }

  lemma CutsSayFresh(max: nat, s: Bytes, st: FramerState, out: seq<Record>, data: Bytes)
    requires data != [] && !st.overflow && Tracks(CRLF, max, s, st, out)
    ensures CutsSay(max, s + data, |s|, Fed(CrLf, max, st, data).0)
  {
    CutAppend(s, data, CRLF, 0);
    TailIsSuffix(st.buf + data, CRLF, 0);
  }

  lemma CutsSaySwallowing(max: nat, s: Bytes, st: FramerState, out: seq<Record>, data: Bytes)
    requires data != [] && st.overflow && Tracks(CRLF, max, s, st, out) && !LosesSeparator(CrLf, st, s, data)
    requires Cut(st.buf + data, CRLF, 0).closed == []
    ensures CutsSay(max, s + data, |s|, Fed(CrLf, max, st, data).0)
  {
    var q := st.buf + data;
    SwallowedCut(CrLf, max, s, st, out, data);
    assert q[0..] == q;
  }

  lemma CutsSayEnding(max: nat, s: Bytes, st: FramerState, out: seq<Record>, data: Bytes)
    requires data != [] && st.overflow && Tracks(CRLF, max, s, st, out) && !LosesSeparator(CrLf, st, s, data)
    requires Cut(st.buf + data, CRLF, 0).closed != []
    ensures CutsSay(max, s + data, |s|, Fed(CrLf, max, st, data).0)
  {
    var c := Cut(st.buf + data, CRLF, 0);
    SwallowedCut(CrLf, max, s, st, out, data);
    TailFree(s, CRLF, 0);
    SuffixFree(Discarded(Cut(s, CRLF, 0).tail, st), st.buf, CRLF);
    AfterFirst(CrLf, st.buf, data);
    TailWithin(Rest(c), 2);
  }

  /** As long as nothing is lost, the framer hears the stream, and loses next what the next cut severs. */
  ghost predicate Unharmed(max: nat, chunks: seq<Bytes>) {
    Heard(CrLf, max, chunks) == Concat(chunks) &&
    CutsSay(max, Concat(chunks), PreviousCut(chunks), FeedAll(CrLf, max, chunks).0)
  }

  lemma LosesWhatIsSevered(max: nat, earlier: seq<Bytes>, data: Bytes)
    requires Unharmed(max, earlier)
    ensures Loses(max, earlier, data) <==> Severs(max, Concat(earlier), PreviousCut(earlier), data)
  {
    FeedAllTracks(CrLf, max, earlier);
    TailIsSuffix(Concat(earlier), CRLF, 0);
  }

  lemma FeedAllLast(mode: Mode, max: nat, chunks: seq<Bytes>)
    requires chunks != []
    ensures var n := |chunks| - 1;
            FeedAll(mode, max, chunks).0 == Fed(mode, max, FeedAll(mode, max, chunks[..n]).0, chunks[n]).0
  {
  }

  lemma UnharmedMore(max: nat, chunks: seq<Bytes>)
    requires chunks != [] && Unharmed(max, chunks[..|chunks| - 1]) && !Loses(max, chunks[..|chunks| - 1], chunks[|chunks| - 1])
    ensures Unharmed(max, chunks)
  {
    var n := |chunks| - 1;
    var s, data := Concat(chunks[..n]), chunks[n];
    var (st, out) := FeedAll(CrLf, max, chunks[..n]);
    ConcatLast(chunks);
    FeedAllLast(CrLf, max, chunks);
    FeedAllTracks(CrLf, max, chunks[..n]);
    if data == [] {
      assert s + data == s;
    } else if !st.overflow {
      CutsSayFresh(max, s, st, out, data);
    } else if Cut(st.buf + data, CRLF, 0).closed == [] {
      CutsSaySwallowing(max, s, st, out, data);
    } else {
      CutsSayEnding(max, s, st, out, data);
    }
  }

  lemma SeversInPrefix(max: nat, chunks: seq<Bytes>, n: nat, m: nat)
    requires m < n <= |chunks|
    ensures SeversAt(max, chunks[..n], m) <==> SeversAt(max, chunks, m)
  {
    PrefixOfPrefix(chunks, n, m);
  }

  lemma PrefixOfPrefix<T>(xs: seq<T>, n: nat, m: nat)
    requires m <= n <= |xs|
    ensures xs[..n][..m] == xs[..m]
  {
  }

  lemma SafeMore(max: nat, chunks: seq<Bytes>)
    requires chunks != []
    ensures var n := |chunks| - 1;
            SafeCuts(max, chunks) <==> SafeCuts(max, chunks[..n]) && !SeversAt(max, chunks, n)
  {
    var n := |chunks| - 1;
    forall m: nat | m < n ensures SeversAt(max, chunks[..n], m) <==> SeversAt(max, chunks, m) {
      SeversInPrefix(max, chunks, n, m);
    }
    if SafeCuts(max, chunks) {
      forall m: nat | m < n ensures !SeversAt(max, chunks[..n], m) {
        assert !SeversAt(max, chunks, m);
      }
    }
  }

  /** No separator is lost exactly if no cut severs one. */
  lemma {:induction false} LostIffSevered(max: nat, chunks: seq<Bytes>)
    ensures Lost(max, chunks) == 0 <==> SafeCuts(max, chunks)
    ensures Lost(max, chunks) == 0 ==> Unharmed(max, chunks)
  {
    if chunks != [] {
      var n := |chunks| - 1;
      LostIffSevered(max, chunks[..n]);
      SafeMore(max, chunks);
      if Lost(max, chunks[..n]) == 0 {
        LosesWhatIsSevered(max, chunks[..n], chunks[n]);
        if !Loses(max, chunks[..n], chunks[n]) {
          UnharmedMore(max, chunks);
        }
      }
    }
  }

  lemma {:induction false} EndsLostIffSevered(max: nat, chunks: seq<Bytes>)
    ensures Lost(max, chunks) == 1 && EndsLost(max, chunks) <==> EndsSevered(max, chunks)
  {
    if chunks != [] {
      var n := |chunks| - 1;
      if chunks[n] == [] {
        EndsLostIffSevered(max, chunks[..n]);
      } else {
        LostIffSevered(max, chunks[..n]);
        if Lost(max, chunks[..n]) == 0 {
          LosesWhatIsSevered(max, chunks[..n], chunks[n]);
        }
      }
    }
  }

  /**
   CR LF framing gives the records of the stream exactly if no cut severs a separator, or the only
   one that does is before a last LF and the record it closes is longer than the limit anyway.
   */
  lemma CrLfChunkIndependence(max: nat, chunks: seq<Bytes>)
    ensures FeedAndFlush(CrLf, max, chunks) == Records(CRLF, max, Concat(chunks)) <==>
            SafeCuts(max, chunks) || (EndsSevered(max, chunks) && LastClosedLength(Concat(chunks)) > max)
  {
    CrLfByLosses(max, chunks);
    LostIffSevered(max, chunks);
    EndsLostIffSevered(max, chunks);
  }
}
