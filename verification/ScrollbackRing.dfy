/** The terminal's scrollback: the most recent output, kept in whole chunks under a byte bound. */
module ScrollbackRing {
  import opened Options

  type Bytes = seq<bv8>
  /** A moment; the clock's readings are parameters. */
  type Time = int

  datatype PtyChunk = PtyChunk(seqNo: nat, data: Bytes, emittedAt: Time)

  /** The bytes of some chunks, in order. */
  function Output(chunks: seq<PtyChunk>): Bytes {
    if chunks == [] then [] else Output(chunks[..|chunks| - 1]) + chunks[|chunks| - 1].data
  }

  /** The last `maxBytes` bytes of a chunk. */
  function Cap(chunk: PtyChunk, maxBytes: nat): PtyChunk {
    if |chunk.data| > maxBytes then chunk.(data := chunk.data[|chunk.data| - maxBytes..]) else chunk
  }

  /** The chunks as they are offered for storage: capped, and without the empty ones. */
  function Offered(log: seq<PtyChunk>, maxBytes: nat): seq<PtyChunk> {
    if log == [] then []
    else
      var front, c := Offered(log[..|log| - 1], maxBytes), Cap(log[|log| - 1], maxBytes);
      if c.data == [] then front else front + [c]
  }

  /** The last `n` chunks. */
  function Last(chunks: seq<PtyChunk>, n: nat): (tail: seq<PtyChunk>)
    requires n <= |chunks|
    ensures |tail| == n
  {
    chunks[|chunks| - n..]
  }

  /** A suffix of the offered chunks that holds every suffix that fits. */
  ghost predicate HoldsTheFit(kept: seq<PtyChunk>, offered: seq<PtyChunk>, maxBytes: nat) {
    && |kept| <= |offered| && kept == Last(offered, |kept|)
    && forall n | |kept| < n <= |offered| :: |Output(Last(offered, n))| > maxBytes
  }

  /** The kept chunks are the longest suffix of the offered ones that fits. */
  ghost predicate LongestFit(kept: seq<PtyChunk>, offered: seq<PtyChunk>, maxBytes: nat) {
    HoldsTheFit(kept, offered, maxBytes) && |Output(kept)| <= maxBytes
  }

  predicate Nonempty(chunks: seq<PtyChunk>) { forall c | c in chunks :: c.data != [] }

  /** The chunks are the longest run of whole chunks that fits, and they hold the end of the
      output: everything before it is lost. */
  ghost predicate Keeps(chunks: seq<PtyChunk>, totalBytes: int, log: seq<PtyChunk>, lost: Bytes, maxBytes: nat) {
    && Nonempty(chunks) && totalBytes == |Output(chunks)|
    && LongestFit(chunks, Offered(log, maxBytes), maxBytes)
    && Output(log) == lost + Output(chunks)
  }

  class Ring {
    const maxBytes: nat
    var chunks: seq<PtyChunk>
    var totalBytes: int
    var nextSeq: nat
    var truncated: bool
    /** Every chunk ever appended, as handed to the viewers, and the bytes no longer stored. */
    ghost var log: seq<PtyChunk>
    ghost var lost: Bytes

    ghost predicate Valid()
      reads this
    {
      && nextSeq == |log| && (forall k | 0 <= k < |log| :: log[k].seqNo == k)
      && Keeps(chunks, totalBytes, log, lost, maxBytes) && (truncated <==> lost != [])
    }

    constructor (maxBytes: nat)
      ensures Valid() && this.maxBytes == maxBytes && log == [] && chunks == []
    {
      this.maxBytes := maxBytes;
      chunks, totalBytes, nextSeq, truncated, log, lost := [], 0, 0, false, [], [];
    }

    /** Numbers a chunk, hands it back whole, and stores what the bound allows. */
    method Append(data: Bytes, emittedAt: Option<Time>, now: Time) returns (live: PtyChunk)
      requires Valid()
      modifies this
      ensures Valid() && log == old(log) + [live]
      ensures live == PtyChunk(|old(log)|, data, if emittedAt.Some? then emittedAt.value else now)
    {
      hide Keeps, Output, Offered, LongestFit, HoldsTheFit, Nonempty;
      live := PtyChunk(nextSeq, data, if emittedAt.Some? then emittedAt.value else now);
      ghost var before, log0, lost0 := chunks, log, lost;
      log, nextSeq := log + [live], nextSeq + 1;
      if maxBytes == 0 {
        if data != [] { truncated := true; }
        lost := lost + data;
        NoRoom(before, totalBytes, log0, lost0, live, maxBytes);
        return;
      }
      var stored := data;
      if |data| > maxBytes {
        truncated, stored := true, data[|data| - maxBytes..];
      }
      if stored != [] {
        ghost var total := totalBytes;
        var c := PtyChunk(live.seqNo, stored, live.emittedAt);
        Offers(before, total, log0, lost0, live, c, maxBytes);
        chunks := chunks + [c];
        totalBytes := totalBytes + |stored|;
        ghost var dropped := Trim(Offered(log, maxBytes));
        lost := Stored(before, total, log0, lost0, live, c, dropped, chunks, maxBytes);
      } else {
        Unchanged(before, totalBytes, log0, lost0, live, maxBytes);
      }
    }

    /** Drops the oldest chunks until the rest fits. */
    method Trim(ghost offered: seq<PtyChunk>) returns (ghost dropped: Bytes)
      requires Nonempty(chunks) && totalBytes == |Output(chunks)| && HoldsTheFit(chunks, offered, maxBytes)
      modifies this`chunks, this`totalBytes, this`truncated
      ensures Nonempty(chunks) && totalBytes == |Output(chunks)|
      ensures LongestFit(chunks, offered, maxBytes)
      ensures Output(old(chunks)) == dropped + Output(chunks)
      ensures truncated <==> old(truncated) || dropped != []
    {
      hide Output, HoldsTheFit, Nonempty;
      dropped := [];
      while totalBytes > maxBytes && chunks != []
        invariant Nonempty(chunks) && totalBytes == |Output(chunks)| && HoldsTheFit(chunks, offered, maxBytes)
        invariant Output(old(chunks)) == dropped + Output(chunks)
        invariant truncated <==> old(truncated) || dropped != []
        decreases |chunks|
      {
        var chunk := chunks[0];
        FirstOut(chunks, offered, maxBytes);
        chunks := chunks[1..];
        totalBytes := totalBytes - |chunk.data|;
        dropped := dropped + chunk.data;
        truncated := true;
      }
      assert chunks == [] ==> totalBytes == 0 by { OutputOfNone(); }
    }

    method Snapshot() returns (kept: seq<PtyChunk>)
      ensures kept == chunks
    {
      kept := chunks;
    }
  }

  /** The lost and the stored bytes still make up the whole output. */
  lemma BytesKept(output: Bytes, lost: Bytes, before: Bytes, stored: Bytes, data: Bytes, dropped: Bytes, after: Bytes,
                  maxBytes: nat)
    requires output == lost + before && before + stored == dropped + after
    requires if |data| > maxBytes then stored == data[|data| - maxBytes..] == after else stored == data
    ensures output + data == (if |data| > maxBytes then output + data[..|data| - maxBytes] else lost + dropped) + after
  {
    if |data| > maxBytes {
      assert data == data[..|data| - maxBytes] + after;
    } else {
      assert lost + before + data == lost + (before + data) == lost + dropped + after;
    }
  }

  lemma NoRoom(chunks: seq<PtyChunk>, total: int, log: seq<PtyChunk>, lost: Bytes, live: PtyChunk, maxBytes: nat)
    requires Keeps(chunks, total, log, lost, maxBytes) && maxBytes == 0
    ensures Keeps(chunks, total, log + [live], lost + live.data, maxBytes)
  {
    hide Output, Offered, HoldsTheFit, Nonempty;
    OfferedAppend(log, live, maxBytes);
    OutputAppend(log, live);
    NothingFits(chunks, Offered(log, maxBytes), maxBytes);
  }

  lemma Unchanged(chunks: seq<PtyChunk>, total: int, log: seq<PtyChunk>, lost: Bytes, live: PtyChunk, maxBytes: nat)
    requires Keeps(chunks, total, log, lost, maxBytes) && live.data == []
    ensures Keeps(chunks, total, log + [live], lost, maxBytes)
  {
    hide Output, Offered, HoldsTheFit, Nonempty;
    OfferedAppend(log, live, maxBytes);
    OutputAppend(log, live);
  }

  lemma Offers(chunks: seq<PtyChunk>, total: int, log: seq<PtyChunk>, lost: Bytes, live: PtyChunk, c: PtyChunk,
               maxBytes: nat)
    requires Keeps(chunks, total, log, lost, maxBytes) && c == Cap(live, maxBytes) && c.data != []
    ensures Nonempty(chunks + [c]) && total + |c.data| == |Output(chunks + [c])|
    ensures HoldsTheFit(chunks + [c], Offered(log + [live], maxBytes), maxBytes)
  {
    hide Output, Offered, HoldsTheFit, Nonempty;
    OfferedAppend(log, live, maxBytes);
    OutputAppend(chunks, c);
    FitGrows(chunks, Offered(log, maxBytes), c, maxBytes);
    NonemptyAppend(chunks, c);
  }

  /** What is lost once a chunk is stored and the trim has dropped some bytes. */
  lemma Stored(before: seq<PtyChunk>, total: int, log: seq<PtyChunk>, lost: Bytes, live: PtyChunk, c: PtyChunk,
               dropped: Bytes, after: seq<PtyChunk>, maxBytes: nat)
    returns (lost': Bytes)
    requires Keeps(before, total, log, lost, maxBytes) && maxBytes > 0 && c == Cap(live, maxBytes) && c.data != []
    requires Nonempty(after) && LongestFit(after, Offered(log + [live], maxBytes), maxBytes)
    requires Output(before + [c]) == dropped + Output(after)
    ensures Keeps(after, |Output(after)|, log + [live], lost', maxBytes)
    ensures lost' != [] <==> lost != [] || |live.data| > maxBytes || dropped != []
  {
    hide Output, Offered, HoldsTheFit, Nonempty;
    OfferedAppend(log, live, maxBytes);
    OutputAppend(before, c);
    OutputAppend(log, live);
    if |live.data| > maxBytes { CappedAlone(c, after, Offered(log + [live], maxBytes), maxBytes); }
    BytesKept(Output(log), lost, Output(before), c.data, live.data, dropped, Output(after), maxBytes);
    lost' := if |live.data| > maxBytes then Output(log) + live.data[..|live.data| - maxBytes] else lost + dropped;
  }

  lemma OutputOfNone()
    ensures Output([]) == []
  {
  }

  lemma NonemptyAppend(chunks: seq<PtyChunk>, c: PtyChunk)
    requires Nonempty(chunks) && c.data != []
    ensures Nonempty(chunks + [c])
  {
  }

  /** Dropping the oldest chunk of too many. */
  lemma FirstOut(chunks: seq<PtyChunk>, offered: seq<PtyChunk>, maxBytes: nat)
    requires chunks != [] && Nonempty(chunks) && HoldsTheFit(chunks, offered, maxBytes) && |Output(chunks)| > maxBytes
    ensures Nonempty(chunks[1..]) && HoldsTheFit(chunks[1..], offered, maxBytes)
    ensures chunks[0].data != [] && Output(chunks) == chunks[0].data + Output(chunks[1..])
  {
    hide Output, HoldsTheFit;
    assert chunks[0] in chunks;
    OutputSplit(chunks, 1);
    assert chunks[..1] == [chunks[0]];
    OutputOne(chunks[0]);
    RestHolds(chunks, offered, maxBytes);
  }

  lemma RestHolds(chunks: seq<PtyChunk>, offered: seq<PtyChunk>, maxBytes: nat)
    requires chunks != [] && HoldsTheFit(chunks, offered, maxBytes) && |Output(chunks)| > maxBytes
    ensures HoldsTheFit(chunks[1..], offered, maxBytes)
  {
    hide Output;
    assert chunks[1..] == Last(offered, |chunks| - 1);
  }

  lemma OutputAppend(chunks: seq<PtyChunk>, c: PtyChunk)
    ensures Output(chunks + [c]) == Output(chunks) + c.data
  {
    assert (chunks + [c])[..|chunks + [c]| - 1] == chunks;
  }

  lemma OutputOne(c: PtyChunk)
    ensures Output([c]) == c.data
  {
    OutputAppend([], c);
    assert [] + [c] == [c] && Output([]) == [];
  }

  lemma {:induction false} OutputSplit(chunks: seq<PtyChunk>, n: nat)
    requires n <= |chunks|
    ensures Output(chunks) == Output(chunks[..n]) + Output(chunks[n..])
    decreases |chunks|
  {
    hide Output;
    if n == |chunks| {
      OutputOfNone();
      assert chunks[..n] == chunks && chunks[n..] == [];
    } else {
      var front, c := chunks[..|chunks| - 1], chunks[|chunks| - 1];
      OutputSplit(front, n);
      assert chunks == front + [c] && front[..n] == chunks[..n] && chunks[n..] == front[n..] + [c];
      OutputAppend(front, c);
      OutputAppend(front[n..], c);
      var first, rest := Output(front[..n]), Output(front[n..]);
      assert (first + rest) + c.data == first + (rest + c.data);
    }
  }

  lemma OfferedAppend(log: seq<PtyChunk>, live: PtyChunk, maxBytes: nat)
    ensures Offered(log + [live], maxBytes)
         == if Cap(live, maxBytes).data == [] then Offered(log, maxBytes)
            else Offered(log, maxBytes) + [Cap(live, maxBytes)]
  {
    assert (log + [live])[..|log + [live]| - 1] == log;
  }

  /** With no room at all, nothing is kept. */
  lemma NothingFits(kept: seq<PtyChunk>, offered: seq<PtyChunk>, maxBytes: nat)
    requires LongestFit(kept, offered, maxBytes) && Nonempty(kept)
    ensures maxBytes == 0 ==> kept == [] && Output(kept) == []
  {
    if kept != [] { assert kept[|kept| - 1] in kept; }
  }

  /** A new chunk can only shorten what fits. */
  lemma FitGrows(kept: seq<PtyChunk>, offered: seq<PtyChunk>, c: PtyChunk, maxBytes: nat)
    requires LongestFit(kept, offered, maxBytes)
    ensures HoldsTheFit(kept + [c], offered + [c], maxBytes)
  {
    hide Output;
    assert kept + [c] == Last(offered + [c], |kept + [c]|);
    forall n | |kept + [c]| < n <= |offered + [c]| ensures |Output(Last(offered + [c], n))| > maxBytes {
      assert Last(offered + [c], n) == Last(offered, n - 1) + [c];
      OutputAppend(Last(offered, n - 1), c);
    }
  }

  /** A chunk as large as the bound is kept alone. */
  lemma CappedAlone(c: PtyChunk, after: seq<PtyChunk>, offered: seq<PtyChunk>, maxBytes: nat)
    requires |c.data| == maxBytes > 0 && |offered| > 0 && offered[|offered| - 1] == c
    requires LongestFit(after, offered, maxBytes)
    ensures Output(after) == c.data
  {
    hide Output;
    assert Last(offered, 1) == [c];
    OutputOne(c);
    assert |after| >= 1;
    var front := after[..|after| - 1];
    assert after == front + [c];
    OutputAppend(front, c);
    assert Output(front) == [];
  }
}
