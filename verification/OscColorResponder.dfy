/** The scanner that answers terminal colour queries, fed with arbitrary chunks of output. */
module OscColorResponder {
  type byte = b: int | 0 <= b < 256

  type Bytes = seq<byte>

  const ESC: byte := 27
  const BEL: byte := 7

  /** OSC 10 asks for the foreground, OSC 11 for the background. */
  datatype Color = Foreground | Background

  /** What ends a query: BEL, or the string terminator ESC `\`. */
  datatype Terminator = Bel | St

  const FOREGROUND_REPLY: Bytes :=
    [27, 93, 49, 48, 59, 114, 103, 98, 58, 100, 99, 100, 99, 47, 100, 99, 100, 99, 47, 100, 99, 100, 99, 27, 92]
  const BACKGROUND_REPLY: Bytes :=
    [27, 93, 49, 49, 59, 114, 103, 98, 58, 102, 102, 102, 102, 47, 48, 48, 48, 48, 47, 48, 48, 48, 48, 27, 92]
  const CARRY_BYTES := 7

  /** The bytes of a query: ESC `]10;?` or ESC `]11;?`, and its terminator. */
  function Query(color: Color, end: Terminator): (q: Bytes)
    ensures |q| == if end.Bel? then 7 else 8
  {
    [ESC, 93, 49, if color.Foreground? then 48 else 49, 59, 63] + if end.Bel? then [BEL] else [ESC, 92]
  }

  function Reply(color: Color): Bytes {
    if color.Foreground? then FOREGROUND_REPLY else BACKGROUND_REPLY
  }

  predicate SpelledAs(bytes: Bytes, text: string) {
    |bytes| == |text| && forall i | 0 <= i < |text| :: bytes[i] as int == text[i] as int
  }

  /** A reply repeats the head of the query that it answers, for either end of the query, names
      the colour, and ends with the string terminator. */
  lemma ReplyAnswersItsQuery(color: Color, end: Terminator)
    ensures Query(color, end)[..5] <= Reply(color) && |Reply(color)| == 25 && Reply(color)[23..] == [ESC, 92]
    ensures SpelledAs(Reply(color)[5..23], if color.Foreground? then "rgb:dcdc/dcdc/dcdc" else "rgb:ffff/0000/0000")
  {
  }

  // ---- the pattern ----

  /** The length of the query that starts at a position, or zero. */
  function MatchAt(s: Bytes, p: nat): (n: nat)
    ensures n == 0 || (p + n <= |s| && 7 <= n <= 8)
  {
    if p + 7 <= |s| && s[p] == ESC && s[p + 1] == 93 && s[p + 2] == 49 && s[p + 3] in {48, 49}
       && s[p + 4] == 59 && s[p + 5] == 63 then
      if s[p + 6] == BEL then 7
      else if s[p + 6] == ESC && p + 8 <= |s| && s[p + 7] == 92 then 8 else 0
    else 0
  }

  function ColorAt(s: Bytes, p: nat): Color
    requires MatchAt(s, p) > 0
  {
    if s[p + 3] == 48 then Foreground else Background
  }

  /** The pattern matches exactly the four queries. */
  lemma MatchIsQuery(s: Bytes, p: nat, n: nat)
    requires p + n <= |s| && n > 0
    ensures MatchAt(s, p) == n <==> exists c, t :: s[p..p + n] == Query(c, t)
    ensures MatchAt(s, p) == n ==> forall c, t | s[p..p + n] == Query(c, t) :: ColorAt(s, p) == c
  {
    if MatchAt(s, p) == n {
      assert s[p..p + n] == Query(ColorAt(s, p), if n == 7 then Bel else St);
    }
    forall c, t | s[p..p + n] == Query(c, t) ensures MatchAt(s, p) == n && ColorAt(s, p) == c {
      QueryBytes(s, p, c, t);
    }
  }

  lemma QueryBytes(s: Bytes, p: nat, c: Color, t: Terminator)
    requires p + |Query(c, t)| <= |s| && s[p..p + |Query(c, t)|] == Query(c, t)
    ensures MatchAt(s, p) == |Query(c, t)| && ColorAt(s, p) == c
  {
    var q := Query(c, t);
    forall k | 0 <= k < |q| ensures s[p + k] == q[k] { assert s[p..p + |q|][k] == s[p + k]; }
  }

  // ---- the whole-stream specification ----

  /** The replies owed for the queries that start between two positions, in order. */
  function OwedBetween(s: Bytes, lo: nat, hi: nat): seq<Bytes>
    requires lo <= hi
    decreases hi - lo
  {
    if lo == hi then []
    else if MatchAt(s, hi - 1) > 0 then OwedBetween(s, lo, hi - 1) + [Reply(ColorAt(s, hi - 1))]
    else OwedBetween(s, lo, hi - 1)
  }

  /** The replies owed for a whole stream: one for each place where a query occurs. */
  function Owed(s: Bytes): seq<Bytes> { OwedBetween(s, 0, |s|) }

  predicate NoQueryBetween(s: Bytes, lo: nat, hi: nat) {
    forall p | lo <= p < hi :: MatchAt(s, p) == 0
  }

  /** No query starts inside another. */
  lemma QueriesDoNotOverlap(s: Bytes, p: nat, q: nat)
    requires MatchAt(s, p) > 0 && p < q < p + MatchAt(s, p)
    ensures MatchAt(s, q) == 0
  {
  }

  lemma {:induction false} NothingOwed(s: Bytes, lo: nat, hi: nat)
    requires lo <= hi && NoQueryBetween(s, lo, hi)
    ensures OwedBetween(s, lo, hi) == []
    decreases hi
  {
    if lo < hi { NothingOwed(s, lo, hi - 1); }
  }

  lemma {:induction false} OwedSplit(s: Bytes, lo: nat, mid: nat, hi: nat)
    requires lo <= mid <= hi
    ensures OwedBetween(s, lo, hi) == OwedBetween(s, lo, mid) + OwedBetween(s, mid, hi)
    decreases hi
  {
    if mid < hi { OwedSplit(s, lo, mid, hi - 1); }
  }

  /** What is owed depends only on the matches, wherever the bytes lie. */
  lemma {:induction false} OwedShift(s: Bytes, t: Bytes, shift: nat, lo: nat, hi: nat)
    requires lo <= hi
    requires forall p | lo <= p < hi :: MatchAt(t, p + shift) == MatchAt(s, p)
    requires forall p | lo <= p < hi && MatchAt(s, p) > 0 :: ColorAt(t, p + shift) == ColorAt(s, p)
    ensures OwedBetween(t, lo + shift, hi + shift) == OwedBetween(s, lo, hi)
    decreases hi
  {
    if lo < hi { OwedShift(s, t, shift, lo, hi - 1); }
  }

  // ---- the scanner ----

  class Responder {
    var carry: Bytes
    /** Every byte fed so far, and how many of them precede the carry. */
    ghost var seen: Bytes
    ghost var cut: nat

    /** The carry is a short tail of the stream without a complete query, and no query still
        to be completed starts before it. */
    ghost predicate Valid()
      reads this
    {
      && cut <= |seen| && carry == seen[cut..] && |carry| <= CARRY_BYTES
      && NoQueryBetween(seen, cut, |seen|)
      && SafeCut(seen, cut)
    }

    constructor ()
      ensures Valid() && seen == [] && carry == []
    {
      carry, seen, cut := [], [], 0;
    }

    /** Replies for the queries that this chunk completes. */
    method RepliesFor(chunk: Bytes) returns (replies: seq<Bytes>)
      requires Valid()
      modifies this
      ensures Valid() && seen == old(seen) + chunk
      ensures Owed(seen) == Owed(old(seen)) + replies
    {
      hide MatchAt, ColorAt, SafeCut;
      var window := carry + chunk;
      ghost var all := seen + chunk;
      assert window == all[cut..];
      replies := [];
      var pos, lastEnd := 0, 0;
      while pos < |window|
        invariant lastEnd <= pos <= |window|
        invariant replies == OwedBetween(window, 0, pos)
        invariant NoQueryBetween(window, lastEnd, pos)
        invariant lastEnd == 0 || EndsQuery(window, lastEnd)
        modifies {}
      {
        var n := MatchAt(window, pos);
        if n > 0 {
          MatchIsAlone(window, pos);
          OwedSplit(window, 0, pos, pos + n);
          replies := replies + [Reply(ColorAt(window, pos))];
          pos, lastEnd := pos + n, pos + n;
        } else {
          pos := pos + 1;
        }
      }
      ChunkOwed(seen, chunk, cut);
      var keep := if lastEnd < |window| - CARRY_BYTES then |window| - CARRY_BYTES else lastEnd;
      NextCut(seen, chunk, cut, lastEnd, keep);
      carry := window[keep..];
      assert carry == all[cut + keep..];
      seen, cut := all, cut + keep;
    }
  }

  ghost predicate EndsQuery(s: Bytes, e: nat) {
    exists p: nat :: p < e && MatchAt(s, p) > 0 && p + MatchAt(s, p) == e
  }

  /** No query that starts before the cut can still be incomplete. */
  ghost predicate SafeCut(s: Bytes, cut: nat) {
    cut == 0 || cut + CARRY_BYTES <= |s| || EndsQuery(s, cut)
  }

  lemma MatchIsAlone(s: Bytes, p: nat)
    requires MatchAt(s, p) > 0
    ensures OwedBetween(s, p, p + MatchAt(s, p)) == [Reply(ColorAt(s, p))]
    ensures EndsQuery(s, p + MatchAt(s, p))
  {
    forall q | p < q < p + MatchAt(s, p) ensures MatchAt(s, q) == 0 { QueriesDoNotOverlap(s, p, q); }
    hide MatchAt;
    var e := p + MatchAt(s, p);
    OwedSplit(s, p, p + 1, e);
    NothingOwed(s, p + 1, e);
    assert OwedBetween(s, p, p) == [];
  }

  /** A match depends only on the bytes it spans. */
  lemma MatchInLonger(s: Bytes, more: Bytes, p: nat)
    ensures MatchAt(s, p) > 0 ==> MatchAt(s + more, p) == MatchAt(s, p) && ColorAt(s + more, p) == ColorAt(s, p)
    ensures 0 < MatchAt(s + more, p) && p + MatchAt(s + more, p) <= |s| ==> MatchAt(s, p) == MatchAt(s + more, p)
  {
  }

  lemma MatchInTail(s: Bytes, cut: nat, p: nat)
    requires cut <= |s|
    ensures MatchAt(s[cut..], p) == MatchAt(s, p + cut)
    ensures MatchAt(s, p + cut) > 0 ==> ColorAt(s[cut..], p) == ColorAt(s, p + cut)
  {
  }

  /** Behind a safe cut, the longer stream matches where the shorter one did. */
  lemma BehindTheCut(seen: Bytes, chunk: Bytes, cut: nat, p: nat)
    requires cut <= |seen| && SafeCut(seen, cut) && p < cut
    ensures MatchAt(seen + chunk, p) == MatchAt(seen, p)
    ensures MatchAt(seen, p) > 0 ==> ColorAt(seen + chunk, p) == ColorAt(seen, p)
  {
    hide ColorAt;
    MatchInLonger(seen, chunk, p);
    var n := MatchAt(seen + chunk, p);
    if n > 0 && !(p + n <= |seen|) {
      assert EndsQuery(seen, cut);
      var q: nat :| q < cut && MatchAt(seen, q) > 0 && q + MatchAt(seen, q) == cut;
      MatchInLonger(seen, chunk, q);
      if q < p {
        QueriesDoNotOverlap(seen + chunk, q, p);
      } else if p < q {
        QueriesDoNotOverlap(seen + chunk, p, q);
      }
    }
    hide MatchAt;
  }

  /** Scanning the carry and the chunk finds exactly what the longer stream adds. */
  lemma ChunkOwed(seen: Bytes, chunk: Bytes, cut: nat)
    requires cut <= |seen| && SafeCut(seen, cut) && NoQueryBetween(seen, cut, |seen|)
    ensures var window := (seen + chunk)[cut..];
            Owed(seen + chunk) == Owed(seen) + OwedBetween(window, 0, |window|)
  {
    hide MatchAt, ColorAt, SafeCut, OwedBetween;
    var all := seen + chunk;
    var window := all[cut..];
    forall p | 0 <= p < cut
      ensures MatchAt(all, p + 0) == MatchAt(seen, p)
          && (MatchAt(seen, p) > 0 ==> ColorAt(all, p + 0) == ColorAt(seen, p))
    {
      BehindTheCut(seen, chunk, cut, p);
    }
    OwedShift(seen, all, 0, 0, cut);
    OwedSplit(seen, 0, cut, |seen|);
    NothingOwed(seen, cut, |seen|);
    forall p | 0 <= p < |window|
      ensures MatchAt(all, p + cut) == MatchAt(window, p)
      ensures MatchAt(window, p) > 0 ==> ColorAt(all, p + cut) == ColorAt(window, p)
    {
      MatchInTail(all, cut, p);
    }
    OwedShift(window, all, cut, 0, |window|);
    OwedSplit(all, 0, cut, |all|);
  }

  /** The next carry is a valid one. */
  lemma NextCut(seen: Bytes, chunk: Bytes, cut: nat, lastEnd: nat, keep: nat)
    requires cut <= |seen| && SafeCut(seen, cut)
    requires var window := (seen + chunk)[cut..];
             lastEnd <= |window| && NoQueryBetween(window, lastEnd, |window|)
             && (lastEnd == 0 || EndsQuery(window, lastEnd))
             && keep == if lastEnd < |window| - CARRY_BYTES then |window| - CARRY_BYTES else lastEnd
    ensures var all := seen + chunk;
            NoQueryBetween(all, cut + keep, |all|) && SafeCut(all, cut + keep)
  {
    hide MatchAt;
    var all := seen + chunk;
    var window := all[cut..];
    forall p | cut + keep <= p < |all| ensures MatchAt(all, p) == 0 { MatchInTail(all, cut, p - cut); }
    if keep == 0 {
      if EndsQuery(seen, cut) {
        var q: nat :| q < cut && MatchAt(seen, q) > 0 && q + MatchAt(seen, q) == cut;
        MatchInLonger(seen, chunk, q);
      }
    } else if keep == lastEnd {
      var q: nat :| q < lastEnd && MatchAt(window, q) > 0 && q + MatchAt(window, q) == lastEnd;
      MatchInTail(all, cut, q);
      assert EndsQuery(all, cut + keep);
    }
  }

  // ---- any way of cutting ----

  function Flatten(chunks: seq<Bytes>): Bytes {
    if chunks == [] then [] else Flatten(chunks[..|chunks| - 1]) + chunks[|chunks| - 1]
  }

  /** However a stream is cut into chunks, the replies are those of one scan of the whole. */
  method AnswerChunks(chunks: seq<Bytes>) returns (replies: seq<Bytes>)
    ensures replies == Owed(Flatten(chunks))
  {
    hide OwedBetween;
    var responder := new Responder();
    replies := [];
    NothingOwed([], 0, 0);
    for i := 0 to |chunks|
      invariant fresh(responder) && responder.Valid()
      invariant responder.seen == Flatten(chunks[..i]) && replies == Owed(responder.seen)
    {
      var more := responder.RepliesFor(chunks[i]);
      assert chunks[..i + 1][..i] == chunks[..i];
      replies := replies + more;
    }
    assert chunks[..|chunks|] == chunks;
  }

  /** A query is answered exactly once, after the queries before it and before those behind
      it, whatever surrounds it. */
  lemma QueryIsAnsweredOnce(a: Bytes, color: Color, end: Terminator, b: Bytes)
    ensures Owed(a + Query(color, end) + b) == Owed(a) + [Reply(color)] + Owed(b)
  {
    hide MatchAt, ColorAt, OwedBetween, Query;
    var q := Query(color, end);
    var s := a + q + b;
    assert s[|a|..|a| + |q|] == q;
    QueryBytes(s, |a|, color, end);
    MatchIsAlone(s, |a|);
    var e := |a| + |q|;
    OwedSplit(s, 0, |a|, |s|);
    OwedSplit(s, |a|, e, |s|);
    forall p | 0 <= p < |a|
      ensures MatchAt(s, p + 0) == MatchAt(a, p) && (MatchAt(a, p) > 0 ==> ColorAt(s, p + 0) == ColorAt(a, p))
    {
      assert s == a + (q + b);
      MatchInLonger(a, q + b, p);
      if p < |a| < p + MatchAt(s, p) { QueriesDoNotOverlap(s, p, |a|); }
    }
    OwedShift(a, s, 0, 0, |a|);
    assert s[e..] == b;
    forall p | 0 <= p < |b|
      ensures MatchAt(s, p + e) == MatchAt(b, p) && (MatchAt(b, p) > 0 ==> ColorAt(s, p + e) == ColorAt(b, p))
    {
      MatchInTail(s, e, p);
    }
    OwedShift(b, s, e, 0, |b|);
  }
}
