/** Live terminal output fanned out to viewers: each starts from a snapshot of the scrollback
    and follows through a bounded queue, and the two join without a gap. */
module TerminalFanout {
  import opened Options
  import opened ScrollbackRing

  const SLOW_VIEWER_CLOSE_CODE := "retryable-overload"
  const SLOW_VIEWER_MESSAGE := "terminal output queue overloaded; reconnect to resume"

  datatype QueueItem = Chunk(chunk: PtyChunk) | Closed(code: string, retryable: bool, message: string)

  function Items(chunks: seq<PtyChunk>): (items: seq<QueueItem>)
    ensures |items| == |chunks| && forall k | 0 <= k < |items| :: items[k] == Chunk(chunks[k])
  {
    seq(|chunks|, k requires 0 <= k < |chunks| => Chunk(chunks[k]))
  }

  function MarkerItems(marker: Option<QueueItem>): seq<QueueItem> {
    if marker.Some? then [marker.value] else []
  }

  class TerminalAttachment {
    const attachmentId: string
    const cols: int
    const rows: int
    const connectedAt: Time
    /** The queue's bound; not positive means unbounded. */
    const maxsize: int
    var queue: seq<QueueItem>
    var closedReason: Option<string>

    /** What the viewer was given on attaching, and the output that came before it. */
    ghost const startSeq: nat
    ghost const scrollback: seq<PtyChunk>
    ghost const missed: Bytes
    /** Every chunk ever queued, the close marker if one was, and what the viewer has taken. */
    ghost var received: seq<PtyChunk>
    ghost var marker: Option<QueueItem>
    ghost var taken: seq<QueueItem>

    predicate Full()
      reads this`queue
    {
      maxsize > 0 && |queue| >= maxsize
    }

    /** The snapshot ends where the live chunks begin, the live chunks are consecutive, and
        nothing follows a close marker. */
    ghost predicate Seam(log: seq<PtyChunk>)
      reads this
    {
      && startSeq + |received| <= |log| && received == log[startSeq..startSeq + |received|]
      && Output(log[..startSeq]) == missed + Output(scrollback)
      && taken + queue == Items(received) + MarkerItems(marker)
      && (marker.Some? ==> marker.value.Closed? && closedReason == Some(marker.value.code))
      && (maxsize > 0 ==> |queue| <= maxsize)
    }

    ghost predicate Open()
      reads this
    {
      closedReason.None? && marker.None?
    }

    constructor (id: string, cols: int, rows: int, maxsize: int, now: Time, ghost log: seq<PtyChunk>,
                 ghost scrollback: seq<PtyChunk>, ghost missed: Bytes)
      requires Output(log) == missed + Output(scrollback)
      ensures attachmentId == id && this.cols == cols && this.rows == rows && connectedAt == now
      ensures this.maxsize == maxsize && queue == [] && received == []
      ensures startSeq == |log| && this.scrollback == scrollback && this.missed == missed
      ensures Open() && Seam(log)
    {
      attachmentId, this.cols, this.rows, this.maxsize, connectedAt := id, cols, rows, maxsize, now;
      queue, closedReason := [], None;
      startSeq, this.scrollback, this.missed := |log|, scrollback, missed;
      received, marker, taken := [], None, [];
      new;
      assert log[..|log|] == log;
    }

    /** Queue the newest chunk, unless the queue is full. */
    method PutChunk(chunk: PtyChunk, ghost log: seq<PtyChunk>) returns (ok: bool)
      requires Open() && Seam(log + [chunk]) && startSeq + |received| == |log|
      modifies this`queue, this`received
      ensures ok <==> !old(Full())
      ensures queue == if ok then old(queue) + [Chunk(chunk)] else old(queue)
      ensures received == if ok then old(received) + [chunk] else old(received)
      ensures Open() && Seam(log + [chunk])
    {
      if Full() { return false; }
      hide Output;
      assert taken + (queue + [Chunk(chunk)]) == (taken + queue) + [Chunk(chunk)];
      assert Items(received + [chunk]) == Items(received) + [Chunk(chunk)];
      queue := queue + [Chunk(chunk)];
      received := received + [chunk];
      return true;
    }

    /** Record why the viewer was closed, and tell it if its queue has room. */
    method Close(code: string, retryable: bool, message: string, ghost log: seq<PtyChunk>)
      requires Open() && Seam(log)
      modifies this`queue, this`closedReason, this`marker
      ensures Seam(log) && closedReason == Some(code)
      ensures queue == if old(Full()) then old(queue) else old(queue) + [Closed(code, retryable, message)]
      ensures marker == if old(Full()) then None else Some(Closed(code, retryable, message))
    {
      hide Output;
      closedReason := Some(code);
      var item := Closed(code, retryable, message);
      if !Full() {
        assert taken + (queue + [item]) == (taken + queue) + [item];
        queue, marker := queue + [item], Some(item);
      }
    }

    /** The viewer takes the next item. */
    method Get(ghost log: seq<PtyChunk>) returns (item: QueueItem)
      requires Seam(log) && queue != []
      modifies this`queue, this`taken
      ensures Seam(log) && [item] + queue == old(queue) && taken == old(taken) + [item]
    {
      hide Output;
      item := queue[0];
      assert (taken + [item]) + queue[1..] == taken + queue;
      queue, taken := queue[1..], taken + [item];
    }
  }

  datatype AttachedTerminal = AttachedTerminal(
    attachment: TerminalAttachment, scrollback: seq<PtyChunk>, startSeq: nat)

  /** The attachments whose ids are not among these, in order. */
  function Keep(attachments: seq<TerminalAttachment>, gone: set<string>): (kept: seq<TerminalAttachment>)
    ensures forall a | a in kept :: a in attachments && a.attachmentId !in gone
    ensures forall a | a in attachments && a.attachmentId !in gone :: a in kept
  {
    if attachments == [] then []
    else
      var front, a := Keep(attachments[..|attachments| - 1], gone), attachments[|attachments| - 1];
      if a.attachmentId in gone then front else front + [a]
  }

  /** The ids of the attachments that are full, in order. */
  function FullIds(attachments: seq<TerminalAttachment>): (ids: seq<string>)
    reads attachments
    ensures forall id :: id in ids <==> exists a | a in attachments :: a.Full() && a.attachmentId == id
  {
    if attachments == [] then []
    else
      var front, a := FullIds(attachments[..|attachments| - 1]), attachments[|attachments| - 1];
      if a.Full() then front + [a.attachmentId] else front
  }

  function IdSet(ids: seq<string>): set<string> { set id | id in ids }

  lemma FullIdsSteps(attachments: seq<TerminalAttachment>)
    ensures FullIds([]) == []
    ensures forall k | 0 <= k < |attachments| ::
      FullIds(attachments[..k + 1])
      == if attachments[k].Full() then FullIds(attachments[..k]) + [attachments[k].attachmentId]
         else FullIds(attachments[..k])
  {
    forall k | 0 <= k < |attachments| ensures attachments[..k + 1][..k] == attachments[..k] {}
  }

  predicate UniqueIds(attachments: seq<TerminalAttachment>) {
    forall i, j | 0 <= i < j < |attachments| :: attachments[i].attachmentId != attachments[j].attachmentId
  }

  /** Where an id sits, or the length. */
  function IndexOf(attachments: seq<TerminalAttachment>, id: string): (i: nat)
    ensures i <= |attachments| && (i < |attachments| ==> attachments[i].attachmentId == id)
    ensures i == |attachments| ==> forall a | a in attachments :: a.attachmentId != id
  {
    if attachments == [] then 0
    else
      var front, last := attachments[..|attachments| - 1], |attachments| - 1;
      if attachments[last].attachmentId == id then last
      else if IndexOf(front, id) == last then |attachments| else IndexOf(front, id)
  }

  class Fanout {
    const scrollback: Ring
    const queueSize: int
    /** The attached viewers, as an insertion-ordered dictionary by id. */
    var attachments: seq<TerminalAttachment>
    /** Everyone who ever attached. */
    ghost var everyone: set<TerminalAttachment>

    /** Every viewer ever attached keeps its seam; the attached ones are open and, apart from
        those lagging behind, have been sent everything. */
    ghost predicate Holds(behind: set<string>)
      reads this, scrollback, everyone
    {
      && scrollback.Valid() && UniqueIds(attachments)
      && (forall a | a in everyone :: a.Seam(scrollback.log))
      && (forall a | a in attachments :: a in everyone && a.Open())
      && (forall a | a in attachments && a.attachmentId !in behind ::
            a.startSeq + |a.received| == |scrollback.log|)
    }

    ghost predicate Valid()
      reads this, scrollback, everyone
    {
      Holds({})
    }

    constructor (scrollbackBytes: nat, queueSize: int)
      ensures Valid() && fresh(scrollback) && attachments == [] && everyone == {}
      ensures this.queueSize == queueSize && scrollback.maxBytes == scrollbackBytes && scrollback.log == []
    {
      scrollback := new Ring(scrollbackBytes);
      attachments, everyone, this.queueSize := [], {}, queueSize;
    }

    /** A new viewer: the scrollback so far, and a queue from here on. An attached viewer with
        the same id is replaced without being closed. */
    method Attach(cols: int, rows: int, attachmentId: Option<string>, generatedId: string, queueMaxsize: Option<int>,
                  now: Time)
      returns (attached: AttachedTerminal)
      requires Valid()
      modifies this
      ensures Valid() && fresh(attached.attachment) && everyone == old(everyone) + {attached.attachment}
      ensures var a := attached.attachment;
        && a.attachmentId
             == (if attachmentId.Some? && attachmentId.value != "" then attachmentId.value else generatedId)
        && a.maxsize == (if queueMaxsize.Some? && queueMaxsize.value != 0 then queueMaxsize.value else queueSize)
        && a.queue == [] && a.scrollback == attached.scrollback == scrollback.chunks
        && a.startSeq == attached.startSeq == |scrollback.log|
        && attachments == (var i := IndexOf(old(attachments), a.attachmentId);
                           if i < |old(attachments)| then old(attachments)[i := a] else old(attachments) + [a])
    {
      hide Output, TerminalAttachment.Seam, Keeps, UniqueIds, IndexOf;
      RingOutput(scrollback);
      hide Ring.Valid;
      var kept := scrollback.Snapshot();
      var id := if attachmentId.Some? && attachmentId.value != "" then attachmentId.value else generatedId;
      var maxsize := if queueMaxsize.Some? && queueMaxsize.value != 0 then queueMaxsize.value else queueSize;
      var a := new TerminalAttachment(id, cols, rows, maxsize, now, scrollback.log, kept, scrollback.lost);
      var i := IndexOf(attachments, id);
      IdsStayUnique(attachments, a);
      attachments := if i < |attachments| then attachments[i := a] else attachments + [a];
      everyone := everyone + {a};
      attached := AttachedTerminal(a, kept, scrollback.nextSeq);
    }

    /** Output to the scrollback and to every viewer with room; the others are closed. */
    method Append(data: Bytes, emittedAt: Time) returns (chunk: PtyChunk, overloaded: seq<string>)
      requires Valid()
      modifies this`attachments, scrollback, everyone
      ensures Valid() && everyone == old(everyone)
      ensures scrollback.log == old(scrollback.log) + [chunk]
          && chunk == PtyChunk(|old(scrollback.log)|, data, emittedAt)
      ensures overloaded == old(FullIds(attachments))
      ensures attachments == Keep(old(attachments), IdSet(overloaded))
      ensures forall a | a in old(attachments) ::
        && a.queue == (if old(a.Full()) then old(a.queue) else old(a.queue) + [Chunk(chunk)])
        && a.closedReason == (if old(a.Full()) then Some(SLOW_VIEWER_CLOSE_CODE) else None)
      ensures forall a | a in old(everyone) && a !in old(attachments) :: unchanged(a)
    {
      hide Output, TerminalAttachment.Seam, Ring.Valid;
      ghost var log := scrollback.log;
      chunk := scrollback.Append(data, Some(emittedAt), emittedAt);
      forall a | a in everyone ensures a.Seam(scrollback.log) { SeamGrows(a, log, chunk); }
      overloaded := SendToAll(chunk, log);
      CloseOverloaded(overloaded);
    }

    /** Offer the chunk to each viewer in turn; the ids of those whose queues were full. */
    method SendToAll(chunk: PtyChunk, ghost log: seq<PtyChunk>) returns (overloaded: seq<string>)
      requires scrollback.Valid() && scrollback.log == log + [chunk] && UniqueIds(attachments)
      requires forall a | a in everyone :: a.Seam(scrollback.log)
      requires forall a | a in attachments :: a in everyone && a.Open() && a.startSeq + |a.received| == |log|
      modifies set a: TerminalAttachment | a in attachments
      ensures overloaded == old(FullIds(attachments))
      ensures Holds(IdSet(overloaded))
      ensures forall a | a in attachments ::
        a.queue == (if old(a.Full()) then old(a.queue) else old(a.queue) + [Chunk(chunk)])
    {
      hide Output, TerminalAttachment.Seam, Ring.Valid, FullIds;
      FullIdsSteps(attachments);
      overloaded := [];
      assert attachments[..0] == [];
      for k := 0 to |attachments|
        invariant overloaded == old(FullIds(attachments[..k]))
        invariant forall a | a in everyone :: a.Seam(scrollback.log)
        invariant forall a | a in attachments :: a.Open()
        invariant forall j | k <= j < |attachments| :: unchanged(attachments[j])
        invariant forall j | 0 <= j < k ::
          var a := attachments[j];
          && a.queue == (if old(a.Full()) then old(a.queue) else old(a.queue) + [Chunk(chunk)])
          && a.received == (if old(a.Full()) then old(a.received) else old(a.received) + [chunk])
      {
        var a := attachments[k];
        assert forall j | 0 <= j < |attachments| && j != k :: attachments[j] != a;
        var ok := a.PutChunk(chunk, log);
        if !ok { overloaded := overloaded + [a.attachmentId]; }
      }
      assert attachments[..|attachments|] == attachments;
    }

    method CloseOverloaded(overloaded: seq<string>)
      requires Holds(IdSet(overloaded))
      modifies this`attachments, set a: TerminalAttachment | a in attachments
      ensures Valid() && attachments == Keep(old(attachments), IdSet(overloaded))
      ensures forall a | a in old(attachments) && a.attachmentId !in overloaded :: unchanged(a)
      ensures forall a | a in old(attachments) && a.attachmentId in overloaded ::
        a.closedReason == Some(SLOW_VIEWER_CLOSE_CODE) && (old(a.Full()) ==> a.queue == old(a.queue))
    {
      hide Output, TerminalAttachment.Seam, Ring.Valid, Keep, UniqueIds;
      KeepAll(attachments, {});
      assert overloaded[0..] == overloaded && IdSet(overloaded[..0]) == {};
      for k := 0 to |overloaded|
        invariant Holds(IdSet(overloaded[k..]))
        invariant attachments == Keep(old(attachments), IdSet(overloaded[..k]))
        invariant forall a | a in old(attachments) && a.attachmentId !in overloaded[..k] :: unchanged(a)
        invariant forall a | a in old(attachments) && a.attachmentId in overloaded[..k] ::
          a.closedReason == Some(SLOW_VIEWER_CLOSE_CODE) && (old(a.Full()) ==> a.queue == old(a.queue))
      {
        var closed := CloseAttachment(overloaded[k], SLOW_VIEWER_CLOSE_CODE, true, SLOW_VIEWER_MESSAGE,
                                      IdSet(overloaded[k..]));
        KeepTwice(old(attachments), IdSet(overloaded[..k]), {overloaded[k]});
        assert IdSet(overloaded[..k + 1]) == IdSet(overloaded[..k]) + {overloaded[k]};
        assert IdSet(overloaded[k..]) - {overloaded[k]} <= IdSet(overloaded[k + 1..]);
      }
      assert overloaded[..|overloaded|] == overloaded;
    }

    /** Detach a viewer without closing it. */
    method Detach(id: string) returns (detached: bool)
      requires Valid()
      modifies this`attachments
      ensures Valid() && attachments == Keep(old(attachments), {id})
      ensures detached <==> exists a | a in old(attachments) :: a.attachmentId == id
    {
      hide Output, TerminalAttachment.Seam, Ring.Valid, Keep, UniqueIds, IndexOf;
      var i := IndexOf(attachments, id);
      detached := i < |attachments|;
      KeepOne(attachments, id);
      if detached { attachments := attachments[..i] + attachments[i + 1..]; }
    }

    /** Detach a viewer and close it, if it is attached. */
    method CloseAttachment(id: string, code: string, retryable: bool, message: string, ghost behind: set<string>)
      returns (closed: bool)
      requires Holds(behind)
      modifies this`attachments, set a: TerminalAttachment | a in attachments && a.attachmentId == id
      ensures Holds(behind - {id}) && attachments == Keep(old(attachments), {id})
      ensures closed <==> exists a | a in old(attachments) :: a.attachmentId == id
      ensures forall a | a in old(attachments) && a.attachmentId == id ::
        && a.closedReason == Some(code)
        && a.queue == (if old(a.Full()) then old(a.queue) else old(a.queue) + [Closed(code, retryable, message)])
    {
      hide Output, TerminalAttachment.Seam, Ring.Valid, Keep, UniqueIds, IndexOf;
      var i := IndexOf(attachments, id);
      KeepOne(attachments, id);
      if i == |attachments| { return false; }
      var a := attachments[i];
      attachments := attachments[..i] + attachments[i + 1..];
      a.Close(code, retryable, message, scrollback.log);
      closed := true;
    }

    /** Close every attached viewer. */
    method CloseAll(code: string, retryable: bool, message: string)
      requires Valid()
      modifies this`attachments, set a: TerminalAttachment | a in attachments
      ensures Valid() && attachments == []
      ensures forall a | a in old(attachments) ::
        && a.closedReason == Some(code)
        && a.queue == (if old(a.Full()) then old(a.queue) else old(a.queue) + [Closed(code, retryable, message)])
    {
      hide Output, TerminalAttachment.Seam, Ring.Valid, Keep, UniqueIds, IndexOf;
      ghost var all := attachments;
      while attachments != []
        invariant Valid() && forall a | a in attachments :: a in all && unchanged(a)
        invariant forall a | a in all && a !in attachments ::
          && a.closedReason == Some(code)
          && a.queue == (if old(a.Full()) then old(a.queue) else old(a.queue) + [Closed(code, retryable, message)])
        decreases |attachments|
      {
        var a := attachments[0];
        KeepOne(attachments, a.attachmentId);
        var closed := CloseAttachment(a.attachmentId, code, retryable, message, {});
      }
    }

    /** A viewer, attached or not, takes the next item of its queue. */
    method Take(a: TerminalAttachment) returns (item: QueueItem)
      requires Valid() && a in everyone && a.queue != []
      modifies a`queue, a`taken
      ensures Valid() && [item] + a.queue == old(a.queue)
    {
      hide Output, TerminalAttachment.Seam, Ring.Valid;
      item := a.Get(scrollback.log);
    }
  }

  lemma RingOutput(ring: Ring)
    requires ring.Valid()
    ensures Output(ring.log) == ring.lost + Output(ring.chunks) && ring.nextSeq == |ring.log|
  {
  }

  lemma SeamGrows(a: TerminalAttachment, log: seq<PtyChunk>, chunk: PtyChunk)
    requires a.Seam(log)
    ensures a.Seam(log + [chunk])
  {
    hide Output;
    assert (log + [chunk])[..a.startSeq] == log[..a.startSeq];
  }

  lemma IdsStayUnique(attachments: seq<TerminalAttachment>, a: TerminalAttachment)
    requires UniqueIds(attachments)
    ensures var i := IndexOf(attachments, a.attachmentId);
            UniqueIds(if i < |attachments| then attachments[i := a] else attachments + [a])
  {
  }

  /** Removing by index is removing by id. */
  lemma KeepOne(attachments: seq<TerminalAttachment>, id: string)
    requires UniqueIds(attachments)
    ensures var i := IndexOf(attachments, id);
            Keep(attachments, {id})
              == if i < |attachments| then attachments[..i] + attachments[i + 1..] else attachments
    ensures UniqueIds(Keep(attachments, {id}))
  {
    hide Keep, IndexOf, UniqueIds;
    var i := IndexOf(attachments, id);
    if i == |attachments| {
      KeepAll(attachments, {id});
    } else {
      UniqueWithout(attachments, i);
      var front, back := attachments[..i], attachments[i + 1..];
      assert attachments == front + [attachments[i]] + back;
      KeepConcat(front + [attachments[i]], back, {id});
      KeepConcat(front, [attachments[i]], {id});
      KeepAll(front, {id});
      KeepAll(back, {id});
      KeepNone(attachments[i], {id});
    }
  }

  lemma UniqueWithout(attachments: seq<TerminalAttachment>, i: nat)
    requires UniqueIds(attachments) && i < |attachments|
    ensures UniqueIds(attachments[..i] + attachments[i + 1..])
    ensures forall a | a in attachments[..i] || a in attachments[i + 1..] ::
      a.attachmentId != attachments[i].attachmentId
  {
    forall j | 0 <= j < |attachments| && j != i ensures attachments[j].attachmentId != attachments[i].attachmentId {
      assert attachments[if j < i then j else i].attachmentId != attachments[if j < i then i else j].attachmentId;
    }
  }

  lemma KeepNone(a: TerminalAttachment, gone: set<string>)
    requires a.attachmentId in gone
    ensures Keep([a], gone) == []
  {
  }

  lemma {:induction false} KeepConcat(front: seq<TerminalAttachment>, back: seq<TerminalAttachment>, gone: set<string>)
    ensures Keep(front + back, gone) == Keep(front, gone) + Keep(back, gone)
  {
    if back == [] {
      assert front + back == front;
    } else {
      var rest, a := back[..|back| - 1], back[|back| - 1];
      assert (front + back)[..|front + back| - 1] == front + rest;
      KeepConcat(front, rest, gone);
    }
  }

  lemma {:induction false} KeepAll(attachments: seq<TerminalAttachment>, gone: set<string>)
    requires forall a | a in attachments :: a.attachmentId !in gone
    ensures Keep(attachments, gone) == attachments
  {
    if attachments != [] {
      var front, a := attachments[..|attachments| - 1], attachments[|attachments| - 1];
      KeepAll(front, gone);
      assert a in attachments && front + [a] == attachments;
    }
  }

  lemma {:induction false} KeepTwice(attachments: seq<TerminalAttachment>, gone: set<string>, more: set<string>)
    ensures Keep(Keep(attachments, gone), more) == Keep(attachments, gone + more)
  {
    if attachments != [] {
      var front, a := attachments[..|attachments| - 1], attachments[|attachments| - 1];
      KeepTwice(front, gone, more);
      var kept := Keep(front, gone);
      assert (kept + [a])[..|kept + [a]| - 1] == kept;
    }
  }

  /** A viewer has seen one unbroken stretch of the output: what it missed, its snapshot and
      the chunks ever queued to it make up all the output to the last of those chunks. */
  lemma SeamIsContiguous(a: TerminalAttachment, log: seq<PtyChunk>)
    requires a.Seam(log)
    ensures a.startSeq + |a.received| <= |log|
    ensures Output(log[..a.startSeq + |a.received|]) == a.missed + Output(a.scrollback) + Output(a.received)
  {
    hide Output;
    var seen := log[..a.startSeq + |a.received|];
    OutputSplit(seen, a.startSeq);
    assert seen[..a.startSeq] == log[..a.startSeq] && seen[a.startSeq..] == a.received;
  }
}
