/** The Anthropic response adapter: reassembling a stream of events, and why the result is
    the one that the same message sent whole would give. */
module AnthropicSse {
  import opened Options
  import opened JsonValues
  import opened Ir
  import opened AnthropicAdapter

  datatype Usage = Usage(inputTokens: int, outputTokens: int, cacheRead: int, cacheCreation: int)

  datatype Response = Response(
    id: string, model: string, provider: string, stopReason: Option<string>, usage: Usage,
    content: seq<Block>, providerExtras: Fields)

  const NO_USAGE := Usage(0, 0, 0, 0)
  const INPUT_PARTIAL := "_input_partial"

  // ---- the whole message ----

  function ParseResponseBlock(item: Fields): Option<Block> {
    OrUnknown(OrElse(ParseTextBlock(item), OrElse(ParseToolUseBlock(item), ParseThinkingBlock(item))), item)
  }

  function ResponseBlockParser(): Fields -> Option<Block> { item => ParseResponseBlock(item) }

  function ParseResponseContent(items: seq<Fields>): Option<seq<Block>> { Traverse(ResponseBlockParser(), items) }

  function ParseUsage(rt: Runtime, u: Fields): Option<Usage> {
    match (rt.toInt(Get(u, "input_tokens", Int(0))), rt.toInt(Get(u, "output_tokens", Int(0))),
           rt.toInt(Get(u, "cache_read_input_tokens", Int(0))), rt.toInt(Get(u, "cache_creation_input_tokens", Int(0))))
    case (Some(i), Some(o), Some(r), Some(c)) => Some(Usage(i, o, r, c))
    case _ => None
  }

  function BuildResponse(id: Json, model: Json, stopReason: Json, usage: Usage, items: seq<Fields>, extras: Fields)
    : Option<Response>
  {
    match (ParseString(id), ParseModel(model), OptionalText(stopReason), ParseResponseContent(items))
    case (Some(i), Some(m), Some(s), Some(c)) => Some(Response(i, m, "anthropic", s, usage, c, extras))
    case _ => None
  }

  const RESPONSE_KEYS := {"id", "type", "model", "role", "stop_reason", "usage", "content"}

  function FieldsParser(): Json -> Option<Fields> { (v: Json) => if v.Obj? then Some(v.fields) else None }

  function InboundResponse(rt: Runtime, data: Fields): Option<Response> {
    var usage := Get(data, "usage", Obj(map[]));
    if !usage.Obj? then None
    else
      match (ParseUsage(rt, usage.fields), Items(rt, Get(data, "content", List([]))))
      case (Some(u), Some(content)) =>
        (match Traverse(FieldsParser(), content)
         case Some(items) =>
           BuildResponse(Get(data, "id", Str("")), Get(data, "model", Null), Get(data, "stop_reason", Null), u, items,
                         data - RESPONSE_KEYS)
         case None => None)
      case _ => None
  }

  // ---- events ----

  datatype Event =
    | MessageStart(id: Json, model: Json, usage: Usage)
    | BlockStart(index: Json, block: Fields)
    | BlockDelta(index: Json, key: string, piece: Json)
    | OtherDelta(index: Json)
    | BlockStop(index: Json)
    | MessageDelta(stopReason: Option<Json>, outputTokens: Option<int>)
    | Ignored

  /** The dictionary key a value stands for: numbers that compare equal are one key, and a
      list or dictionary is none. */
  function HashKey(v: Json): Option<Json> {
    match v
    case List(_) => None
    case Obj(_) => None
    case Bool(b) => Some(Int(if b then 1 else 0))
    case Float(r) => Some(if r.Floor as real == r then Int(r.Floor) else v)
    case _ => Some(v)
  }

  /** The number that a value is to Python, where a boolean counts as an integer. */
  function NumberOf(v: Json): Option<real> {
    match v
    case Bool(b) => Some(if b then 1.0 else 0.0)
    case Int(n) => Some(n as real)
    case Float(r) => Some(r)
    case _ => None
  }

  /** Two values are one dictionary key exactly when they are the same or the same number. */
  lemma SameKeyExactly(v: Json, w: Json)
    ensures HashKey(v).None? <==> v.List? || v.Obj?
    ensures HashKey(v).Some? && HashKey(w).Some? ==>
      (HashKey(v) == HashKey(w) <==> v == w || (NumberOf(v).Some? && NumberOf(v) == NumberOf(w)))
  {
  }

  /** The value under a key, empty when missing, which must be a dictionary. */
  function GetFields(fields: Fields, key: string): Option<Fields> {
    var v := Get(fields, key, Obj(map[]));
    if v.Obj? then Some(v.fields) else None
  }

  function DecodeDelta(index: Json, delta: Fields): Event {
    match Get(delta, "type", Str(""))
    case Str("text_delta") => BlockDelta(index, "text", Get(delta, "text", Str("")))
    case Str("thinking_delta") => BlockDelta(index, "thinking", Get(delta, "thinking", Str("")))
    case Str("input_json_delta") => BlockDelta(index, INPUT_PARTIAL, Get(delta, "partial_json", Str("")))
    case _ => OtherDelta(index)
  }

  /** The event an object stands for; `None` when handling it raises. */
  function DecodeEvent(rt: Runtime, ev: Fields): Option<Event> {
    match Get(ev, "type", Str(""))
    case Str("message_start") =>
      (match GetFields(ev, "message")
       case None => None
       case Some(msg) =>
         match GetFields(msg, "usage")
         case None => None
         case Some(u) =>
           match ParseUsage(rt, u - {"output_tokens"})
           case None => None
           case Some(usage) => Some(MessageStart(Get(msg, "id", Str("")), Get(msg, "model", Str("")), usage)))
    case Str("content_block_start") =>
      (match (HashKey(Get(ev, "index", Int(0))), GetFields(ev, "content_block"))
       case (Some(i), Some(block)) => Some(BlockStart(i, block))
       case _ => None)
    case Str("content_block_delta") =>
      (match (HashKey(Get(ev, "index", Int(0))), GetFields(ev, "delta"))
       case (Some(i), Some(delta)) => Some(DecodeDelta(i, delta))
       case _ => None)
    case Str("content_block_stop") =>
      (match HashKey(Get(ev, "index", Int(0)))
       case Some(i) => Some(BlockStop(i))
       case None => None)
    case Str("message_delta") =>
      (match (GetFields(ev, "delta"), GetFields(ev, "usage"))
       case (Some(delta), Some(u)) =>
         if "output_tokens" !in u then Some(MessageDelta(Lookup(delta, "stop_reason"), None))
         else
           (match rt.toInt(u["output_tokens"])
            case Some(n) => Some(MessageDelta(Lookup(delta, "stop_reason"), Some(n)))
            case None => None)
       case _ => None)
    case _ => Some(Ignored)
  }

  function EventDecoder(rt: Runtime): Fields -> Option<Event> { ev => DecodeEvent(rt, ev) }

  // ---- what a stream means, index by index ----

  predicate HasIndex(e: Event) { e.BlockStart? || e.BlockDelta? || e.OtherDelta? || e.BlockStop? }

  predicate Touches(e: Event, i: Json) { HasIndex(e) && e.index == i }

  /** A buffer with a piece added to the text under a key; both must be strings. */
  function Appended(buf: Fields, key: string, piece: Json): Option<Fields> {
    var before := Get(buf, key, Str(""));
    if before.Str? && piece.Str? then Some(buf[key := Str(before.s + piece.s)]) else None
  }

  function OrEmpty(buf: Option<Fields>): Fields { if buf.Some? then buf.value else map[] }

  /** One event's effect on the buffer it touches. */
  function Buffered(buf: Option<Fields>, e: Event): Option<Fields>
    requires HasIndex(e)
  {
    match e
    case BlockStart(_, block) => Some(block)
    case BlockDelta(_, key, piece) => Some(OrEmpty(Appended(OrEmpty(buf), key, piece)))
    case OtherDelta(_) => Some(OrEmpty(buf))
    case BlockStop(_) => None
  }

  /** The buffer of an index after some events, which only its own events decide. */
  function Pending(es: seq<Event>, i: Json): Option<Fields> {
    if es == [] then None
    else
      var front, e := es[..|es| - 1], es[|es| - 1];
      if Touches(e, i) then Buffered(Pending(front, i), e) else Pending(front, i)
  }

  /** A finished buffer; `None` when its accumulated input is not a string. */
  function Finished(rt: Runtime, buf: Fields): Option<Fields> {
    if INPUT_PARTIAL !in buf then Some(buf)
    else if !buf[INPUT_PARTIAL].Str? then None
    else Some((buf - {INPUT_PARTIAL})["input" := DecodedInput(rt, buf[INPUT_PARTIAL].s)])
  }

  /** The input that a text stands for: an unreadable text for none at all, as for a call
      without arguments, and a value that is not an object wrapped in one. */
  function DecodedInput(rt: Runtime, text: string): Json {
    var decoded := rt.loads(text);
    var parsed := if decoded.Some? then decoded.value else Obj(map[]);
    if parsed.Obj? then parsed else Obj(map["value" := parsed])
  }

  /** The event can be handled when its index holds this buffer. */
  predicate Allowed(rt: Runtime, buf: Option<Fields>, e: Event) {
    match e
    case BlockDelta(_, key, piece) => Appended(OrEmpty(buf), key, piece).Some?
    case BlockStop(_) => OrEmpty(buf) == map[] || Finished(rt, OrEmpty(buf)).Some?
    case _ => true
  }

  function PendingFor(es: seq<Event>, e: Event): Option<Fields> {
    if HasIndex(e) then Pending(es, e.index) else None
  }

  predicate Accepted(rt: Runtime, es: seq<Event>) {
    es == [] ||
    var front, e := es[..|es| - 1], es[|es| - 1];
    Accepted(rt, front) && Allowed(rt, PendingFor(front, e), e)
  }

  /** The block an event completes. */
  function Completed(rt: Runtime, buf: Option<Fields>, e: Event): Option<Fields> {
    if e.BlockStop? && OrEmpty(buf) != map[] then Finished(rt, OrEmpty(buf)) else None
  }

  function WithBlock(content: seq<Fields>, block: Option<Fields>): seq<Fields> {
    if block.Some? then content + [block.value] else content
  }

  /** The completed blocks, in the order of their stop events. */
  function Emitted(rt: Runtime, es: seq<Event>): seq<Fields> {
    if es == [] then []
    else
      var front, e := es[..|es| - 1], es[|es| - 1];
      WithBlock(Emitted(rt, front), Completed(rt, PendingFor(front, e), e))
  }

  /** What the headers say: the last message start, and the deltas after it. */
  datatype Header = Header(id: Json, model: Json, stopReason: Json, usage: Usage)

  function HeaderOf(es: seq<Event>): Header {
    if es == [] then Header(Str(""), Str(""), Null, NO_USAGE) else HeaderStep(HeaderOf(es[..|es| - 1]), es[|es| - 1])
  }

  function HeaderStep(h: Header, e: Event): Header {
    match e
    case MessageStart(id, model, usage) => Header(id, model, h.stopReason, usage)
    case MessageDelta(stopReason, outputTokens) =>
      Header(h.id, h.model, if stopReason.Some? then stopReason.value else h.stopReason,
             if outputTokens.Some? then h.usage.(outputTokens := outputTokens.value) else h.usage)
    case _ => h
  }

  function StreamResponse(rt: Runtime, es: seq<Event>): Option<Response> {
    if !Accepted(rt, es) then None
    else
      var h := HeaderOf(es);
      BuildResponse(h.id, h.model, h.stopReason, h.usage, Emitted(rt, es), map[])
  }

  /** The response that some event objects stand for. */
  function SseResponse(rt: Runtime, events: seq<Fields>): Option<Response> {
    match Traverse(EventDecoder(rt), events)
    case None => None
    case Some(es) => StreamResponse(rt, es)
  }

  // ---- the reassembler ----

  function BufferAt(buffers: map<Json, Fields>, i: Json): Option<Fields> {
    if i in buffers then Some(buffers[i]) else None
  }

  function BufferFor(buffers: map<Json, Fields>, e: Event): Option<Fields> {
    if HasIndex(e) then BufferAt(buffers, e.index) else None
  }

  /** One event on the buffers and the completed blocks. */
  method HandleEvent(rt: Runtime, e: Event, buffers: map<Json, Fields>, content: seq<Fields>)
    returns (ok: bool, buffers': map<Json, Fields>, content': seq<Fields>)
    ensures ok <==> Allowed(rt, BufferFor(buffers, e), e)
    ensures ok ==>
      forall i ::
        BufferAt(buffers', i) == if Touches(e, i) then Buffered(BufferAt(buffers, i), e) else BufferAt(buffers, i)
    ensures ok ==> content' == WithBlock(content, Completed(rt, BufferFor(buffers, e), e))
  {
    ok, buffers', content' := true, buffers, content;
    match e {
      case BlockStart(i, block) => buffers' := buffers[i := block];
      case BlockDelta(i, key, piece) =>
        var buf := if i in buffers then buffers[i] else map[];
        var appended := Appended(buf, key, piece);
        if appended.None? { return false, buffers, content; }
        buffers' := buffers[i := appended.value];
      case OtherDelta(i) => buffers' := if i in buffers then buffers else buffers[i := map[]];
      case BlockStop(i) =>
        buffers' := buffers - {i};
        if i in buffers && buffers[i] != map[] {
          var finished := Finished(rt, buffers[i]);
          if finished.None? { return false, buffers, content; }
          content' := content + [finished.value];
        }
      case _ =>
    }
  }

  /** The reassembler as it runs: one pass over the events with per-index buffers. */
  method InboundResponseSse(rt: Runtime, events: seq<Fields>) returns (r: Option<Response>)
    ensures r == SseResponse(rt, events)
  {
    hide Pending, Emitted, Accepted, HeaderOf, Completed, Allowed, DecodeEvent, Buffered, BuildResponse;
    var id, model, stopReason, usage := Str(""), Str(""), Null, NO_USAGE;
    var content: seq<Fields>, buffers: map<Json, Fields> := [], map[];
    ghost var es: seq<Event> := [];
    EmptyStream(rt);
    for n := 0 to |events|
      invariant |es| == n && forall k | 0 <= k < n :: EventDecoder(rt)(events[k]) == Some(es[k])
      invariant Accepted(rt, es) && content == Emitted(rt, es)
      invariant forall i :: BufferAt(buffers, i) == Pending(es, i)
      invariant HeaderOf(es) == Header(id, model, stopReason, usage)
    {
      var decoded := DecodeEvent(rt, events[n]);
      if decoded.None? {
        assert EventDecoder(rt)(events[n]).None?;
        return None;
      }
      var e := decoded.value;
      StreamStep(rt, es, e);
      var ok: bool;
      ok, buffers, content := HandleEvent(rt, e, buffers, content);
      if !ok {
        DecodedPrefix(rt, events, es + [e]);
        var all := Traverse(EventDecoder(rt), events);
        if all.Some? { RejectionIsFinal(rt, all.value, es + [e]); }
        return None;
      }
      match e {
        case MessageStart(id', model', usage') => id, model, usage := id', model', usage';
        case MessageDelta(stopReason', outputTokens) =>
          if stopReason'.Some? { stopReason := stopReason'.value; }
          if outputTokens.Some? { usage := usage.(outputTokens := outputTokens.value); }
        case _ =>
      }
      es := es + [e];
    }
    TraverseIs(EventDecoder(rt), events, es);
    r := BuildResponse(id, model, stopReason, usage, content, map[]);
  }

  lemma TraverseIs<A, B>(f: A -> Option<B>, xs: seq<A>, ys: seq<B>)
    requires |xs| == |ys| && forall k | 0 <= k < |xs| :: f(xs[k]) == Some(ys[k])
    ensures Traverse(f, xs) == Some(ys)
  {
    assert Traverse(f, xs).value == ys;
  }

  lemma EmptyStream(rt: Runtime)
    ensures Accepted(rt, []) && Emitted(rt, []) == [] && HeaderOf([]) == Header(Str(""), Str(""), Null, NO_USAGE)
    ensures forall i :: Pending([], i) == None
  {
  }

  lemma StreamStep(rt: Runtime, es: seq<Event>, e: Event)
    ensures Accepted(rt, es + [e]) <==> Accepted(rt, es) && Allowed(rt, PendingFor(es, e), e)
    ensures Emitted(rt, es + [e]) == WithBlock(Emitted(rt, es), Completed(rt, PendingFor(es, e), e))
    ensures forall i :: Pending(es + [e], i) == if Touches(e, i) then Buffered(Pending(es, i), e) else Pending(es, i)
    ensures HeaderOf(es + [e]) == HeaderStep(HeaderOf(es), e)
  {
    hide Allowed, Completed, Buffered, HeaderStep;
    assert (es + [e])[..|es + [e]| - 1] == es;
  }

  /** Once an event is refused, the rest of the stream cannot help. */
  lemma {:induction false} RejectionIsFinal(rt: Runtime, all: seq<Event>, es: seq<Event>)
    requires es <= all && !Accepted(rt, es)
    ensures !Accepted(rt, all)
    decreases |all|
  {
    hide Allowed, PendingFor;
    if |es| < |all| {
      RejectionIsFinal(rt, all[..|all| - 1], es);
    } else {
      assert es == all;
    }
  }

  /** The first events decode as they do within the whole list. */
  lemma DecodedPrefix(rt: Runtime, events: seq<Fields>, es: seq<Event>)
    requires |es| <= |events| && forall k | 0 <= k < |es| :: EventDecoder(rt)(events[k]) == Some(es[k])
    ensures Traverse(EventDecoder(rt), events).Some? ==> es <= Traverse(EventDecoder(rt), events).value
  {
    hide Traverse, EventDecoder;
  }

  // ---- a stream of a message ----

  /** The events of one index, in order. */
  function Project(es: seq<Event>, i: Json): seq<Event> {
    if es == [] then []
    else
      var front, e := es[..|es| - 1], es[|es| - 1];
      if Touches(e, i) then Project(front, i) + [e] else Project(front, i)
  }

  /** The indices of the stop events, in order. */
  function Stops(es: seq<Event>): seq<Json> {
    if es == [] then []
    else
      var front, e := es[..|es| - 1], es[|es| - 1];
      if e.BlockStop? then Stops(front) + [e.index] else Stops(front)
  }

  /** The message starts and message deltas, in order. */
  function Headers(es: seq<Event>): seq<Event> {
    if es == [] then []
    else
      var front, e := es[..|es| - 1], es[|es| - 1];
      if e.MessageStart? || e.MessageDelta? then Headers(front) + [e] else Headers(front)
  }

  /** Every delta adds a string under this key, or nothing. */
  predicate Pieces(deltas: seq<Event>, key: string) {
    forall d | d in deltas :: d.OtherDelta? || (d.BlockDelta? && d.key == key && d.piece.Str?)
  }

  function Joined(deltas: seq<Event>): string {
    if deltas == [] then ""
    else
      var front, d := deltas[..|deltas| - 1], deltas[|deltas| - 1];
      if d.BlockDelta? && d.piece.Str? then Joined(front) + d.piece.s else Joined(front)
  }

  predicate AnyPiece(deltas: seq<Event>) { exists d | d in deltas :: d.BlockDelta? }

  /** The prose of a text or thinking block, which is under the key that names its type: the
      start leaves out some of it and the deltas supply the rest. */
  predicate CarriesProse(start: Fields, deltas: seq<Event>, block: Fields, key: string) {
    && key in {"text", "thinking"} && IsType(block, key)
    && key in block && block[key].Str? && INPUT_PARTIAL !in block && INPUT_PARTIAL !in start
    && Pieces(deltas, key) && (key in start || AnyPiece(deltas))
    && Get(start, key, Str("")).Str? && Get(start, key, Str("")).s + Joined(deltas) == block[key].s
  }

  /** The deltas supply the prose and the start everything else. */
  predicate StreamsProse(start: Fields, deltas: seq<Event>, block: Fields, key: string) {
    CarriesProse(start, deltas, block, key) && start - {key} == block - {key}
  }

  /** The deltas spell a text that stands for the input and the start holds everything else,
      or there are none and the start is the block. */
  predicate StreamsInput(rt: Runtime, start: Fields, deltas: seq<Event>, block: Fields) {
    && block != map[] && INPUT_PARTIAL !in block && Pieces(deltas, INPUT_PARTIAL)
    && if AnyPiece(deltas) then
         && start - {"input"} == block - {"input"}
         && "input" in block && DecodedInput(rt, Joined(deltas)) == block["input"]
       else start == block
  }

  /** A start, deltas and a stop that carry one block: its prose, its input or all of it. */
  predicate StreamsBlock(rt: Runtime, es: seq<Event>, block: Fields) {
    && |es| >= 2 && es[0].BlockStart? && es[|es| - 1].BlockStop?
    && (|| StreamsProse(es[0].block, es[1..|es| - 1], block, "text")
        || StreamsProse(es[0].block, es[1..|es| - 1], block, "thinking")
        || StreamsInput(rt, es[0].block, es[1..|es| - 1], block))
  }

  /** The events of each index carry its block, however the indices interleave, and the
      stops come in block order. */
  ghost predicate Streams(rt: Runtime, es: seq<Event>, indices: seq<Json>, blocks: seq<Fields>) {
    && |indices| == |blocks| && Stops(es) == indices
    && (forall e | e in es && HasIndex(e) :: e.index in indices)
    && (forall k | 0 <= k < |blocks| :: StreamsBlock(rt, Project(es, indices[k]), blocks[k]))
    && (forall j, k | 0 <= j < k < |indices| :: indices[j] != indices[k])
  }

  lemma ProjectStep(es: seq<Event>, e: Event)
    ensures forall i :: Project(es + [e], i) == if Touches(e, i) then Project(es, i) + [e] else Project(es, i)
    ensures Stops(es + [e]) == if e.BlockStop? then Stops(es) + [e.index] else Stops(es)
  {
    assert (es + [e])[..|es + [e]| - 1] == es;
  }

  lemma {:induction false} PrefixesProject(es: seq<Event>, n: nat, i: Json)
    requires n <= |es|
    ensures Project(es[..n], i) <= Project(es, i) && Stops(es[..n]) <= Stops(es)
    decreases |es|
  {
    if n == |es| {
      assert es[..n] == es;
    } else {
      PrefixesProject(es[..|es| - 1], n, i);
      assert es[..|es| - 1][..n] == es[..n];
    }
  }

  /** An index's buffer depends on its own events only. */
  lemma {:induction false} PendingIsLocal(es: seq<Event>, i: Json)
    ensures Pending(es, i) == Pending(Project(es, i), i)
    ensures forall e | e in Project(es, i) :: Touches(e, i)
  {
    hide Buffered;
    if es != [] {
      var front, e := es[..|es| - 1], es[|es| - 1];
      PendingIsLocal(front, i);
      if Touches(e, i) {
        assert (Project(front, i) + [e])[..|Project(front, i) + [e]| - 1] == Project(front, i);
      }
    }
  }

  /** What a start and some deltas leave in the buffer. */
  lemma {:induction false} Accumulates(start: Event, deltas: seq<Event>, i: Json, key: string)
    requires start.BlockStart? && Touches(start, i) && forall d | d in deltas :: Touches(d, i)
    requires Pieces(deltas, key) && Get(start.block, key, Str("")).Str?
    ensures Pending([start] + deltas, i)
         == Some(if AnyPiece(deltas) then start.block[key := Str(Get(start.block, key, Str("")).s + Joined(deltas))]
                 else start.block)
  {
    hide Pending, Joined, AnyPiece;
    if deltas == [] {
      PendingAppend([], start, i);
      assert [start] + deltas == [] + [start];
      NoPieces();
    } else {
      var front, d := deltas[..|deltas| - 1], deltas[|deltas| - 1];
      assert deltas == front + [d] && [start] + deltas == ([start] + front) + [d];
      assert d in deltas && forall x | x in front :: x in deltas;
      Accumulates(start, front, i, key);
      PendingAppend([start] + front, d, i);
      AnyPieceAppend(front, d);
      JoinedAppend(front, d);
      JoinedNothing(front);
      if d.BlockDelta? {
        var s := Get(start.block, key, Str("")).s;
        assert (s + Joined(front)) + d.piece.s == s + (Joined(front) + d.piece.s) && s + "" == s;
        PutTwice(start.block, key, Str(s + Joined(front)), Str(s + Joined(deltas)));
      }
      hide Pieces;
    }
  }

  lemma NoPieces()
    ensures !AnyPiece([]) && Joined([]) == ""
  {
  }

  lemma JoinedAppend(front: seq<Event>, d: Event)
    ensures Joined(front + [d]) == if d.BlockDelta? && d.piece.Str? then Joined(front) + d.piece.s else Joined(front)
  {
    assert (front + [d])[..|front + [d]| - 1] == front;
  }

  lemma PendingAppend(es: seq<Event>, e: Event, i: Json)
    ensures Pending(es + [e], i) == if Touches(e, i) then Buffered(Pending(es, i), e) else Pending(es, i)
  {
    assert (es + [e])[..|es + [e]| - 1] == es;
  }

  lemma PutTwice(fields: Fields, key: string, v: Json, w: Json)
    ensures fields[key := v][key := w] == fields[key := w]
  {
  }

  lemma AnyPieceAppend(front: seq<Event>, d: Event)
    ensures AnyPiece(front + [d]) <==> AnyPiece(front) || d.BlockDelta?
  {
    if AnyPiece(front) {
      var p :| p in front && p.BlockDelta?;
      assert p in front + [d];
    }
    assert d in front + [d];
  }

  lemma {:induction false} JoinedNothing(deltas: seq<Event>)
    ensures !AnyPiece(deltas) ==> Joined(deltas) == ""
  {
    if deltas != [] {
      var front, d := deltas[..|deltas| - 1], deltas[|deltas| - 1];
      assert deltas == front + [d];
      AnyPieceAppend(front, d);
      JoinedNothing(front);
    }
  }

  function ProseBuffer(start: Fields, deltas: seq<Event>, key: string): Fields
    requires Get(start, key, Str("")).Str?
  {
    if AnyPiece(deltas) then start[key := Str(Get(start, key, Str("")).s + Joined(deltas))] else start
  }

  /** A prose block's buffer when its stop arrives is the block exactly when the start agrees
      with it off the prose. */
  lemma ProseCompletes(start: Fields, deltas: seq<Event>, block: Fields, key: string)
    requires CarriesProse(start, deltas, block, key)
    ensures ProseBuffer(start, deltas, key) == block <==> start - {key} == block - {key}
  {
    hide Joined, AnyPiece;
    JoinedNothing(deltas);
    var buf := ProseBuffer(start, deltas, key);
    assert Lookup(buf, key) == Lookup(block, key) by {
      assert Get(start, key, Str("")).s + "" == Get(start, key, Str("")).s;
    }
    assert buf - {key} == start - {key};
    if start - {key} == block - {key} { SameOffKey(buf, block, key); }
  }

  lemma SameOffKey(a: Fields, b: Fields, key: string)
    requires a - {key} == b - {key} && Lookup(a, key) == Lookup(b, key)
    ensures a == b
  {
    forall k ensures Lookup(a, k) == Lookup(b, k) {
      if k != key { assert Lookup(a, k) == Lookup(a - {key}, k) && Lookup(b, k) == Lookup(b - {key}, k); }
    }
    SameLookups(a, b);
  }

  /** A block's buffer when its stop arrives, with the accumulated input decoded. */
  lemma InputCompletes(rt: Runtime, start: Fields, deltas: seq<Event>, block: Fields)
    requires StreamsInput(rt, start, deltas, block) && AnyPiece(deltas)
    ensures INPUT_PARTIAL !in start
    ensures Finished(rt, start[INPUT_PARTIAL := Str(Joined(deltas))]) == Some(block)
  {
    assert INPUT_PARTIAL !in start - {"input"};
    InputDecides(rt, start, Joined(deltas), block);
  }

  /** The buffer before each event of a streamed block, and the block at its stop. */
  lemma BlockStep(rt: Runtime, own: seq<Event>, i: Json, block: Fields, q: nat)
    requires StreamsBlock(rt, own, block) && q < |own| && forall e | e in own :: Touches(e, i)
    ensures Allowed(rt, Pending(own[..q], i), own[q])
    ensures own[q].BlockStop? <==> q == |own| - 1
    ensures Completed(rt, Pending(own[..q], i), own[q]) == if q == |own| - 1 then Some(block) else None
  {
    hide Joined, Pending, Finished, AnyPiece, Pieces, StreamsProse, StreamsInput;
    if q > 0 {
      var start, deltas, some := own[0].block, own[1..|own| - 1], own[1..q];
      var key := if StreamsProse(start, deltas, block, "text") then "text"
                 else if StreamsProse(start, deltas, block, "thinking") then "thinking" else INPUT_PARTIAL;
      StreamsBy(rt, start, deltas, block, key);
      assert own[..q] == [own[0]] + some;
      assert forall d | d in some :: d in deltas && d in own;
      PiecesOfSome(deltas, some, key);
      Accumulates(own[0], some, i, key);
      if q < |own| - 1 {
        assert own[q] in deltas;
        PieceOf(deltas, own[q], key);
      } else {
        assert some == deltas;
      }
    }
  }

  lemma PiecesOfSome(deltas: seq<Event>, some: seq<Event>, key: string)
    requires Pieces(deltas, key) && forall d | d in some :: d in deltas
    ensures Pieces(some, key)
  {
  }

  lemma PieceOf(deltas: seq<Event>, d: Event, key: string)
    requires Pieces(deltas, key) && d in deltas
    ensures d.OtherDelta? || (d.BlockDelta? && d.key == key && d.piece.Str?)
  {
  }

  /** Every kind of block, by the key their deltas fill. */
  lemma StreamsBy(rt: Runtime, start: Fields, deltas: seq<Event>, block: Fields, key: string)
    requires
      StreamsProse(start, deltas, block, key) || (key == INPUT_PARTIAL && StreamsInput(rt, start, deltas, block))
    ensures Pieces(deltas, key) && Get(start, key, Str("")).Str? && block != map[]
    ensures var whole := Str(Get(start, key, Str("")).s + Joined(deltas));
            var buf := if AnyPiece(deltas) then start[key := whole] else start;
            buf != map[] && Finished(rt, buf) == Some(block)
  {
    hide Joined, AnyPiece, Pieces;
    FinishedWhole(rt, block);
    if StreamsProse(start, deltas, block, key) {
      ProseCompletes(start, deltas, block, key);
    } else if AnyPiece(deltas) {
      InputCompletes(rt, start, deltas, block);
      assert "" + Joined(deltas) == Joined(deltas);
    } else {
      assert INPUT_PARTIAL !in start;
    }
    hide Finished;
  }

  lemma FinishedWhole(rt: Runtime, block: Fields)
    ensures INPUT_PARTIAL !in block ==> Finished(rt, block) == Some(block)
  {
  }

  /** A prose block comes out whole exactly when its start agrees with it off the prose: what
      only a delta of another kind brings, such as a thinking signature, is lost. */
  lemma ProseComesOutWhole(rt: Runtime, own: seq<Event>, i: Json, block: Fields, key: string)
    requires |own| >= 2 && own[0].BlockStart? && own[|own| - 1].BlockStop? && forall e | e in own :: Touches(e, i)
    requires CarriesProse(own[0].block, own[1..|own| - 1], block, key)
    ensures Completed(rt, Pending(own[..|own| - 1], i), own[|own| - 1]) == Some(block)
      <==> own[0].block - {key} == block - {key}
    ensures "signature" in block && "signature" !in own[0].block ==>
      Completed(rt, Pending(own[..|own| - 1], i), own[|own| - 1]) != Some(block)
  {
    var start, deltas := own[0].block, own[1..|own| - 1];
    assert own[..|own| - 1] == [own[0]] + deltas;
    assert forall d | d in deltas :: d in own;
    Accumulates(own[0], deltas, i, key);
    ProseCompletes(start, deltas, block, key);
    FinishedWhole(rt, ProseBuffer(start, deltas, key));
    assert "signature" in block && "signature" !in start ==>
      "signature" in block - {key} && "signature" !in start - {key};
    hide Pending, Joined, AnyPiece, Pieces, Finished;
  }

  /** A block whose input is streamed comes out whole exactly when the deltas spell its input
      and its start agrees with it off the input. */
  lemma InputComesOutWhole(rt: Runtime, own: seq<Event>, i: Json, block: Fields)
    requires |own| >= 2 && own[0].BlockStart? && own[|own| - 1].BlockStop? && forall e | e in own :: Touches(e, i)
    requires var deltas := own[1..|own| - 1]; Pieces(deltas, INPUT_PARTIAL) && AnyPiece(deltas)
    requires INPUT_PARTIAL !in own[0].block && INPUT_PARTIAL !in block
    ensures Completed(rt, Pending(own[..|own| - 1], i), own[|own| - 1]) == Some(block)
      <==> StreamsInput(rt, own[0].block, own[1..|own| - 1], block)
  {
    var start, deltas := own[0].block, own[1..|own| - 1];
    assert own[..|own| - 1] == [own[0]] + deltas;
    assert forall d | d in deltas :: d in own;
    Accumulates(own[0], deltas, i, INPUT_PARTIAL);
    assert "" + Joined(deltas) == Joined(deltas);
    InputDecides(rt, start, Joined(deltas), block);
    hide Pending, Joined, AnyPiece, Pieces, Finished;
  }

  lemma InputDecides(rt: Runtime, start: Fields, text: string, block: Fields)
    requires INPUT_PARTIAL !in start && INPUT_PARTIAL !in block
    ensures Finished(rt, start[INPUT_PARTIAL := Str(text)]) == Some(block)
      <==> start - {"input"} == block - {"input"} && "input" in block && DecodedInput(rt, text) == block["input"]
  {
    var after := (start[INPUT_PARTIAL := Str(text)] - {INPUT_PARTIAL})["input" := DecodedInput(rt, text)];
    assert after - {"input"} == start - {"input"};
    if start - {"input"} == block - {"input"} && "input" in block && DecodedInput(rt, text) == block["input"] {
      SameOffKey(after, block, "input");
    }
  }

  /** After any prefix of the stream, exactly the blocks already stopped have come out. */
  lemma {:induction false} StreamedPrefix(rt: Runtime, es: seq<Event>, indices: seq<Json>, blocks: seq<Fields>, n: nat)
    requires Streams(rt, es, indices, blocks) && n <= |es|
    ensures Accepted(rt, es[..n]) && |Stops(es[..n])| <= |blocks|
    ensures Emitted(rt, es[..n]) == blocks[..|Stops(es[..n])|]
  {
    hide Accepted, Emitted, Stops, Project, StreamsBlock, Pending, Allowed, Completed;
    PrefixesProject(es, n, Null);
    if n == 0 {
      EmptyStream(rt);
      assert es[..0] == [] && Stops([]) == [] by { NoStops(); }
    } else {
      var front, e := es[..n - 1], es[n - 1];
      StreamedPrefix(rt, es, indices, blocks, n - 1);
      assert es[..n] == front + [e];
      StreamStep(rt, front, e);
      ProjectStep(front, e);
      if HasIndex(e) { StreamedStep(rt, es, indices, blocks, n - 1); } else { HeaderEvent(rt, e); }
    }
  }

  lemma NoStops()
    ensures Stops([]) == []
  {
  }

  lemma HeaderEvent(rt: Runtime, e: Event)
    requires !HasIndex(e)
    ensures Allowed(rt, None, e) && Completed(rt, None, e) == None
  {
  }

  lemma StreamedStep(rt: Runtime, es: seq<Event>, indices: seq<Json>, blocks: seq<Fields>, n: nat)
    requires Streams(rt, es, indices, blocks) && n < |es| && HasIndex(es[n])
    ensures Allowed(rt, Pending(es[..n], es[n].index), es[n])
    ensures var m := |Stops(es[..n])|; es[n].BlockStop? ==>
      m < |blocks| && Completed(rt, Pending(es[..n], es[n].index), es[n]) == Some(blocks[m])
    ensures !es[n].BlockStop? ==> Completed(rt, Pending(es[..n], es[n].index), es[n]) == None
  {
    hide Pending, Allowed, Completed, Stops, Project, StreamsBlock;
    var front, e := es[..n], es[n];
    var k :| 0 <= k < |indices| && indices[k] == e.index;
    var own := Project(es, e.index);
    PrefixesProject(es, n, e.index);
    PrefixesProject(es, n + 1, e.index);
    assert es[..n + 1] == front + [e];
    ProjectStep(front, e);
    PendingIsLocal(front, e.index);
    PendingIsLocal(es, e.index);
    var q := |Project(front, e.index)|;
    assert own[..q] == Project(front, e.index) && own[q] == e;
    BlockStep(rt, own, e.index, blocks[k], q);
    if e.BlockStop? {
      var m := |Stops(front)|;
      assert (Stops(front) + [e.index])[m] == indices[m];
      assert m == k;
    }
  }

  /** Streaming yields the whole blocks, whatever the splits and the interleaving. */
  lemma StreamEqualsBlocks(rt: Runtime, es: seq<Event>, indices: seq<Json>, blocks: seq<Fields>)
    requires Streams(rt, es, indices, blocks)
    ensures Accepted(rt, es) && Emitted(rt, es) == blocks
  {
    StreamedPrefix(rt, es, indices, blocks, |es|);
    assert es[..|es|] == es && blocks[..|blocks|] == blocks;
  }

  lemma {:induction false} HeadersDecide(es: seq<Event>)
    ensures HeaderOf(es) == HeaderOf(Headers(es))
  {
    if es != [] {
      var front, e := es[..|es| - 1], es[|es| - 1];
      HeadersDecide(front);
      assert (Headers(front) + [e])[..|Headers(front) + [e]| - 1] == Headers(front);
    }
  }

  /** The same message as one body: the header fields agree and the content is the blocks. */
  ghost predicate SentWhole(rt: Runtime, es: seq<Event>, blocks: seq<Fields>, data: Fields) {
    && |Headers(es)| == 2 && Headers(es)[0].MessageStart? && Headers(es)[1].MessageDelta?
    && Headers(es)[0].id == Get(data, "id", Str("")) && Headers(es)[0].model == Get(data, "model", Str(""))
    && Headers(es)[1].stopReason == Some(Get(data, "stop_reason", Null)) && Headers(es)[1].outputTokens.Some?
    && Get(data, "usage", Obj(map[])).Obj?
    && ParseUsage(rt, Get(data, "usage", Obj(map[])).fields)
         == Some(Headers(es)[0].usage.(outputTokens := Headers(es)[1].outputTokens.value))
    && Get(data, "content", List([])) == List(seq(|blocks|, k requires 0 <= k < |blocks| => Obj(blocks[k])))
  }

  /** A streamed message and the same message sent whole give the same response, apart from
      the extras, which a stream does not carry. */
  lemma StreamEqualsBatch(rt: Runtime, es: seq<Event>, indices: seq<Json>, blocks: seq<Fields>, data: Fields)
    requires Streams(rt, es, indices, blocks) && SentWhole(rt, es, blocks, data)
    ensures StreamResponse(rt, es).Some? <==> InboundResponse(rt, data).Some?
    ensures InboundResponse(rt, data).Some? ==>
      StreamResponse(rt, es).value == InboundResponse(rt, data).value.(providerExtras := map[])
  {
    hide Accepted, Emitted, Headers, ParseUsage, ParseResponseContent, OptionalText, ParseString;
    StreamEqualsBlocks(rt, es, indices, blocks);
    HeadersDecide(es);
    var hs := Headers(es);
    assert hs == [hs[0]] + [hs[1]];
    StreamStep(rt, [], hs[0]);
    StreamStep(rt, [hs[0]], hs[1]);
    assert [] + [hs[0]] == [hs[0]];
    EmptyStream(rt);
    TraverseIs(FieldsParser(), seq(|blocks|, k requires 0 <= k < |blocks| => Obj(blocks[k])), blocks);
    hide HeaderOf, Traverse;
  }
}
