/** The events of a streamed message as the wire spells them, and the message that they carry. */
module AnthropicWire {
  import opened Options
  import opened JsonValues
  import opened Ir
  import opened AnthropicAdapter
  import opened AnthropicReading
  import opened AnthropicSse

  // ---- the wire form of an event ----

  /** An event of a streamed message. */
  datatype Sent =
    | Begin(id: Json, model: Json, usage: Fields)
    | Start(index: int, block: Fields)
    | Text(index: int, text: string)
    | Thinking(index: int, text: string)
    | InputJson(index: int, text: string)
    | OtherPiece(index: int)
    | Stop(index: int)
    | End(stopReason: Json, outputTokens: int)
    | Ping

  predicate HasType(ev: Fields, name: string) { Holds(ev, "type", Str(name)) }

  /** The event is about this block. */
  predicate IsAbout(ev: Fields, index: int) { Get(ev, "index", Int(0)) == Int(index) }

  predicate HoldsObject(ev: Fields, key: string) { key in ev && ev[key].Obj? }

  /** A delta of this type, whose text is under this key. */
  predicate IsPiece(ev: Fields, index: int, name: string, key: string, text: string) {
    && HasType(ev, "content_block_delta") && IsAbout(ev, index) && HoldsObject(ev, "delta")
    && HasType(ev["delta"].fields, name) && Holds(ev["delta"].fields, key, Str(text))
  }

  /** The object is the wire form of the event; other keys may be there besides. */
  predicate Spells(ev: Fields, s: Sent) {
    match s
    case Begin(id, model, usage) =>
      && HasType(ev, "message_start") && HoldsObject(ev, "message")
      && Holds(ev["message"].fields, "id", id) && Holds(ev["message"].fields, "model", model)
      && Holds(ev["message"].fields, "usage", Obj(usage))
    case Start(index, block) =>
      HasType(ev, "content_block_start") && IsAbout(ev, index) && Holds(ev, "content_block", Obj(block))
    case Text(index, text) => IsPiece(ev, index, "text_delta", "text", text)
    case Thinking(index, text) => IsPiece(ev, index, "thinking_delta", "thinking", text)
    case InputJson(index, text) => IsPiece(ev, index, "input_json_delta", "partial_json", text)
    case OtherPiece(index) =>
      && HasType(ev, "content_block_delta") && IsAbout(ev, index) && HoldsObject(ev, "delta")
      && !HasType(ev["delta"].fields, "text_delta") && !HasType(ev["delta"].fields, "thinking_delta")
      && !HasType(ev["delta"].fields, "input_json_delta")
    case Stop(index) => HasType(ev, "content_block_stop") && IsAbout(ev, index)
    case End(stopReason, outputTokens) =>
      && HasType(ev, "message_delta") && HoldsObject(ev, "delta") && HoldsObject(ev, "usage")
      && Holds(ev["delta"].fields, "stop_reason", stopReason)
      && Holds(ev["usage"].fields, "output_tokens", Int(outputTokens))
    case Ping =>
      && !HasType(ev, "message_start") && !HasType(ev, "content_block_start") && !HasType(ev, "content_block_delta")
      && !HasType(ev, "content_block_stop") && !HasType(ev, "message_delta")
  }

  ghost predicate SpellsAll(events: seq<Fields>, sents: seq<Sent>) {
    |events| == |sents| && forall k | 0 <= k < |sents| :: Spells(events[k], sents[k])
  }

  /** The usage of a start, which does not count the output. */
  function StartUsage(rt: Runtime, usage: Fields): Option<Usage> { ParseUsage(rt, usage - {"output_tokens"}) }

  /** The event that the reassembler sees. */
  function Seen(rt: Runtime, s: Sent): Option<Event> {
    match s
    case Begin(id, model, usage) =>
      (match StartUsage(rt, usage)
       case None => None
       case Some(u) => Some(MessageStart(id, model, u)))
    case Start(index, block) => Some(BlockStart(Int(index), block))
    case Text(index, text) => Some(BlockDelta(Int(index), "text", Str(text)))
    case Thinking(index, text) => Some(BlockDelta(Int(index), "thinking", Str(text)))
    case InputJson(index, text) => Some(BlockDelta(Int(index), "_input_partial", Str(text)))
    case OtherPiece(index) => Some(OtherDelta(Int(index)))
    case Stop(index) => Some(BlockStop(Int(index)))
    case End(stopReason, outputTokens) => Some(MessageDelta(Some(stopReason), Some(outputTokens)))
    case Ping => Some(Ignored)
  }

  lemma PieceIsSeen(rt: Runtime, ev: Fields, s: Sent)
    requires Spells(ev, s) && (s.Text? || s.Thinking? || s.InputJson? || s.OtherPiece?)
    ensures DecodeEvent(rt, ev) == Seen(rt, s)
  {
    hide DecodeDelta;
    DeltaIsSeen(rt, ev["delta"].fields, s);
  }

  lemma DeltaIsSeen(rt: Runtime, delta: Fields, s: Sent)
    requires match s
             case Text(_, text) => HasType(delta, "text_delta") && Holds(delta, "text", Str(text))
             case Thinking(_, text) => HasType(delta, "thinking_delta") && Holds(delta, "thinking", Str(text))
             case InputJson(_, text) => HasType(delta, "input_json_delta") && Holds(delta, "partial_json", Str(text))
             case OtherPiece(_) =>
               && !HasType(delta, "text_delta") && !HasType(delta, "thinking_delta")
               && !HasType(delta, "input_json_delta")
             case _ => false
    ensures Some(DecodeDelta(Int(s.index), delta)) == Seen(rt, s)
  {
  }

  /** Decoding the wire form of an event gives that event. */
  lemma WireIsSeen(rt: Runtime, ev: Fields, s: Sent)
    requires Faithful(rt) && Spells(ev, s)
    ensures DecodeEvent(rt, ev) == Seen(rt, s)
  {
    if s.Text? || s.Thinking? || s.InputJson? || s.OtherPiece? {
      PieceIsSeen(rt, ev, s);
    } else {
      hide ParseUsage, DecodeDelta, IsPiece;
    }
  }

  // ---- the message that the events carry ----

  predicate HasPlace(s: Sent) { !s.Begin? && !s.End? && !s.Ping? }

  /** The events about one block, in order. */
  function Of(sents: seq<Sent>, index: int): seq<Sent> {
    if sents == [] then []
    else
      var front, s := Of(sents[..|sents| - 1], index), sents[|sents| - 1];
      if HasPlace(s) && s.index == index then front + [s] else front
  }

  /** The blocks that are stopped, in order. */
  function Stopped(sents: seq<Sent>): seq<int> {
    if sents == [] then []
    else
      var front, s := Stopped(sents[..|sents| - 1]), sents[|sents| - 1];
      if s.Stop? then front + [s.index] else front
  }

  /** The events about the message itself, in order. */
  function AboutMessage(sents: seq<Sent>): seq<Sent> {
    if sents == [] then []
    else
      var front, s := AboutMessage(sents[..|sents| - 1]), sents[|sents| - 1];
      if s.Begin? || s.End? then front + [s] else front
  }

  predicate HasText(s: Sent) { s.Text? || s.Thinking? || s.InputJson? }

  /** The text that some pieces spell together. */
  function Spelled(pieces: seq<Sent>): string {
    if pieces == [] then ""
    else
      var front, s := Spelled(pieces[..|pieces| - 1]), pieces[|pieces| - 1];
      if HasText(s) then front + s.text else front
  }

  /** A text or thinking block: the start holds some of its prose and everything else, and the
      pieces spell the rest of the prose. */
  ghost predicate ProseCarried(start: Fields, pieces: seq<Sent>, block: Fields, key: string) {
    && HasType(block, key) && key in block && block[key].Str?
    && "_input_partial" !in block && "_input_partial" !in start
    && (forall s | s in pieces :: s.OtherPiece? || (if key == "text" then s.Text? else s.Thinking?))
    && start - {key} == block - {key}
    && (if key in start then start[key].Str? && block[key].s == start[key].s + Spelled(pieces)
        else (exists s | s in pieces :: HasText(s)) && block[key].s == Spelled(pieces))
  }

  /** What the text of an input stands for: an object, any other value in an object of its own,
      and nothing at all when it cannot be read. */
  predicate Stands(rt: Runtime, text: string, input: Json) {
    match rt.loads(text)
    case None => input == Obj(map[])
    case Some(Obj(fields)) => input == Obj(fields)
    case Some(v) => input == Obj(map["value" := v])
  }

  /** Any other block: the start is the block, or all of it but the input that the pieces spell. */
  ghost predicate InputCarried(rt: Runtime, start: Fields, pieces: seq<Sent>, block: Fields) {
    && block != map[] && "_input_partial" !in block && (forall s | s in pieces :: s.OtherPiece? || s.InputJson?)
    && if exists s | s in pieces :: HasText(s) then
         start - {"input"} == block - {"input"} && "input" in block && Stands(rt, Spelled(pieces), block["input"])
       else start == block
  }

  ghost predicate Carried(rt: Runtime, own: seq<Sent>, block: Fields) {
    && |own| >= 2 && own[0].Start? && own[|own| - 1].Stop?
    && var pieces := own[1..|own| - 1];
       || ProseCarried(own[0].block, pieces, block, "text")
       || ProseCarried(own[0].block, pieces, block, "thinking")
       || InputCarried(rt, own[0].block, pieces, block)
  }

  /** The events of each place carry its block, however the places interleave, and the blocks
      are stopped in their order. */
  ghost predicate CarriesAll(rt: Runtime, sents: seq<Sent>, places: seq<int>, blocks: seq<Fields>) {
    && |places| == |blocks| && Stopped(sents) == places
    && (forall j, k | 0 <= j < k < |places| :: places[j] != places[k])
    && (forall s | s in sents && HasPlace(s) :: s.index in places)
    && (forall k | 0 <= k < |blocks| :: Carried(rt, Of(sents, places[k]), blocks[k]))
  }

  /** The same message as one body: its own fields, the content, and the counts of tokens, all
      but those of the output as the start gave them. */
  ghost predicate SameMessage(sents: seq<Sent>, blocks: seq<Fields>, data: Fields) {
    var about := AboutMessage(sents);
    && |about| == 2 && about[0].Begin? && about[1].End?
    && Holds(data, "id", about[0].id) && Holds(data, "model", about[0].model)
    && Holds(data, "stop_reason", about[1].stopReason)
    && HoldsObject(data, "usage")
    && (var usage := data["usage"].fields;
        && Holds(usage, "output_tokens", Int(about[1].outputTokens))
        && Lookup(usage, "input_tokens") == Lookup(about[0].usage, "input_tokens")
        && Lookup(usage, "cache_read_input_tokens") == Lookup(about[0].usage, "cache_read_input_tokens")
        && Lookup(usage, "cache_creation_input_tokens") == Lookup(about[0].usage, "cache_creation_input_tokens"))
    && "content" in data && data["content"].List? && |data["content"].items| == |blocks|
    && forall k | 0 <= k < |blocks| :: data["content"].items[k] == Obj(blocks[k])
  }

  // ---- what the reassembler sees of them ----

  ghost predicate Sees(rt: Runtime, sents: seq<Sent>, es: seq<Event>) {
    |es| == |sents| && forall k | 0 <= k < |sents| :: Seen(rt, sents[k]) == Some(es[k])
  }

  lemma SeesPrefix(rt: Runtime, sents: seq<Sent>, es: seq<Event>)
    requires Sees(rt, sents, es) && sents != []
    ensures Sees(rt, sents[..|sents| - 1], es[..|es| - 1]) && Seen(rt, sents[|sents| - 1]) == Some(es[|es| - 1])
  {
    hide Seen;
  }

  lemma SeesAppend(rt: Runtime, sents: seq<Sent>, es: seq<Event>, s: Sent, e: Event)
    requires Sees(rt, sents, es) && Seen(rt, s) == Some(e)
    ensures Sees(rt, sents + [s], es + [e])
  {
    hide Seen;
  }

  lemma {:induction false} SeesOf(rt: Runtime, sents: seq<Sent>, es: seq<Event>, index: int)
    requires Sees(rt, sents, es)
    ensures Sees(rt, Of(sents, index), Project(es, Int(index)))
  {
    hide Sees;
    if sents == [] {
      NothingSeen(rt, sents, es);
    } else {
      SameLength(rt, sents, es);
      SeesPrefix(rt, sents, es);
      SeesOf(rt, sents[..|sents| - 1], es[..|es| - 1], index);
      var s, e := sents[|sents| - 1], es[|es| - 1];
      if HasPlace(s) && s.index == index {
        SeesAppend(rt, Of(sents[..|sents| - 1], index), Project(es[..|es| - 1], Int(index)), s, e);
      }
    }
  }

  lemma SameLength(rt: Runtime, sents: seq<Sent>, es: seq<Event>)
    requires Sees(rt, sents, es)
    ensures |es| == |sents|
  {
  }

  lemma NothingSeen(rt: Runtime, sents: seq<Sent>, es: seq<Event>)
    requires Sees(rt, sents, es) && sents == []
    ensures es == [] && Sees(rt, [], [])
  {
  }

  lemma {:induction false} SeesStops(rt: Runtime, sents: seq<Sent>, es: seq<Event>)
    requires Sees(rt, sents, es)
    ensures |Stops(es)| == |Stopped(sents)| && forall k | 0 <= k < |Stops(es)| :: Stops(es)[k] == Int(Stopped(sents)[k])
  {
    if sents != [] {
      SeesPrefix(rt, sents, es);
      SeesStops(rt, sents[..|sents| - 1], es[..|es| - 1]);
    }
  }

  lemma {:induction false} SeesHeaders(rt: Runtime, sents: seq<Sent>, es: seq<Event>)
    requires Sees(rt, sents, es)
    ensures Sees(rt, AboutMessage(sents), Headers(es))
  {
    hide Sees;
    if sents == [] {
      NothingSeen(rt, sents, es);
    } else {
      SameLength(rt, sents, es);
      SeesPrefix(rt, sents, es);
      SeesHeaders(rt, sents[..|sents| - 1], es[..|es| - 1]);
      var s, e := sents[|sents| - 1], es[|es| - 1];
      if s.Begin? || s.End? { SeesAppend(rt, AboutMessage(sents[..|sents| - 1]), Headers(es[..|es| - 1]), s, e); }
    }
  }

  lemma {:induction false} SeesText(rt: Runtime, pieces: seq<Sent>, es: seq<Event>)
    requires Sees(rt, pieces, es) && forall s | s in pieces :: HasText(s) || s.OtherPiece?
    ensures Joined(es) == Spelled(pieces) && (AnyPiece(es) <==> exists s | s in pieces :: HasText(s))
  {
    if pieces != [] {
      var front, s := pieces[..|pieces| - 1], pieces[|pieces| - 1];
      SeesPrefix(rt, pieces, es);
      assert pieces == front + [s] && s in pieces && forall x | x in front :: x in pieces;
      SeesText(rt, front, es[..|es| - 1]);
      AnyPieceAppend(es[..|es| - 1], es[|es| - 1]);
      assert es == es[..|es| - 1] + [es[|es| - 1]];
    }
  }

  lemma SeesPieces(rt: Runtime, pieces: seq<Sent>, es: seq<Event>, key: string)
    requires Sees(rt, pieces, es) && key in {"text", "thinking", "_input_partial"}
    requires forall s | s in pieces ::
      || s.OtherPiece?
      || (if key == "text" then s.Text? else if key == "thinking" then s.Thinking? else s.InputJson?)
    ensures Pieces(es, key)
  {
    forall e | e in es ensures e.OtherDelta? || (e.BlockDelta? && e.key == key && e.piece.Str?) {
      var k :| 0 <= k < |es| && es[k] == e;
      assert pieces[k] in pieces;
    }
  }

  lemma CarriedIsStreamed(rt: Runtime, own: seq<Sent>, es: seq<Event>, block: Fields)
    requires Sees(rt, own, es) && Carried(rt, own, block)
    ensures StreamsBlock(rt, es, block)
  {
    hide Joined, Spelled, AnyPiece, Pieces;
    var pieces, deltas := own[1..|own| - 1], es[1..|es| - 1];
    var start := own[0].block;
    assert Sees(rt, pieces, deltas);
    assert es[0] == BlockStart(Int(own[0].index), start);
    SeesText(rt, pieces, deltas);
    if ProseCarried(start, pieces, block, "text") {
      SeesPieces(rt, pieces, deltas, "text");
      assert "" + Spelled(pieces) == Spelled(pieces);
    } else if ProseCarried(start, pieces, block, "thinking") {
      SeesPieces(rt, pieces, deltas, "thinking");
      assert "" + Spelled(pieces) == Spelled(pieces);
    } else {
      SeesPieces(rt, pieces, deltas, "_input_partial");
    }
  }

  lemma CarriesIsStreams(rt: Runtime, sents: seq<Sent>, es: seq<Event>, places: seq<int>, blocks: seq<Fields>)
    returns (indices: seq<Json>)
    requires Sees(rt, sents, es) && CarriesAll(rt, sents, places, blocks)
    ensures Streams(rt, es, indices, blocks)
  {
    hide Carried, StreamsBlock, Project, Of, Stops, Stopped;
    indices := seq(|places|, k requires 0 <= k < |places| => Int(places[k]));
    SeesStops(rt, sents, es);
    assert Stops(es) == indices;
    forall e | e in es && HasIndex(e) ensures e.index in indices {
      var k :| 0 <= k < |es| && es[k] == e;
      assert Seen(rt, sents[k]) == Some(e) && sents[k] in sents;
      var j :| 0 <= j < |places| && places[j] == sents[k].index;
      assert indices[j] == e.index;
    }
    forall k | 0 <= k < |blocks| ensures StreamsBlock(rt, Project(es, indices[k]), blocks[k]) {
      SeesOf(rt, sents, es, places[k]);
      CarriedIsStreamed(rt, Of(sents, places[k]), Project(es, indices[k]), blocks[k]);
    }
  }

  lemma SameMessageIsWhole(rt: Runtime, sents: seq<Sent>, es: seq<Event>, blocks: seq<Fields>, data: Fields)
    requires Faithful(rt) && Sees(rt, sents, es) && SameMessage(sents, blocks, data)
    ensures SentWhole(rt, es, blocks, data)
  {
    hide Headers, AboutMessage;
    SeesHeaders(rt, sents, es);
    var about, hs := AboutMessage(sents), Headers(es);
    assert Seen(rt, about[0]) == Some(hs[0]) && Seen(rt, about[1]) == Some(hs[1]);
    assert data["content"].items == seq(|blocks|, k requires 0 <= k < |blocks| => Obj(blocks[k]));
    var u := about[0].usage;
    forall key | key != "output_tokens" ensures Get(u - {"output_tokens"}, key, Int(0)) == Get(u, key, Int(0)) {}
    forall key, m: Fields, n: Fields | Lookup(m, key) == Lookup(n, key)
      ensures Get(m, key, Int(0)) == Get(n, key, Int(0)) {}
  }

  /** The events cannot all be read exactly when the counts of a start cannot. */
  lemma UnreadableStart(rt: Runtime, sents: seq<Sent>, s: Sent)
    requires s in sents && Seen(rt, s) == None
    ensures s.Begin? && s in AboutMessage(sents) && StartUsage(rt, s.usage) == None
  {
    AboutIsAll(sents, s);
  }

  lemma {:induction false} AboutIsAll(sents: seq<Sent>, s: Sent)
    requires s in sents && (s.Begin? || s.End?)
    ensures s in AboutMessage(sents)
  {
    var front, last := sents[..|sents| - 1], sents[|sents| - 1];
    assert sents == front + [last];
    if s in front { AboutIsAll(front, s); }
  }

  /** A message streamed as wire events, split and interleaved in any way, gives the response
      that its one body gives, apart from the extras, which a stream does not carry. */
  lemma WireEqualsBatch(
      rt: Runtime, events: seq<Fields>, sents: seq<Sent>, places: seq<int>, blocks: seq<Fields>, data: Fields)
    requires Faithful(rt) && SpellsAll(events, sents)
    requires CarriesAll(rt, sents, places, blocks) && SameMessage(sents, blocks, data)
    ensures SseResponse(rt, events) ==
      match InboundResponse(rt, data)
      case None => None
      case Some(response) => Some(response.(providerExtras := map[]))
  {
    hide DecodeEvent, StreamResponse, InboundResponse, Spells, CarriesAll, Streams, SentWhole, Seen, AboutMessage;
    forall k | 0 <= k < |sents| ensures EventDecoder(rt)(events[k]) == Seen(rt, sents[k]) {
      WireIsSeen(rt, events[k], sents[k]);
    }
    var decoded := Traverse(EventDecoder(rt), events);
    if decoded.Some? {
      var es := decoded.value;
      var indices := CarriesIsStreams(rt, sents, es, places, blocks);
      SameMessageIsWhole(rt, sents, es, blocks, data);
      StreamEqualsBatch(rt, es, indices, blocks, data);
      NoStreamExtras(rt, es);
    } else {
      var k :| 0 <= k < |events| && EventDecoder(rt)(events[k]) == None;
      UnreadableStart(rt, sents, sents[k]);
      UnreadableBody(rt, sents, blocks, data, sents[k]);
    }
  }

  lemma NoStreamExtras(rt: Runtime, es: seq<Event>)
    ensures StreamResponse(rt, es).Some? ==> StreamResponse(rt, es).value.providerExtras == map[]
  {
  }

  lemma UnreadableBody(rt: Runtime, sents: seq<Sent>, blocks: seq<Fields>, data: Fields, s: Sent)
    requires Faithful(rt) && SameMessage(sents, blocks, data)
    requires s in AboutMessage(sents) && s.Begin? && StartUsage(rt, s.usage) == None
    ensures InboundResponse(rt, data) == None
  {
    hide AboutMessage;
    var about := AboutMessage(sents);
    assert about == [about[0], about[1]];
    forall key | key != "output_tokens"
      ensures Get(s.usage - {"output_tokens"}, key, Int(0)) == Get(s.usage, key, Int(0)) {}
  }

  // ---- what a response is read from ----

  /** A block of a response: text, a tool call or thinking, and otherwise the raw fields. */
  ghost predicate ResponseBlockRead(f: Fields, b: Block) {
    match b
    case TextBlock(text, rest) => TextRead(f, text, rest)
    case ToolUseBlock(id, name, input, rest) => ToolUseRead(f, id, name, input, rest)
    case ThinkingBlock(text, rest) => ThinkingRead(f, text, rest)
    case UnknownBlock(raw) =>
      raw == f && !LooksLikeText(f) && !LooksLikeToolUse(f) && !HasType(f, "thinking")
    case _ => false
  }

  lemma ResponseBlockIsRead(f: Fields, b: Block)
    ensures ParseResponseBlock(f) == Some(b) <==> ResponseBlockRead(f, b)
  {
    hide ParseTextBlock, ParseToolUseBlock, ParseThinkingBlock, TextRead, ToolUseRead, ThinkingRead;
    TextIsRead(f, b);
    ToolUseIsRead(f, b);
    ThinkingIsRead(f, b);
    ResponseTypes(f, b);
  }

  lemma ResponseTypes(f: Fields, b: Block)
    ensures b.TextBlock? && TextRead(f, b.text, b.providerData) ==> LooksLikeText(f)
    ensures b.ToolUseBlock? && ToolUseRead(f, b.id, b.name, b.input, b.providerData) ==> LooksLikeToolUse(f)
    ensures b.ThinkingBlock? && ThinkingRead(f, b.text, b.providerData) ==> HasType(f, "thinking")
  {
  }

  predicate CountRead(rt: Runtime, usage: Fields, key: string, n: int) { rt.toInt(Get(usage, key, Int(0))) == Some(n) }

  /** Each count is read from its own key. */
  predicate UsageRead(rt: Runtime, usage: Fields, u: Usage) {
    && CountRead(rt, usage, "input_tokens", u.inputTokens) && CountRead(rt, usage, "output_tokens", u.outputTokens)
    && CountRead(rt, usage, "cache_read_input_tokens", u.cacheRead)
    && CountRead(rt, usage, "cache_creation_input_tokens", u.cacheCreation)
  }

  lemma UsageIsRead(rt: Runtime, usage: Fields, u: Usage)
    ensures ParseUsage(rt, usage) == Some(u) <==> UsageRead(rt, usage, u)
  {
  }

  /** The content is a list of objects, each read as a block. */
  ghost predicate ResponseContentRead(rt: Runtime, data: Fields, content: seq<Block>) {
    if "content" !in data then content == []
    else match data["content"]
      case List(items) =>
        && |content| == |items|
        && forall i | 0 <= i < |items| :: items[i].Obj? && ResponseBlockRead(items[i].fields, content[i])
      case Str(s) => s == "" && content == []
      case Obj(f) => content == [] && (f == map[] || rt.keyOrder(f) == [])
      case _ => false
  }

  ghost predicate ResponseRead(rt: Runtime, data: Fields, r: Response) {
    && r.provider == "anthropic" && ModelRead(data, r.model)
    && (if "id" in data then data["id"] == Str(r.id) else r.id == "")
    && (match r.stopReason
        case Some(reason) => Holds(data, "stop_reason", Str(reason))
        case None => "stop_reason" !in data || data["stop_reason"].Null?)
    && (if "usage" in data then data["usage"].Obj? && UsageRead(rt, data["usage"].fields, r.usage)
        else UsageRead(rt, map[], r.usage))
    && ResponseContentRead(rt, data, r.content)
    && var modelled := {"id", "type", "model", "role", "stop_reason", "usage", "content"};
       forall k :: Lookup(r.providerExtras, k) == if k in modelled then None else Lookup(data, k)
  }

  function ContentOf(rt: Runtime, data: Fields): Option<seq<Block>> {
    match Items(rt, Get(data, "content", List([])))
    case None => None
    case Some(items) =>
      match Traverse(FieldsParser(), items)
      case None => None
      case Some(fields) => ParseResponseContent(fields)
  }

  lemma ContentOfIsRead(rt: Runtime, data: Fields, content: seq<Block>)
    ensures ContentOf(rt, data) == Some(content) <==> ResponseContentRead(rt, data, content)
  {
    hide ResponseBlockRead, ParseResponseBlock;
    var items := Items(rt, Get(data, "content", List([])));
    if items.Some? {
      var fields := Traverse(FieldsParser(), items.value);
      if fields.Some? {
        TraverseExactly(ResponseBlockParser(), fields.value, content);
        if |content| == |items.value| {
          forall i | 0 <= i < |items.value|
            ensures FieldsParser()(items.value[i]) == Some(fields.value[i])
            ensures ResponseBlockParser()(fields.value[i]) == Some(content[i])
              <==> ResponseBlockRead(items.value[i].fields, content[i])
          {
            ResponseBlockIsRead(fields.value[i], content[i]);
          }
        }
      } else {
        var i :| 0 <= i < |items.value| && FieldsParser()(items.value[i]).None?;
      }
      if !Get(data, "content", List([])).List? && items.value != [] { assert FieldsParser()(items.value[0]).None?; }
    }
    hide Traverse;
  }

  lemma ResponseExtrasAreRead(data: Fields, extras: Fields)
    ensures extras == data - RESPONSE_KEYS <==>
      forall k :: Lookup(extras, k) == if k in RESPONSE_KEYS then None else Lookup(data, k)
  {
    var rest := data - RESPONSE_KEYS;
    forall k ensures Lookup(rest, k) == if k in RESPONSE_KEYS then None else Lookup(data, k) {}
    if forall k :: Lookup(extras, k) == Lookup(rest, k) { SameLookups(extras, rest); }
  }

  /** A response body is parsed to a value exactly when it holds that value, field by field. */
  lemma ResponseIsRead(rt: Runtime, data: Fields, r: Response)
    ensures InboundResponse(rt, data) == Some(r) <==> ResponseRead(rt, data, r)
  {
    hide ParseModel, ModelRead, ResponseContentRead, ParseResponseContent, ParseUsage, UsageRead, Items, Traverse;
    ModelIsRead(data, r.model);
    ContentOfIsRead(rt, data, r.content);
    var usage := Get(data, "usage", Obj(map[]));
    if usage.Obj? { UsageIsRead(rt, usage.fields, r.usage); }
    ResponseExtrasAreRead(data, r.providerExtras);
  }
}
