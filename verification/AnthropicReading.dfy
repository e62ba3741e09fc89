/** What the Anthropic parser reads, field by field: a request is parsed to a value exactly
    when each part of the value is what the wire holds under its key. */
module AnthropicReading {
  import opened Options
  import opened JsonValues
  import opened Ir
  import opened AnthropicAdapter

  predicate Holds(f: Fields, key: string, v: Json) { key in f && f[key] == v }

  predicate IsFalsy(f: Fields, key: string) { key !in f || !Truthy(f[key]) }

  /** The fields beyond the known ones, or nothing when there are none. */
  ghost predicate RestIs(f: Fields, known: set<string>, rest: Option<Fields>) {
    if rest.None? then forall k | k in f :: k in known
    else
      && (exists k | k in f :: k !in known)
      && forall k :: Lookup(rest.value, k) == if k in known then None else Lookup(f, k)
  }

  lemma ExtraIsRest(f: Fields, known: set<string>, rest: Option<Fields>)
    ensures ExtraProviderData(f, known) == rest <==> RestIs(f, known, rest)
  {
    var extra := f - known;
    forall k ensures Lookup(extra, k) == if k in known then None else Lookup(f, k) {}
    assert extra != map[] <==> exists k | k in f :: k !in known by {
      if extra != map[] { var k :| k in extra; }
      if k :| k in f && k !in known { assert k in extra; }
    }
    if rest.Some? && (forall k :: Lookup(rest.value, k) == Lookup(extra, k)) { SameLookups(rest.value, extra); }
  }

  // ---- blocks ----

  ghost predicate TextRead(f: Fields, text: string, rest: Option<Fields>) {
    Holds(f, "type", Str("text")) && Holds(f, "text", Str(text)) && RestIs(f, {"type", "text"}, rest)
  }

  ghost predicate ToolUseRead(f: Fields, id: string, name: string, input: Fields, rest: Option<Fields>) {
    && Holds(f, "type", Str("tool_use")) && Holds(f, "id", Str(id)) && Holds(f, "name", Str(name))
    && Holds(f, "input", Obj(input)) && RestIs(f, {"type", "id", "name", "input"}, rest)
  }

  /** The prose is under `thinking`, or under `text` when nothing is there; it may be missing. */
  ghost predicate ThinkingRead(f: Fields, text: string, rest: Option<Fields>) {
    && Holds(f, "type", Str("thinking"))
    && (if !IsFalsy(f, "thinking") then f["thinking"] == Str(text)
        else if "text" in f then f["text"] == Str(text)
        else text == "")
    && RestIs(f, {"type", "text", "thinking"}, rest)
  }

  ghost predicate ImageRead(f: Fields, source: Fields, rest: Option<Fields>) {
    Holds(f, "type", Str("image")) && Holds(f, "source", Obj(source)) && RestIs(f, {"type", "source"}, rest)
  }

  predicate LooksLikeText(f: Fields) { Holds(f, "type", Str("text")) && "text" in f }

  predicate LooksLikeToolUse(f: Fields) {
    Holds(f, "type", Str("tool_use")) && "id" in f && "name" in f && "input" in f
  }

  predicate LooksLikeImage(f: Fields) { Holds(f, "type", Str("image")) && "source" in f }

  predicate LooksLikeToolResult(f: Fields) {
    && Holds(f, "type", Str("tool_result")) && "tool_use_id" in f
    && ("content" in f ==> f["content"].Str? || f["content"].List?)
  }

  /** A block inside a tool result. */
  ghost predicate SubBlockRead(raw: Json, b: Block) {
    match b
    case TextBlock(text, rest) => raw.Obj? && TextRead(raw.fields, text, rest)
    case ImageBlock(source, rest) => raw.Obj? && ImageRead(raw.fields, source, rest)
    case UnknownBlock(f) =>
      if raw.Obj? then raw.fields == f && !LooksLikeText(f) && !LooksLikeImage(f) else f == map["value" := raw]
    case _ => false
  }

  ghost predicate SubBlocksRead(items: seq<Json>, blocks: seq<Block>) {
    |blocks| == |items| && forall i | 0 <= i < |items| :: SubBlockRead(items[i], blocks[i])
  }

  ghost predicate ToolResultRead(
      rt: Runtime, f: Fields, id: string, content: seq<Block>, isError: bool, rest: Option<Fields>)
  {
    && Holds(f, "type", Str("tool_result")) && Holds(f, "tool_use_id", Str(id))
    && (if "content" !in f then content == []
        else match f["content"]
          case Str(s) => content == [TextBlock(s, None)]
          case List(items) => SubBlocksRead(items, content)
          case _ => false)
    && rt.toBool(Get(f, "is_error", Bool(false))) == Some(isError)
    && RestIs(f, {"type", "tool_use_id", "content", "is_error"}, rest)
  }

  ghost predicate BlockRead(rt: Runtime, raw: Json, b: Block) {
    match b
    case TextBlock(text, rest) => raw.Obj? && TextRead(raw.fields, text, rest)
    case ToolUseBlock(id, name, input, rest) => raw.Obj? && ToolUseRead(raw.fields, id, name, input, rest)
    case ToolResultBlock(id, content, isError, rest) =>
      raw.Obj? && ToolResultRead(rt, raw.fields, id, content, isError, rest)
    case ThinkingBlock(text, rest) => raw.Obj? && ThinkingRead(raw.fields, text, rest)
    case ImageBlock(source, rest) => raw.Obj? && ImageRead(raw.fields, source, rest)
    case UnknownBlock(f) =>
      if raw.Obj? then
        && raw.fields == f && !LooksLikeText(f) && !LooksLikeToolUse(f) && !LooksLikeToolResult(f)
        && !Holds(f, "type", Str("thinking")) && !LooksLikeImage(f)
      else f == map["value" := raw]
  }

  lemma TextIsRead(f: Fields, b: Block)
    ensures ParseTextBlock(f) == Match(b) <==> b.TextBlock? && TextRead(f, b.text, b.providerData)
    ensures ParseTextBlock(f).NoMatch? <==> !LooksLikeText(f)
  {
    if b.TextBlock? { ExtraIsRest(f, TEXT_KEYS, b.providerData); }
    hide ExtraProviderData, RestIs;
  }

  lemma ToolUseIsRead(f: Fields, b: Block)
    ensures ParseToolUseBlock(f) == Match(b)
      <==> b.ToolUseBlock? && ToolUseRead(f, b.id, b.name, b.input, b.providerData)
    ensures ParseToolUseBlock(f).NoMatch? <==> !LooksLikeToolUse(f)
  {
    if b.ToolUseBlock? { ExtraIsRest(f, TOOL_USE_KEYS, b.providerData); }
    hide ExtraProviderData, RestIs;
  }

  lemma ThinkingIsRead(f: Fields, b: Block)
    ensures ParseThinkingBlock(f) == Match(b) <==> b.ThinkingBlock? && ThinkingRead(f, b.text, b.providerData)
    ensures ParseThinkingBlock(f).NoMatch? <==> !Holds(f, "type", Str("thinking"))
  {
    if b.ThinkingBlock? { ExtraIsRest(f, THINKING_KEYS, b.providerData); }
    hide ExtraProviderData, RestIs;
  }

  lemma ImageIsRead(f: Fields, b: Block)
    ensures ParseImageBlock(f) == Match(b) <==> b.ImageBlock? && ImageRead(f, b.source, b.providerData)
    ensures ParseImageBlock(f).NoMatch? <==> !LooksLikeImage(f)
  {
    if b.ImageBlock? { ExtraIsRest(f, IMAGE_KEYS, b.providerData); }
    hide ExtraProviderData, RestIs;
  }

  lemma SubBlockIsRead(raw: Json, b: Block)
    ensures ParseSubBlock(raw) == Some(b) <==> SubBlockRead(raw, b)
  {
    hide ParseTextBlock, ParseImageBlock, TextRead, ImageRead;
    if raw.Obj? {
      SubTypesOfRead(raw.fields, b);
      TextIsRead(raw.fields, b);
      ImageIsRead(raw.fields, b);
    }
  }

  lemma SubTypesOfRead(f: Fields, b: Block)
    ensures b.TextBlock? && TextRead(f, b.text, b.providerData) ==> LooksLikeText(f)
    ensures b.ImageBlock? && ImageRead(f, b.source, b.providerData) ==> LooksLikeImage(f)
  {
  }

  lemma TraverseExactly<A, B>(f: A -> Option<B>, xs: seq<A>, ys: seq<B>)
    ensures Traverse(f, xs) == Some(ys) <==> |ys| == |xs| && forall i | 0 <= i < |xs| :: f(xs[i]) == Some(ys[i])
  {
    if |ys| == |xs| && forall i | 0 <= i < |xs| :: f(xs[i]) == Some(ys[i]) {
      assert Traverse(f, xs).value == ys;
    }
  }

  lemma SubBlocksAreRead(items: seq<Json>, blocks: seq<Block>)
    ensures Traverse(SubBlockParser(), items) == Some(blocks) <==> SubBlocksRead(items, blocks)
  {
    TraverseExactly(SubBlockParser(), items, blocks);
    if |blocks| == |items| {
      forall i | 0 <= i < |items|
        ensures SubBlockParser()(items[i]) == Some(blocks[i]) <==> SubBlockRead(items[i], blocks[i])
      {
        SubBlockIsRead(items[i], blocks[i]);
      }
    }
    hide Traverse, SubBlockRead, ParseSubBlock;
  }

  lemma ToolResultIsRead(rt: Runtime, f: Fields, b: Block)
    ensures ParseToolResultBlock(rt, f) == Match(b) <==>
      || (b.ToolResultBlock? && ToolResultRead(rt, f, b.toolUseId, b.content, b.isError, b.providerData))
      || (b == UnknownBlock(f) && Holds(f, "type", Str("tool_result")) && "tool_use_id" in f && !LooksLikeToolResult(f))
    ensures ParseToolResultBlock(rt, f).NoMatch? <==> !(Holds(f, "type", Str("tool_result")) && "tool_use_id" in f)
  {
    hide ExtraProviderData, RestIs, SubBlocksRead;
    if b.ToolResultBlock? {
      ExtraIsRest(f, TOOL_RESULT_KEYS, b.providerData);
      var content := Get(f, "content", List([]));
      if content.List? { SubBlocksAreRead(content.items, b.content); NoSubBlocks(b.content); }
    }
    hide Traverse, SubBlockParser;
  }

  lemma NoSubBlocks(blocks: seq<Block>)
    ensures SubBlocksRead([], blocks) <==> blocks == []
  {
  }

  /** A content block is parsed to exactly what it holds. */
  lemma BlockIsRead(rt: Runtime, raw: Json, b: Block)
    ensures ParseContentBlock(rt, raw) == Some(b) <==> BlockRead(rt, raw, b)
  {
    hide ParseTextBlock, ParseToolUseBlock, ParseToolResultBlock, ParseThinkingBlock, ParseImageBlock, TextRead,
         ToolUseRead, ToolResultRead, ThinkingRead, ImageRead;
    if raw.Obj? {
      var f := raw.fields;
      TextIsRead(f, b);
      ToolUseIsRead(f, b);
      ToolResultIsRead(rt, f, b);
      ThinkingIsRead(f, b);
      ImageIsRead(f, b);
      TypesOfRead(rt, f, b);
    }
  }

  lemma TypesOfRead(rt: Runtime, f: Fields, b: Block)
    ensures b.TextBlock? && TextRead(f, b.text, b.providerData) ==> LooksLikeText(f)
    ensures b.ToolUseBlock? && ToolUseRead(f, b.id, b.name, b.input, b.providerData) ==> LooksLikeToolUse(f)
    ensures b.ToolResultBlock? && ToolResultRead(rt, f, b.toolUseId, b.content, b.isError, b.providerData) ==>
      LooksLikeToolResult(f)
    ensures b.ThinkingBlock? && ThinkingRead(f, b.text, b.providerData) ==> Holds(f, "type", Str("thinking"))
    ensures b.ImageBlock? && ImageRead(f, b.source, b.providerData) ==> LooksLikeImage(f)
  {
  }

  // ---- system, tools and messages ----

  ghost predicate PartRead(item: Json, part: SystemPart) {
    && item.Obj?
    && var f := item.fields;
       && ("type" in f ==> f["type"] == Str("text"))
       && (if "text" in f then f["text"] == Str(part.text) else part.text == "")
       && (match part.cacheHint
           case Some(hint) => Holds(f, "cache_control", Obj(hint))
           case None => "cache_control" !in f || f["cache_control"].Null?)
       && RestIs(f, {"type", "text", "cache_control"}, part.providerData)
  }

  lemma PartIsRead(item: Json, part: SystemPart)
    ensures ParseSystemPart(item) == Some(part) <==> PartRead(item, part)
  {
    if item.Obj? { ExtraIsRest(item.fields, SYSTEM_KEYS, part.providerData); }
    hide ExtraProviderData, RestIs;
  }

  /** A text is one part, a list is read item by item, and anything else must yield nothing. */
  ghost predicate SystemRead(rt: Runtime, data: Fields, system: seq<SystemPart>) {
    if "system" !in data then system == []
    else match data["system"]
      case Str(s) => system == if s == "" then [] else [SystemPart(s, None, None)]
      case List(items) => |system| == |items| && forall i | 0 <= i < |items| :: PartRead(items[i], system[i])
      case Obj(f) => system == [] && (f == map[] || rt.keyOrder(f) == [])
      case _ => false
  }

  lemma SystemIsRead(rt: Runtime, data: Fields, system: seq<SystemPart>)
    ensures ParseSystem(rt, Get(data, "system", List([]))) == Some(system) <==> SystemRead(rt, data, system)
  {
    hide PartRead, ParseSystemPart;
    var raw := Get(data, "system", List([]));
    if !raw.Str? && Items(rt, raw).Some? {
      var items := Items(rt, raw).value;
      TraverseExactly(SystemPartParser(), items, system);
      if |system| == |items| {
        forall i | 0 <= i < |items|
          ensures SystemPartParser()(items[i]) == Some(system[i]) <==> PartRead(items[i], system[i])
        {
          PartIsRead(items[i], system[i]);
        }
      }
      if raw.Obj? && items != [] { NotAPart(items[0]); }
    }
    hide Traverse;
  }

  lemma NotAPart(item: Json)
    ensures !item.Obj? ==> SystemPartParser()(item) == None && ToolParser()(item) == None
  {
  }

  ghost predicate ToolRead(item: Json, tool: ToolDef) {
    && item.Obj?
    && var f := item.fields;
       && (if "name" in f then f["name"] == Str(tool.name) else tool.name == "")
       && (if "description" in f then f["description"] == Str(tool.description) else tool.description == "")
       && (if "input_schema" in f then f["input_schema"] == Obj(tool.inputSchema) else tool.inputSchema == map[])
       && RestIs(f, {"name", "description", "input_schema"}, tool.providerData)
  }

  lemma ToolIsRead(item: Json, tool: ToolDef)
    ensures ParseTool(item) == Some(tool) <==> ToolRead(item, tool)
  {
    if item.Obj? { ExtraIsRest(item.fields, TOOL_KEYS, tool.providerData); }
    hide ExtraProviderData, RestIs;
  }

  ghost predicate ToolsRead(rt: Runtime, data: Fields, tools: seq<ToolDef>) {
    if "tools" !in data then tools == []
    else match data["tools"]
      case Str(s) => s == "" && tools == []
      case List(items) => |tools| == |items| && forall i | 0 <= i < |items| :: ToolRead(items[i], tools[i])
      case Obj(f) => tools == [] && (f == map[] || rt.keyOrder(f) == [])
      case _ => false
  }

  lemma ToolsAreRead(rt: Runtime, data: Fields, tools: seq<ToolDef>)
    ensures ParseTools(rt, Get(data, "tools", List([]))) == Some(tools) <==> ToolsRead(rt, data, tools)
  {
    hide ToolRead, ParseTool;
    var raw := Get(data, "tools", List([]));
    if Items(rt, raw).Some? {
      var items := Items(rt, raw).value;
      TraverseExactly(ToolParser(), items, tools);
      if |tools| == |items| {
        forall i | 0 <= i < |items| ensures ToolParser()(items[i]) == Some(tools[i]) <==> ToolRead(items[i], tools[i]) {
          ToolIsRead(items[i], tools[i]);
        }
      }
      if !raw.List? && items != [] { NotAPart(items[0]); }
    }
    hide Traverse;
  }

  /** A text is one text block, a list is read block by block, and the keys of a dictionary
      are kept as blocks of no known kind. */
  ghost predicate ContentRead(rt: Runtime, f: Fields, blocks: seq<Block>) {
    if "content" !in f then blocks == []
    else match f["content"]
      case Str(s) => blocks == [TextBlock(s, None)]
      case List(items) => |blocks| == |items| && forall i | 0 <= i < |items| :: BlockRead(rt, items[i], blocks[i])
      case Obj(g) =>
        if g == map[] then blocks == []
        else
          && |blocks| == |rt.keyOrder(g)|
          && forall i | 0 <= i < |blocks| :: blocks[i] == UnknownBlock(map["value" := Str(rt.keyOrder(g)[i])])
      case _ => false
  }

  lemma ContentIsRead(rt: Runtime, f: Fields, blocks: seq<Block>)
    ensures ParseMessageContent(rt, Get(f, "content", List([]))) == Some(blocks) <==> ContentRead(rt, f, blocks)
  {
    hide BlockRead, ParseContentBlock;
    var raw := Get(f, "content", List([]));
    if !raw.Str? && Items(rt, raw).Some? {
      var items := Items(rt, raw).value;
      TraverseExactly(ContentBlockParser(rt), items, blocks);
      if |blocks| == |items| {
        forall i | 0 <= i < |items|
          ensures ContentBlockParser(rt)(items[i]) == Some(blocks[i]) <==> BlockRead(rt, items[i], blocks[i])
          ensures !items[i].Obj? ==>
            (BlockRead(rt, items[i], blocks[i]) <==> blocks[i] == UnknownBlock(map["value" := items[i]]))
        {
          BlockIsRead(rt, items[i], blocks[i]);
          if !items[i].Obj? { PlainValueRead(rt, items[i], blocks[i]); }
        }
      }
    }
    hide Traverse;
  }

  lemma PlainValueRead(rt: Runtime, raw: Json, b: Block)
    requires !raw.Obj?
    ensures BlockRead(rt, raw, b) <==> b == UnknownBlock(map["value" := raw])
  {
  }

  ghost predicate MessageRead(rt: Runtime, item: Json, m: Message) {
    && item.Obj? && m.content != [] && ContentRead(rt, item.fields, m.content)
    && (if "role" in item.fields then item.fields["role"] == Str(m.role) else m.role == "user")
    && RestIs(item.fields, {"role", "content"}, m.providerData)
  }

  /** An item without any block is no message. */
  ghost predicate MessageSkipped(rt: Runtime, item: Json) { item.Obj? && ContentRead(rt, item.fields, []) }

  /** The items that hold a block are the messages, in order. */
  ghost predicate MessagesRead(rt: Runtime, items: seq<Json>, messages: seq<Message>) {
    if items == [] then messages == []
    else if MessageSkipped(rt, items[0]) then MessagesRead(rt, items[1..], messages)
    else messages != [] && MessageRead(rt, items[0], messages[0]) && MessagesRead(rt, items[1..], messages[1..])
  }

  lemma MessageIsRead(rt: Runtime, item: Json, m: Message)
    ensures ParseMessage(rt, item) == Some(Some(m)) <==> MessageRead(rt, item, m)
    ensures ParseMessage(rt, item) == Some(None) <==> MessageSkipped(rt, item)
  {
    hide ParseMessageContent, ContentRead;
    if item.Obj? {
      ExtraIsRest(item.fields, MESSAGE_KEYS, m.providerData);
      ContentIsRead(rt, item.fields, m.content);
      ContentIsRead(rt, item.fields, []);
    }
    hide ExtraProviderData, RestIs;
  }

  lemma {:induction false} MessagesAreRead(rt: Runtime, items: seq<Json>, messages: seq<Message>)
    ensures ParseMessageList(rt, items) == Some(messages) <==> MessagesRead(rt, items, messages)
  {
    hide ParseMessage, MessageRead, MessageSkipped;
    if items != [] {
      MessagesAreRead(rt, items[1..], messages);
      if messages != [] {
        MessagesAreRead(rt, items[1..], messages[1..]);
        MessageIsRead(rt, items[0], messages[0]);
        assert messages == [messages[0]] + messages[1..];
      } else {
        MessageIsRead(rt, items[0], Message("", [], None));
      }
    }
  }

  // ---- metadata and sampling ----

  /** The user id is a string that loads to an object holding this value under this key. */
  predicate UserIdSays(rt: Runtime, metadata: Fields, key: string, v: Json) {
    && "user_id" in metadata && metadata["user_id"].Str?
    && var ids := rt.loads(metadata["user_id"].s);
       ids.Some? && ids.value.Obj? && Holds(ids.value.fields, key, v)
  }

  /** An id is what the user id says, and absent when it says null or nothing. */
  ghost predicate IdRead(rt: Runtime, metadata: Fields, key: string, id: Option<string>) {
    match id
    case Some(x) => UserIdSays(rt, metadata, key, Str(x))
    case None => forall v | UserIdSays(rt, metadata, key, v) :: v == Null
  }

  ghost predicate MetadataRead(rt: Runtime, data: Fields, m: Metadata) {
    if IsFalsy(data, "metadata") then m == Metadata(None, None, None, map[])
    else
      && data["metadata"] == Obj(m.providerMetadata)
      && IdRead(rt, m.providerMetadata, "session_id", m.sessionId)
      && IdRead(rt, m.providerMetadata, "device_id", m.deviceId)
      && IdRead(rt, m.providerMetadata, "account_id", m.accountId)
  }

  function IdsOf(rt: Runtime, metadata: Fields): Fields {
    var userId := Get(metadata, "user_id", Null);
    var decoded := if userId.Str? then rt.loads(userId.s) else None;
    if decoded.Some? && decoded.value.Obj? then decoded.value.fields else map[]
  }

  lemma IdIsRead(rt: Runtime, metadata: Fields, key: string, id: Option<string>)
    ensures OptionalText(Get(IdsOf(rt, metadata), key, Null)) == Some(id) <==> IdRead(rt, metadata, key, id)
  {
    var ids := IdsOf(rt, metadata);
    forall v ensures UserIdSays(rt, metadata, key, v) <==> Holds(ids, key, v) {}
    if key in ids { assert Holds(ids, key, ids[key]); }
  }

  lemma MetadataIsRead(rt: Runtime, data: Fields, m: Metadata)
    ensures ParseMetadata(rt, Get(data, "metadata", Null)) == Some(m) <==> MetadataRead(rt, data, m)
  {
    hide IdRead, OptionalText;
    IdIsRead(rt, m.providerMetadata, "session_id", m.sessionId);
    IdIsRead(rt, m.providerMetadata, "device_id", m.deviceId);
    IdIsRead(rt, m.providerMetadata, "account_id", m.accountId);
  }

  /** An optional number: null or missing stays null, anything else is coerced. */
  predicate FloatRead(rt: Runtime, data: Fields, key: string, v: Json) {
    if key !in data || data[key].Null? then v == Null else v.Float? && rt.toFloat(data[key]) == Some(v.r)
  }

  predicate IntRead(rt: Runtime, data: Fields, key: string, v: Json) {
    if key !in data || data[key].Null? then v == Null else v.Int? && rt.toInt(data[key]) == Some(v.n)
  }

  ghost predicate StopsRead(data: Fields, stops: seq<string>) {
    if "stop_sequences" !in data then stops == []
    else
      && data["stop_sequences"].List?
      && var items := data["stop_sequences"].items;
         |stops| == |items| && forall i | 0 <= i < |items| :: items[i] == Str(stops[i])
  }

  ghost predicate SamplingRead(rt: Runtime, data: Fields, s: Sampling) {
    && rt.toInt(Get(data, "max_tokens", Int(0))) == Some(s.maxTokens)
    && FloatRead(rt, data, "temperature", s.temperature) && FloatRead(rt, data, "top_p", s.topP)
    && IntRead(rt, data, "top_k", s.topK) && StopsRead(data, s.stopSequences)
  }

  lemma StopsAreRead(data: Fields, stops: seq<string>)
    ensures ParseStops(Get(data, "stop_sequences", List([]))) == Some(stops) <==> StopsRead(data, stops)
  {
    var v := Get(data, "stop_sequences", List([]));
    if v.List? { TraverseExactly(StringParser(), v.items, stops); }
    hide Traverse;
  }

  lemma SamplingIsRead(rt: Runtime, data: Fields, s: Sampling)
    ensures ParseSampling(rt, data) == Some(s) <==> SamplingRead(rt, data, s)
  {
    hide ParseStops, StopsRead;
    StopsAreRead(data, s.stopSequences);
  }

  // ---- the request ----

  /** The model carries the provider's prefix, added when it is missing. */
  predicate ModelRead(data: Fields, model: string) {
    if IsFalsy(data, "model") then model == "anthropic/unknown"
    else data["model"].Str? && var s := data["model"].s; model == if "anthropic/" <= s then s else "anthropic/" + s
  }

  lemma ModelIsRead(data: Fields, model: string)
    ensures ParseModel(Get(data, "model", Null)) == Some(model) <==> ModelRead(data, model)
  {
    assert MODEL_PREFIX + "unknown" == "anthropic/unknown";
  }

  /** Every key but the modelled ones, as it is. */
  ghost predicate ExtrasRead(data: Fields, extras: Fields) {
    var modelled := {"model", "system", "tools", "messages", "metadata", "max_tokens", "temperature", "top_p", "top_k",
                     "stop_sequences", "stream"};
    forall k :: Lookup(extras, k) == if k in modelled then None else Lookup(data, k)
  }

  ghost predicate RequestRead(rt: Runtime, data: Fields, ir: Request) {
    && ir.provider == "anthropic" && ModelRead(data, ir.model)
    && SystemRead(rt, data, ir.system) && ToolsRead(rt, data, ir.tools)
    && "messages" in data && data["messages"].List? && ir.messages != []
    && MessagesRead(rt, data["messages"].items, ir.messages)
    && SamplingRead(rt, data, ir.sampling) && MetadataRead(rt, data, ir.metadata)
    && rt.toBool(Get(data, "stream", Bool(false))) == Some(ir.stream)
    && ExtrasRead(data, ir.providerExtras)
  }

  lemma MessagesFieldIsRead(rt: Runtime, data: Fields, messages: seq<Message>)
    ensures ParseMessages(rt, Get(data, "messages", List([]))) == Some(messages) && messages != [] <==>
      && "messages" in data && data["messages"].List? && messages != []
      && MessagesRead(rt, data["messages"].items, messages)
  {
    var raw := Get(data, "messages", List([]));
    if Items(rt, raw).Some? {
      var items := Items(rt, raw).value;
      MessagesAreRead(rt, items, messages);
      if !raw.List? && items != [] { NotAMessage(rt, items); }
    }
    hide ParseMessageList, MessagesRead;
  }

  lemma NotAMessage(rt: Runtime, items: seq<Json>)
    requires items != [] && !items[0].Obj?
    ensures ParseMessageList(rt, items) == None
  {
  }

  lemma ExtrasAreRead(data: Fields, extras: Fields)
    ensures extras == data - MAPPED_KEYS <==> ExtrasRead(data, extras)
  {
    var rest := data - MAPPED_KEYS;
    forall k ensures Lookup(rest, k) == if k in MAPPED_KEYS then None else Lookup(data, k) {}
    if forall k :: Lookup(extras, k) == Lookup(rest, k) { SameLookups(extras, rest); }
  }

  /** A request is parsed to a value exactly when the wire holds that value, field by field. */
  lemma RequestIsRead(rt: Runtime, data: Fields, ir: Request)
    ensures InboundRequest(rt, data) == Some(ir) <==> RequestRead(rt, data, ir)
  {
    hide ParseModel, ParseSystem, ParseTools, ParseMessages, ParseMetadata, ParseSampling, ModelRead, SystemRead,
         ToolsRead, MessagesRead, SamplingRead, MetadataRead, ExtrasRead, MAPPED_KEYS;
    ModelIsRead(data, ir.model);
    SystemIsRead(rt, data, ir.system);
    ToolsAreRead(rt, data, ir.tools);
    MessagesFieldIsRead(rt, data, ir.messages);
    MetadataIsRead(rt, data, ir.metadata);
    SamplingIsRead(rt, data, ir.sampling);
    ExtrasAreRead(data, ir.providerExtras);
  }

  /** In particular the ids: each is what the user id says under its own key. */
  lemma IdsAreRead(rt: Runtime, data: Fields, x: string)
    requires InboundRequest(rt, data).Some?
    ensures var m := InboundRequest(rt, data).value.metadata;
            var says := (key: string) =>
              "metadata" in data && data["metadata"].Obj? && UserIdSays(rt, data["metadata"].fields, key, Str(x));
            && (m.sessionId == Some(x) <==> says("session_id"))
            && (m.deviceId == Some(x) <==> says("device_id"))
            && (m.accountId == Some(x) <==> says("account_id"))
  {
    hide InboundRequest, ModelRead, SystemRead, ToolsRead, MessagesRead, SamplingRead;
    RequestIsRead(rt, data, InboundRequest(rt, data).value);
  }
}
