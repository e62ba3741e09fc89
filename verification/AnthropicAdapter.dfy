/** The Anthropic request adapter: the parser from wire JSON to the internal request, the
    printer back, and exactly when each undoes the other. */
module AnthropicAdapter {
  import opened Options
  import opened JsonValues
  import opened Texts
  import opened Ir

  /** What the parser takes from its runtime: `json.loads`, the order in which a dictionary
      yields its keys, and the lax coercions of the validated models. */
  datatype Runtime = Runtime(
    loads: string -> Option<Json>,
    keyOrder: Fields -> seq<string>,
    toBool: Json -> Option<bool>,
    toInt: Json -> Option<int>,
    toFloat: Json -> Option<real>)

  /** Coercions leave values of the right type alone. */
  ghost predicate Faithful(rt: Runtime) {
    && (forall b :: rt.toBool(Bool(b)) == Some(b))
    && (forall n :: rt.toInt(Int(n)) == Some(n))
    && (forall r :: rt.toFloat(Float(r)) == Some(r))
  }

  const MODEL_PREFIX := "anthropic/"

  function NormaliseModel(model: string): string {
    if StartsWith(model, MODEL_PREFIX) then model else MODEL_PREFIX + model
  }

  function DenormaliseModel(model: string): string {
    if StartsWith(model, MODEL_PREFIX) then model[|MODEL_PREFIX|..] else model
  }

  const MAPPED_KEYS := {
    "model", "system", "tools", "messages", "metadata", "max_tokens", "temperature",
    "top_p", "top_k", "stop_sequences", "stream"
  }

  // ---- lists ----

  /** Every element parsed in order, failing when one of them fails. */
  function Traverse<A, B>(f: A -> Option<B>, xs: seq<A>): (ys: Option<seq<B>>)
    ensures ys.Some? <==> forall i | 0 <= i < |xs| :: f(xs[i]).Some?
    ensures ys.Some? ==> |ys.value| == |xs| && forall i | 0 <= i < |xs| :: f(xs[i]) == Some(ys.value[i])
  {
    if xs == [] then Some([])
    else
      match (f(xs[0]), Traverse(f, xs[1..]))
      case (Some(y), Some(ys)) => Some([y] + ys)
      case _ => None
  }

  /** What iterating a decoded value yields; `None` when it cannot be iterated. */
  function Items(rt: Runtime, v: Json): Option<seq<Json>> {
    match v
    case List(items) => Some(items)
    case Str(s) => Some(seq(|s|, i requires 0 <= i < |s| => Str([s[i]])))
    case Obj(fields) =>
      if fields == map[] then Some([])
      else
        var keys := rt.keyOrder(fields);
        Some(seq(|keys|, i requires 0 <= i < |keys| => Str(keys[i])))
    case _ => None
  }

  // ---- blocks ----

  function ExtraProviderData(raw: Fields, known: set<string>): Option<Fields> {
    var extra := raw - known;
    if extra == map[] then None else Some(extra)
  }

  predicate IsType(raw: Fields, name: string) { "type" in raw && raw["type"] == Str(name) }

  /** A block parser does not match, matches an invalid block, or returns a block. */
  datatype Parsed = NoMatch | Invalid | Match(block: Block)

  const TEXT_KEYS := {"type", "text"}
  const TOOL_USE_KEYS := {"type", "id", "name", "input"}
  const TOOL_RESULT_KEYS := {"type", "tool_use_id", "content", "is_error"}
  const THINKING_KEYS := {"type", "text", "thinking"}
  const IMAGE_KEYS := {"type", "source"}

  function ParseTextBlock(raw: Fields): Parsed {
    if !IsType(raw, "text") || "text" !in raw then NoMatch
    else if !raw["text"].Str? then Invalid
    else Match(TextBlock(raw["text"].s, ExtraProviderData(raw, TEXT_KEYS)))
  }

  function ParseToolUseBlock(raw: Fields): Parsed {
    if !IsType(raw, "tool_use") || !({"id", "name", "input"} <= raw.Keys) then NoMatch
    else if !raw["id"].Str? || !raw["name"].Str? || !raw["input"].Obj? then Invalid
    else Match(ToolUseBlock(raw["id"].s, raw["name"].s, raw["input"].fields, ExtraProviderData(raw, TOOL_USE_KEYS)))
  }

  /** The text under `thinking`, or, when that is missing or falsy, under `text`. */
  function ThinkingText(raw: Fields): Json {
    if Truthy(Get(raw, "thinking", Null)) then raw["thinking"] else Get(raw, "text", Str(""))
  }

  function ParseThinkingBlock(raw: Fields): Parsed {
    if !IsType(raw, "thinking") then NoMatch
    else if !ThinkingText(raw).Str? then Invalid
    else Match(ThinkingBlock(ThinkingText(raw).s, ExtraProviderData(raw, THINKING_KEYS)))
  }

  function ParseImageBlock(raw: Fields): Parsed {
    if !IsType(raw, "image") || "source" !in raw then NoMatch
    else if !raw["source"].Obj? then Invalid
    else Match(ImageBlock(raw["source"].fields, ExtraProviderData(raw, IMAGE_KEYS)))
  }

  function OrUnknown(parsed: Parsed, raw: Fields): Option<Block> {
    match parsed
    case NoMatch => Some(UnknownBlock(raw))
    case Invalid => None
    case Match(block) => Some(block)
  }

  /** The first parser that matches. */
  function OrElse(first: Parsed, second: Parsed): Parsed {
    if first.NoMatch? then second else first
  }

  function ParseSubBlock(sub: Json): Option<Block> {
    if !sub.Obj? then Some(UnknownBlock(map["value" := sub]))
    else OrUnknown(OrElse(ParseTextBlock(sub.fields), ParseImageBlock(sub.fields)), sub.fields)
  }

  function SubBlockParser(): Json -> Option<Block> { sub => ParseSubBlock(sub) }

  function ParseToolResultBlock(rt: Runtime, raw: Fields): Parsed {
    if !IsType(raw, "tool_result") || "tool_use_id" !in raw then NoMatch
    else
      var content := Get(raw, "content", List([]));
      if !content.Str? && !content.List? then Match(UnknownBlock(raw))
      else
        var subs := if content.Str? then Some([TextBlock(content.s, None)])
          else Traverse(SubBlockParser(), content.items);
        var isError := rt.toBool(Get(raw, "is_error", Bool(false)));
        if subs.None? || isError.None? || !raw["tool_use_id"].Str? then Invalid
        else Match(ToolResultBlock(raw["tool_use_id"].s, subs.value, isError.value,
                                   ExtraProviderData(raw, TOOL_RESULT_KEYS)))
  }

  function ParseContentBlock(rt: Runtime, raw: Json): Option<Block> {
    if !raw.Obj? then Some(UnknownBlock(map["value" := raw]))
    else
      var f := raw.fields;
      OrUnknown(
        OrElse(ParseTextBlock(f),
        OrElse(ParseToolUseBlock(f),
        OrElse(ParseToolResultBlock(rt, f),
        OrElse(ParseThinkingBlock(f), ParseImageBlock(f))))),
        f)
  }

  function ContentBlockParser(rt: Runtime): Json -> Option<Block> { raw => ParseContentBlock(rt, raw) }

  function BlockToFields(b: Block): Fields {
    match b
    case TextBlock(text, pd) => Restore(map["type" := Str("text"), "text" := Str(text)], pd)
    case ToolUseBlock(id, name, input, pd) =>
      Restore(map["type" := Str("tool_use"), "id" := Str(id), "name" := Str(name), "input" := Obj(input)], pd)
    case ToolResultBlock(id, content, isError, pd) =>
      var base := map["type" := Str("tool_result"), "tool_use_id" := Str(id), "content" := List(BlocksToJson(content))];
      Restore(if isError then base["is_error" := Bool(true)] else base, pd)
    case ThinkingBlock(text, pd) => Restore(map["type" := Str("thinking"), "thinking" := Str(text)], pd)
    case ImageBlock(source, pd) => Restore(map["type" := Str("image"), "source" := Obj(source)], pd)
    case UnknownBlock(raw) => raw
  }

  function BlocksToJson(blocks: seq<Block>): (out: seq<Json>)
    ensures |out| == |blocks|
    ensures forall i | 0 <= i < |blocks| :: out[i] == Obj(BlockToFields(blocks[i]))
  {
    if blocks == [] then [] else [Obj(BlockToFields(blocks[0]))] + BlocksToJson(blocks[1..])
  }

  // ---- system, tools, messages, metadata, sampling ----

  const SYSTEM_KEYS := {"type", "text", "cache_control"}
  const TOOL_KEYS := {"name", "description", "input_schema"}
  const MESSAGE_KEYS := {"role", "content"}

  function ParseSystemPart(item: Json): Option<SystemPart> {
    if !item.Obj? then None
    else
      var f := item.fields;
      var text, cache := Get(f, "text", Str("")), Get(f, "cache_control", Null);
      if Get(f, "type", Str("text")) != Str("text") || !text.Str? || !(cache.Null? || cache.Obj?) then None
      else Some(SystemPart(text.s, if cache.Obj? then Some(cache.fields) else None, ExtraProviderData(f, SYSTEM_KEYS)))
  }

  function SystemPartParser(): Json -> Option<SystemPart> { item => ParseSystemPart(item) }

  function ParseSystem(rt: Runtime, raw: Json): Option<seq<SystemPart>> {
    if raw.Str? then Some(if raw.s == "" then [] else [SystemPart(raw.s, None, None)])
    else match Items(rt, raw)
      case None => None
      case Some(items) => Traverse(SystemPartParser(), items)
  }

  function SystemPartToJson(sp: SystemPart): Json {
    var base := map["type" := Str("text"), "text" := Str(sp.text)];
    Obj(Restore(if sp.cacheHint.Some? then base["cache_control" := Obj(sp.cacheHint.value)] else base, sp.providerData))
  }

  function ParseTool(item: Json): Option<ToolDef> {
    if !item.Obj? then None
    else
      var f := item.fields;
      var name, description := Get(f, "name", Str("")), Get(f, "description", Str(""));
      var schema := Get(f, "input_schema", Obj(map[]));
      if !name.Str? || !description.Str? || !schema.Obj? then None
      else Some(ToolDef(name.s, description.s, schema.fields, ExtraProviderData(f, TOOL_KEYS)))
  }

  function ToolParser(): Json -> Option<ToolDef> { item => ParseTool(item) }

  function ParseTools(rt: Runtime, raw: Json): Option<seq<ToolDef>> {
    match Items(rt, raw)
    case None => None
    case Some(items) => Traverse(ToolParser(), items)
  }

  function ToolToJson(t: ToolDef): Json {
    Obj(Restore(map["name" := Str(t.name), "description" := Str(t.description), "input_schema" := Obj(t.inputSchema)],
                t.providerData))
  }

  function ParseMessageContent(rt: Runtime, raw: Json): Option<seq<Block>> {
    if raw.Str? then Some([TextBlock(raw.s, None)])
    else match Items(rt, raw)
      case None => None
      case Some(items) => Traverse(ContentBlockParser(rt), items)
  }

  /** A message without blocks is skipped before its role is looked at. */
  function ParseMessage(rt: Runtime, item: Json): Option<Option<Message>> {
    if !item.Obj? then None
    else
      var f := item.fields;
      match ParseMessageContent(rt, Get(f, "content", List([])))
      case None => None
      case Some(blocks) =>
        if blocks == [] then Some(None)
        else
          var role := Get(f, "role", Str("user"));
          if !role.Str? then None else Some(Some(Message(role.s, blocks, ExtraProviderData(f, MESSAGE_KEYS))))
  }

  function ParseMessageList(rt: Runtime, items: seq<Json>): Option<seq<Message>> {
    if items == [] then Some([])
    else
      match (ParseMessage(rt, items[0]), ParseMessageList(rt, items[1..]))
      case (Some(Some(m)), Some(ms)) => Some([m] + ms)
      case (Some(None), Some(ms)) => Some(ms)
      case _ => None
  }

  function ParseMessages(rt: Runtime, raw: Json): Option<seq<Message>> {
    match Items(rt, raw)
    case None => None
    case Some(items) => ParseMessageList(rt, items)
  }

  function MessageToJson(m: Message): Json {
    Obj(Restore(map["role" := Str(m.role), "content" := List(BlocksToJson(m.content))], m.providerData))
  }

  /** An optional string field of the decoded `user_id`. */
  function OptionalText(v: Json): Option<Option<string>> {
    match v
    case Null => Some(None)
    case Str(s) => Some(Some(s))
    case _ => None
  }

  const NO_METADATA := Metadata(None, None, None, map[])

  function ParseMetadata(rt: Runtime, raw: Json): Option<Metadata> {
    if !Truthy(raw) then Some(NO_METADATA)
    else if !raw.Obj? then None
    else
      var userId := Get(raw.fields, "user_id", Null);
      var decoded := if userId.Str? then rt.loads(userId.s) else None;
      var ids := if decoded.Some? && decoded.value.Obj? then decoded.value.fields else map[];
      match (OptionalText(Get(ids, "session_id", Null)), OptionalText(Get(ids, "device_id", Null)),
             OptionalText(Get(ids, "account_id", Null)))
      case (Some(s), Some(d), Some(a)) => Some(Metadata(s, d, a, raw.fields))
      case _ => None
  }

  function ParseFloat(rt: Runtime, v: Json): Option<Json> {
    if v.Null? then Some(Null) else
    match rt.toFloat(v)
    case Some(r) => Some(Float(r))
    case None => None
  }

  function ParseOptionalInt(rt: Runtime, v: Json): Option<Json> {
    if v.Null? then Some(Null) else
    match rt.toInt(v)
    case Some(n) => Some(Int(n))
    case None => None
  }

  function StringParser(): Json -> Option<string> { v => ParseString(v) }

  function ParseString(v: Json): Option<string> { if v.Str? then Some(v.s) else None }

  function ParseStops(v: Json): Option<seq<string>> {
    if v.List? then Traverse(StringParser(), v.items) else None
  }

  function ParseSampling(rt: Runtime, data: Fields): Option<Sampling> {
    match (rt.toInt(Get(data, "max_tokens", Int(0))), ParseFloat(rt, Get(data, "temperature", Null)),
           ParseFloat(rt, Get(data, "top_p", Null)), ParseOptionalInt(rt, Get(data, "top_k", Null)),
           ParseStops(Get(data, "stop_sequences", List([]))))
    case (Some(m), Some(t), Some(p), Some(k), Some(stops)) => Some(Sampling(m, t, p, k, stops))
    case _ => None
  }

  function ParseModel(raw: Json): Option<string> {
    if !Truthy(raw) then Some(MODEL_PREFIX + "unknown")
    else if raw.Str? then Some(NormaliseModel(raw.s))
    else None
  }

  // ---- requests ----

  function InboundRequest(rt: Runtime, data: Fields): Option<Request> {
    match (ParseModel(Get(data, "model", Null)), ParseSystem(rt, Get(data, "system", List([]))),
           ParseTools(rt, Get(data, "tools", List([]))), ParseMessages(rt, Get(data, "messages", List([]))),
           ParseMetadata(rt, Get(data, "metadata", Null)), ParseSampling(rt, data),
           rt.toBool(Get(data, "stream", Bool(false))))
    case (Some(model), Some(system), Some(tools), Some(messages), Some(metadata), Some(sampling), Some(stream)) =>
      if messages == [] then None
      else Some(Request(model, "anthropic", system, tools, messages, sampling, metadata, stream, data - MAPPED_KEYS))
    case _ => None
  }

  function SystemToJson(system: seq<SystemPart>): Json {
    List(seq(|system|, i requires 0 <= i < |system| => SystemPartToJson(system[i])))
  }

  function ToolsToJson(tools: seq<ToolDef>): Json {
    List(seq(|tools|, i requires 0 <= i < |tools| => ToolToJson(tools[i])))
  }

  function MessageItems(messages: seq<Message>): (items: seq<Json>)
    ensures |items| == |messages|
  {
    seq(|messages|, i requires 0 <= i < |messages| => MessageToJson(messages[i]))
  }

  function MessagesToJson(messages: seq<Message>): Json { List(MessageItems(messages)) }

  function StopsToJson(stops: seq<string>): Json {
    List(seq(|stops|, i requires 0 <= i < |stops| => Str(stops[i])))
  }

  /** What the printed request holds under a mapped key. */
  function Printed(ir: Request, key: string): Option<Json> {
    match key
    case "model" => Some(Str(DenormaliseModel(ir.model)))
    case "system" => if ir.system != [] then Some(SystemToJson(ir.system)) else None
    case "max_tokens" => Some(Int(ir.sampling.maxTokens))
    case "messages" => Some(MessagesToJson(ir.messages))
    case "temperature" => if ir.sampling.temperature.Null? then None else Some(ir.sampling.temperature)
    case "top_p" => if ir.sampling.topP.Null? then None else Some(ir.sampling.topP)
    case "top_k" => if ir.sampling.topK.Null? then None else Some(ir.sampling.topK)
    case "stop_sequences" =>
      if ir.sampling.stopSequences != [] then Some(StopsToJson(ir.sampling.stopSequences)) else None
    case "metadata" =>
      if ir.metadata.providerMetadata != map[] then Some(Obj(ir.metadata.providerMetadata)) else None
    case "stream" => if ir.stream then Some(Bool(true)) else None
    case "tools" => if ir.tools != [] then Some(ToolsToJson(ir.tools)) else None
    case _ => None
  }

  /** The printed fields among some keys. */
  function PrintedKeys(ir: Request, keys: set<string>): Fields {
    map key | key in keys && Printed(ir, key).Some? :: Printed(ir, key).value
  }

  /** The mapped fields, with the extras restored over them. */
  function OutboundRequest(ir: Request): Fields { PrintedKeys(ir, MAPPED_KEYS) + ir.providerExtras }

  method PutIf(ghost ir: Request, ghost keys: set<string>, fields: Fields, key: string, present: bool, v: Json)
    returns (after: Fields)
    requires fields == PrintedKeys(ir, keys)
    requires Printed(ir, key) == if present then Some(v) else None
    ensures after == PrintedKeys(ir, keys + {key})
  {
    hide Printed;
    after := if present then fields[key := v] else fields;
  }

  lemma PrintedValues(ir: Request)
    ensures Printed(ir, "model") == Some(Str(DenormaliseModel(ir.model)))
    ensures Printed(ir, "system") == if ir.system != [] then Some(SystemToJson(ir.system)) else None
    ensures Printed(ir, "max_tokens") == Some(Int(ir.sampling.maxTokens))
    ensures Printed(ir, "messages") == Some(MessagesToJson(ir.messages))
    ensures Printed(ir, "temperature") == if !ir.sampling.temperature.Null? then Some(ir.sampling.temperature) else None
    ensures Printed(ir, "top_p") == if !ir.sampling.topP.Null? then Some(ir.sampling.topP) else None
    ensures Printed(ir, "top_k") == if !ir.sampling.topK.Null? then Some(ir.sampling.topK) else None
    ensures Printed(ir, "stop_sequences")
         == if ir.sampling.stopSequences != [] then Some(StopsToJson(ir.sampling.stopSequences)) else None
    ensures Printed(ir, "metadata")
         == if ir.metadata.providerMetadata != map[] then Some(Obj(ir.metadata.providerMetadata)) else None
    ensures Printed(ir, "stream") == if ir.stream then Some(Bool(true)) else None
    ensures Printed(ir, "tools") == if ir.tools != [] then Some(ToolsToJson(ir.tools)) else None
  {
    hide SystemToJson, MessagesToJson, StopsToJson, ToolsToJson, DenormaliseModel;
  }

  lemma AllKeys(keys: set<string>)
    requires keys == {} + {"model"} + {"system"} + {"max_tokens"} + {"messages"} + {"temperature"} + {"top_p"}
                     + {"top_k"} + {"stop_sequences"} + {"metadata"} + {"stream"} + {"tools"}
    ensures keys == MAPPED_KEYS
  {
  }

  /** The printer as it runs: a dictionary filled key by key, the extras restored last. */
  method FillOutboundRequest(ir: Request) returns (data: Fields)
    ensures data == OutboundRequest(ir)
  {
    PrintedValues(ir);
    assert PrintedKeys(ir, {}) == map[];
    hide Printed, PrintedKeys, MAPPED_KEYS, SystemToJson, MessagesToJson, StopsToJson, ToolsToJson, DenormaliseModel;
    ghost var keys: set<string> := {};
    data := PutIf(ir, keys, map[], "model", true, Str(DenormaliseModel(ir.model)));
    keys := keys + {"model"};
    data := PutIf(ir, keys, data, "system", ir.system != [], SystemToJson(ir.system));
    keys := keys + {"system"};
    data := PutIf(ir, keys, data, "max_tokens", true, Int(ir.sampling.maxTokens));
    keys := keys + {"max_tokens"};
    data := PutIf(ir, keys, data, "messages", true, MessagesToJson(ir.messages));
    keys := keys + {"messages"};
    data := PutIf(ir, keys, data, "temperature", !ir.sampling.temperature.Null?, ir.sampling.temperature);
    keys := keys + {"temperature"};
    data := PutIf(ir, keys, data, "top_p", !ir.sampling.topP.Null?, ir.sampling.topP);
    keys := keys + {"top_p"};
    data := PutIf(ir, keys, data, "top_k", !ir.sampling.topK.Null?, ir.sampling.topK);
    keys := keys + {"top_k"};
    data := PutIf(ir, keys, data, "stop_sequences", ir.sampling.stopSequences != [],
      StopsToJson(ir.sampling.stopSequences));
    keys := keys + {"stop_sequences"};
    data := PutIf(ir, keys, data, "metadata", ir.metadata.providerMetadata != map[], Obj(ir.metadata.providerMetadata));
    keys := keys + {"metadata"};
    data := PutIf(ir, keys, data, "stream", ir.stream, Bool(true));
    keys := keys + {"stream"};
    data := PutIf(ir, keys, data, "tools", ir.tools != [], ToolsToJson(ir.tools));
    keys := keys + {"tools"};
    AllKeys(keys);
    data := data + ir.providerExtras;
  }
}
