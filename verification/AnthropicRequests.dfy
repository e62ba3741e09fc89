/** The round trips of whole requests, component by component and then together. */
module AnthropicRequests {
  import opened Options
  import opened JsonValues
  import opened Texts
  import opened Ir
  import opened AnthropicAdapter
  import opened AnthropicRoundTrip

  // ---- lists of components ----

  lemma TraverseRoundTrip<T>(parse: Json -> Option<T>, show: T -> Json, vs: seq<T>, printed: seq<Json>)
    requires forall v | v in vs :: parse(show(v)) == Some(v)
    requires |printed| == |vs| && forall i | 0 <= i < |vs| :: printed[i] == show(vs[i])
    ensures Traverse(parse, printed) == Some(vs)
  {
    forall i | 0 <= i < |vs| ensures parse(printed[i]) == Some(vs[i]) { assert vs[i] in vs; }
    assert Traverse(parse, printed).value == vs;
  }

  lemma TraverseNormalForm<T>(
      parse: Json -> Option<T>, show: T -> Json, normal: Json -> bool, items: seq<Json>, printed: seq<Json>)
    requires forall item | item in items :: (parse(item).Some? && show(parse(item).value) == item) <==> normal(item)
    requires Traverse(parse, items).Some? ==>
      |printed| == |items| && forall i | 0 <= i < |items| :: printed[i] == show(Traverse(parse, items).value[i])
    ensures (Traverse(parse, items).Some? && printed == items) <==> forall item | item in items :: normal(item)
  {
    if forall item | item in items :: normal(item) {
      forall i | 0 <= i < |items| ensures parse(items[i]).Some? && show(parse(items[i]).value) == items[i] {
        assert items[i] in items;
      }
      assert printed == items;
    }
    if Traverse(parse, items).Some? && printed == items {
      forall item | item in items ensures normal(item) { var i :| 0 <= i < |items| && items[i] == item; }
    }
  }

  function OrDefault(x: Option<Json>, default: Json): Json {
    if x.Some? then x.value else default
  }

  // ---- model ----

  /** The model is neither the bare nor the doubled prefix. */
  predicate ModelStable(x: Option<Json>) {
    x.Some? && x.value.Str? ==>
      x.value.s != MODEL_PREFIX && !StartsWith(x.value.s, MODEL_PREFIX + MODEL_PREFIX)
  }

  ghost predicate NormalModel(x: Option<Json>) {
    x.Some? && x.value.Str? && x.value.s != "" && !StartsWith(x.value.s, MODEL_PREFIX)
  }

  lemma Unprefix(t: string)
    ensures StartsWith(MODEL_PREFIX + t, MODEL_PREFIX) && (MODEL_PREFIX + t)[|MODEL_PREFIX|..] == t
    ensures StartsWith(t, MODEL_PREFIX) ==> MODEL_PREFIX + t[|MODEL_PREFIX|..] == t
    ensures StartsWith(MODEL_PREFIX + t, MODEL_PREFIX + MODEL_PREFIX) <==> StartsWith(t, MODEL_PREFIX)
  {
    if StartsWith(t, MODEL_PREFIX) {
      var u := t[|MODEL_PREFIX|..];
      assert t == MODEL_PREFIX + u;
      assert MODEL_PREFIX + t == (MODEL_PREFIX + MODEL_PREFIX) + u;
    }
    if StartsWith(MODEL_PREFIX + t, MODEL_PREFIX + MODEL_PREFIX) {
      var whole := MODEL_PREFIX + t;
      assert whole[..2 * |MODEL_PREFIX|] == MODEL_PREFIX + MODEL_PREFIX;
      assert t[..|MODEL_PREFIX|] == whole[|MODEL_PREFIX|..2 * |MODEL_PREFIX|] == MODEL_PREFIX;
    }
  }

  lemma ModelRoundTrip(x: Option<Json>)
    requires ParseModel(OrDefault(x, Null)).Some?
    ensures var v := ParseModel(OrDefault(x, Null)).value;
            && (ParseModel(Str(DenormaliseModel(v))) == Some(v) <==> ModelStable(x))
            && (Some(Str(DenormaliseModel(v))) == x <==> NormalModel(x))
  {
    var raw := OrDefault(x, Null);
    var v := ParseModel(raw).value;
    if !Truthy(raw) {
      Unprefix("unknown");
    } else if StartsWith(raw.s, MODEL_PREFIX) {
      var t := raw.s[|MODEL_PREFIX|..];
      assert raw.s == MODEL_PREFIX + t;
      Unprefix(t);
      assert |t| < |raw.s|;
    } else {
      Unprefix(raw.s);
    }
  }

  // ---- system ----

  ghost predicate NormalSystemPart(item: Json) {
    item.Obj? && IsType(item.fields, "text") && "text" in item.fields && item.fields["text"].Str?
    && ("cache_control" in item.fields ==> item.fields["cache_control"].Obj?)
  }

  function SystemBase(sp: SystemPart): Fields {
    var base := map["type" := Str("text"), "text" := Str(sp.text)];
    if sp.cacheHint.Some? then base["cache_control" := Obj(sp.cacheHint.value)] else base
  }

  lemma SystemPartRoundTrip(sp: SystemPart)
    requires DataOk(sp.providerData, SYSTEM_KEYS)
    ensures ParseSystemPart(SystemPartToJson(sp)) == Some(sp)
  {
    var base := SystemBase(sp);
    RestoredApart(base, sp.providerData, SYSTEM_KEYS);
    var all := Restore(base, sp.providerData);
    assert SystemPartToJson(sp) == Obj(all);
    hide Restore, ExtraProviderData, DataOk;
    TypeAndKey(all, base, SYSTEM_KEYS);
  }

  lemma SystemPartNormalForm(item: Json)
    ensures (ParseSystemPart(item).Some? && SystemPartToJson(ParseSystemPart(item).value) == item)
      <==> NormalSystemPart(item)
  {
    if ParseSystemPart(item).Some? {
      var sp, f := ParseSystemPart(item).value, item.fields;
      var base := SystemBase(sp);
      RestoreRebuilds(base, f, SYSTEM_KEYS);
      assert SystemPartToJson(sp) == Obj(Restore(base, ExtraProviderData(f, SYSTEM_KEYS)));
      hide Restore, ExtraProviderData, SystemPartToJson;
      assert forall k | k in SYSTEM_KEYS :: k == "type" || k == "text" || k == "cache_control";
      assert (forall k | k in SYSTEM_KEYS :: Lookup(base, k) == Lookup(f, k)) <==>
        Lookup(base, "type") == Lookup(f, "type") && Lookup(base, "text") == Lookup(f, "text")
        && Lookup(base, "cache_control") == Lookup(f, "cache_control");
    }
  }

  ghost predicate NormalSystem(x: Option<Json>) {
    x.Some? ==> x.value.List? && x.value.items != [] && forall item | item in x.value.items :: NormalSystemPart(item)
  }

  function PrintedSystem(system: seq<SystemPart>): Option<Json> {
    if system != [] then Some(SystemToJson(system)) else None
  }

  lemma SystemsRoundTrip(rt: Runtime, x: Option<Json>)
    requires ParseSystem(rt, OrDefault(x, List([]))).Some?
    ensures var v := ParseSystem(rt, OrDefault(x, List([]))).value;
            && ParseSystem(rt, OrDefault(PrintedSystem(v), List([]))) == Some(v)
  {
    var raw := OrDefault(x, List([]));
    var v := ParseSystem(rt, raw).value;
    forall sp | sp in v ensures SystemPartParser()(SystemPartToJson(sp)) == Some(sp) {
      if raw.Str? {
      } else {
        var items := Items(rt, raw).value;
        var i :| 0 <= i < |v| && v[i] == sp;
        assert SystemPartParser()(items[i]) == Some(sp);
        CapturedIsOk(items[i].fields, SYSTEM_KEYS);
      }
      SystemPartRoundTrip(sp);
    }
    if v != [] {
      TraverseRoundTrip(SystemPartParser(), sp => SystemPartToJson(sp), v, SystemToJson(v).items);
    }
  }

  lemma SystemsNormalForm(rt: Runtime, x: Option<Json>)
    ensures var v := ParseSystem(rt, OrDefault(x, List([])));
            (v.Some? && PrintedSystem(v.value) == x) <==> NormalSystem(x)
  {
    if x.Some? && x.value.List? {
      var items := x.value.items;
      forall item | item in items
        ensures (SystemPartParser()(item).Some? && SystemPartToJson(SystemPartParser()(item).value) == item)
          <==> NormalSystemPart(item)
      {
        SystemPartNormalForm(item);
      }
      var v := ParseSystem(rt, x.value);
      hide SystemPartToJson, NormalSystemPart, SystemPartParser;
      TraverseNormalForm(SystemPartParser(), sp => SystemPartToJson(sp), item => NormalSystemPart(item), items,
                         if v.Some? then SystemToJson(v.value).items else []);
    }
  }

  // ---- tools ----

  ghost predicate NormalTool(item: Json) {
    item.Obj?
    && (var f := item.fields;
        && "name" in f && f["name"].Str? && "description" in f && f["description"].Str?
        && "input_schema" in f && f["input_schema"].Obj?)
  }

  function ToolBase(t: ToolDef): Fields {
    map["name" := Str(t.name), "description" := Str(t.description), "input_schema" := Obj(t.inputSchema)]
  }

  lemma ToolRoundTrip(t: ToolDef)
    requires DataOk(t.providerData, TOOL_KEYS)
    ensures ParseTool(ToolToJson(t)) == Some(t)
  {
    RestoredApart(ToolBase(t), t.providerData, TOOL_KEYS);
    var all := Restore(ToolBase(t), t.providerData);
    assert ToolToJson(t) == Obj(all);
    hide Restore, ExtraProviderData, DataOk;
    TypeAndKey(all, ToolBase(t), TOOL_KEYS);
  }

  lemma ToolNormalForm(item: Json)
    ensures (ParseTool(item).Some? && ToolToJson(ParseTool(item).value) == item) <==> NormalTool(item)
  {
    if ParseTool(item).Some? {
      var t, f := ParseTool(item).value, item.fields;
      var base := ToolBase(t);
      RestoreRebuilds(base, f, TOOL_KEYS);
      assert ToolToJson(t) == Obj(Restore(base, ExtraProviderData(f, TOOL_KEYS)));
      hide Restore, ExtraProviderData, ToolToJson;
      assert forall k | k in TOOL_KEYS :: k == "name" || k == "description" || k == "input_schema";
      assert (forall k | k in TOOL_KEYS :: Lookup(base, k) == Lookup(f, k)) <==>
        Lookup(base, "name") == Lookup(f, "name") && Lookup(base, "description") == Lookup(f, "description")
        && Lookup(base, "input_schema") == Lookup(f, "input_schema");
    }
  }

  ghost predicate NormalTools(x: Option<Json>) {
    x.Some? ==> x.value.List? && x.value.items != [] && forall item | item in x.value.items :: NormalTool(item)
  }

  function PrintedTools(tools: seq<ToolDef>): Option<Json> {
    if tools != [] then Some(ToolsToJson(tools)) else None
  }

  lemma ParsedToolIsOk(item: Json)
    ensures ParseTool(item).Some? ==> DataOk(ParseTool(item).value.providerData, TOOL_KEYS)
  {
    if item.Obj? { CapturedIsOk(item.fields, TOOL_KEYS); }
    hide ExtraProviderData, DataOk;
  }

  lemma ToolListRoundTrip(items: seq<Json>, v: seq<ToolDef>)
    requires Traverse(ToolParser(), items) == Some(v)
    ensures Traverse(ToolParser(), ToolsToJson(v).items) == Some(v)
  {
    hide Traverse, ToolToJson, DataOk, ParseTool;
    forall t | t in v ensures ToolParser()(ToolToJson(t)) == Some(t) {
      var i :| 0 <= i < |v| && v[i] == t;
      assert ToolParser()(items[i]) == Some(t);
      ParsedToolIsOk(items[i]);
      ToolRoundTrip(t);
    }
    hide ToolParser;
    TraverseRoundTrip(ToolParser(), t => ToolToJson(t), v, ToolsToJson(v).items);
  }

  lemma ToolsRoundTrip(rt: Runtime, x: Option<Json>)
    requires ParseTools(rt, OrDefault(x, List([]))).Some?
    ensures var v := ParseTools(rt, OrDefault(x, List([]))).value;
            ParseTools(rt, OrDefault(PrintedTools(v), List([]))) == Some(v)
  {
    var items := Items(rt, OrDefault(x, List([]))).value;
    var v := ParseTools(rt, OrDefault(x, List([]))).value;
    hide ToolToJson, ToolParser;
    ToolListRoundTrip(items, v);
  }

  lemma ToolsNormalForm(rt: Runtime, x: Option<Json>)
    ensures var v := ParseTools(rt, OrDefault(x, List([])));
            (v.Some? && PrintedTools(v.value) == x) <==> NormalTools(x)
  {
    if x.Some? && x.value.List? {
      var items := x.value.items;
      forall item | item in items
        ensures (ToolParser()(item).Some? && ToolToJson(ToolParser()(item).value) == item) <==> NormalTool(item)
      {
        ToolNormalForm(item);
      }
      var v := ParseTools(rt, x.value);
      hide ToolToJson, NormalTool, ToolParser;
      TraverseNormalForm(ToolParser(), t => ToolToJson(t), item => NormalTool(item), items,
                         if v.Some? then ToolsToJson(v.value).items else []);
    }
  }

  // ---- messages ----

  ghost predicate NormalMessage(item: Json) {
    item.Obj?
    && (var f := item.fields;
        && "role" in f && f["role"].Str?
        && "content" in f && f["content"].List? && f["content"].items != []
        && forall b | b in f["content"].items :: NormalBlock(b))
  }

  ghost predicate MessageOk(m: Message) {
    m.content != [] && DataOk(m.providerData, MESSAGE_KEYS) && forall b | b in m.content :: BlockOk(b)
  }

  function MessageBase(m: Message): Fields {
    map["role" := Str(m.role), "content" := List(BlocksToJson(m.content))]
  }

  lemma MessageRoundTrip(rt: Runtime, m: Message)
    requires Faithful(rt) && MessageOk(m)
    ensures ParseMessage(rt, MessageToJson(m)) == Some(Some(m))
  {
    forall b | b in m.content ensures ContentBlockParser(rt)(Obj(BlockToFields(b))) == Some(b) {
      BlockRoundTrip(rt, b);
    }
    TraverseRoundTrip(ContentBlockParser(rt), b => Obj(BlockToFields(b)), m.content, BlocksToJson(m.content));
    RestoredApart(MessageBase(m), m.providerData, MESSAGE_KEYS);
    var all := Restore(MessageBase(m), m.providerData);
    assert MessageToJson(m) == Obj(all);
    hide Restore, ExtraProviderData, DataOk, BlocksToJson, ContentBlockParser, BlockOk;
    TypeAndKey(all, MessageBase(m), MESSAGE_KEYS);
  }

  lemma ParsedMessageIsOk(rt: Runtime, item: Json)
    ensures var m := ParseMessage(rt, item); m.Some? && m.value.Some? ==> MessageOk(m.value.value)
  {
    var m := ParseMessage(rt, item);
    if m.Some? && m.value.Some? {
      var f := item.fields;
      var raw, blocks := Get(f, "content", List([])), m.value.value.content;
      CapturedIsOk(f, MESSAGE_KEYS);
      forall b | b in blocks ensures BlockOk(b) {
        if raw.Str? {
          NoDataIsOk();
        } else {
          var items := Items(rt, raw).value;
          var i :| 0 <= i < |blocks| && blocks[i] == b;
          assert ContentBlockParser(rt)(items[i]) == Some(b);
          ParsedBlockIsOk(rt, items[i]);
        }
      }
    }
  }

  lemma ContentNormalForm(rt: Runtime, items: seq<Json>)
    requires Faithful(rt)
    ensures var blocks := ParseMessageContent(rt, List(items));
            (blocks.Some? && BlocksToJson(blocks.value) == items) <==> forall b | b in items :: NormalBlock(b)
  {
    forall b | b in items
      ensures (ContentBlockParser(rt)(b).Some? && Obj(BlockToFields(ContentBlockParser(rt)(b).value)) == b)
        <==> NormalBlock(b)
    {
      BlockNormalForm(rt, b);
    }
    var blocks := ParseMessageContent(rt, List(items));
    hide NormalBlock, ContentBlockParser;
    TraverseNormalForm(ContentBlockParser(rt), b => Obj(BlockToFields(b)), b => NormalBlock(b), items,
                       if blocks.Some? then BlocksToJson(blocks.value) else []);
  }

  lemma MessageNormalForm(rt: Runtime, item: Json)
    requires Faithful(rt)
    ensures var m := ParseMessage(rt, item);
            (m.Some? && m.value.Some? && MessageToJson(m.value.value) == item) <==> NormalMessage(item)
  {
    hide NormalBlock, ParseMessageContent, ContentBlockParser, BlocksToJson, MessageToJson, MessageBase;
    var m := ParseMessage(rt, item);
    if item.Obj? {
      var f := item.fields;
      var raw := Get(f, "content", List([]));
      if raw.List? { ContentNormalForm(rt, raw.items); }
      if m.Some? && m.value.Some? { MessageRebuilds(m.value.value, f); }
    }
  }

  /** A message with the captured overflow prints back exactly when role and content do. */
  lemma MessageRebuilds(m: Message, f: Fields)
    requires m.providerData == ExtraProviderData(f, MESSAGE_KEYS)
    ensures MessageToJson(m) == Obj(f)
      <==> Lookup(f, "role") == Some(Str(m.role)) && Lookup(f, "content") == Some(List(BlocksToJson(m.content)))
  {
    var base := MessageBase(m);
    RestoreRebuilds(base, f, MESSAGE_KEYS);
    assert MessageToJson(m) == Obj(Restore(base, ExtraProviderData(f, MESSAGE_KEYS)));
    hide Restore, ExtraProviderData, MessageToJson, BlocksToJson;
    assert forall k | k in MESSAGE_KEYS :: k == "role" || k == "content";
    assert (forall k | k in MESSAGE_KEYS :: Lookup(base, k) == Lookup(f, k)) <==>
      Lookup(base, "role") == Lookup(f, "role") && Lookup(base, "content") == Lookup(f, "content");
  }

  lemma ParseMessageListStep(rt: Runtime, item: Json, items: seq<Json>)
    ensures var all := ParseMessageList(rt, [item] + items);
            var m, rest := ParseMessage(rt, item), ParseMessageList(rt, items);
            && (all.Some? <==> m.Some? && rest.Some?)
            && (all.Some? ==> all.value == if m.value.Some? then [m.value.value] + rest.value else rest.value)
  {
    hide ParseMessage;
    assert ([item] + items)[1..] == items;
  }

  lemma MessageItemsStep(m: Message, ms: seq<Message>)
    ensures MessageItems([m] + ms) == [MessageToJson(m)] + MessageItems(ms)
  {
    hide MessageToJson;
  }

  lemma NoMessagesAtAll(rt: Runtime)
    ensures ParseMessageList(rt, []) == Some([])
  {
  }

  lemma ConsEqual<T>(a: T, s: seq<T>, b: T, t: seq<T>)
    ensures [a] + s == [b] + t <==> a == b && s == t
  {
    if [a] + s == [b] + t {
      assert ([a] + s)[0] == ([b] + t)[0] && ([a] + s)[1..] == ([b] + t)[1..];
    }
  }

  lemma {:induction false} MessageListShape(rt: Runtime, items: seq<Json>)
    requires Faithful(rt)
    ensures var ms := ParseMessageList(rt, items);
            && (ms.Some? ==> |ms.value| <= |items| && forall m | m in ms.value :: MessageOk(m))
            && ((ms.Some? && MessageItems(ms.value) == items) <==> forall item | item in items :: NormalMessage(item))
  {
    hide MessageToJson, NormalMessage, MessageOk, ParseMessage, ParseMessageList, MessageItems, Faithful;
    NoMessagesAtAll(rt);
    if items != [] {
      var item, tail := items[0], items[1..];
      assert items == [item] + tail;
      MessageListShape(rt, tail);
      MessageNormalForm(rt, item);
      ParsedMessageIsOk(rt, item);
      ParseMessageListStep(rt, item, tail);
      assert (forall x | x in items :: NormalMessage(x))
        <==> NormalMessage(item) && forall x | x in tail :: NormalMessage(x);
      var m, rest := ParseMessage(rt, item), ParseMessageList(rt, tail);
      if m.Some? && m.value.Some? && rest.Some? {
        MessageItemsStep(m.value.value, rest.value);
        ConsEqual(MessageToJson(m.value.value), MessageItems(rest.value), item, tail);
      }
    }
  }

  lemma {:induction false} MessageListRoundTrip(rt: Runtime, ms: seq<Message>)
    requires Faithful(rt) && forall m | m in ms :: MessageOk(m)
    ensures ParseMessageList(rt, MessageItems(ms)) == Some(ms)
  {
    hide MessageToJson, MessageOk, ParseMessage, ParseMessageList, MessageItems, Faithful;
    NoMessagesAtAll(rt);
    if ms != [] {
      var m, tail := ms[0], ms[1..];
      assert ms == [m] + tail;
      MessageListRoundTrip(rt, tail);
      MessageRoundTrip(rt, m);
      MessageItemsStep(m, tail);
      ParseMessageListStep(rt, MessageToJson(m), MessageItems(tail));
    }
  }

  ghost predicate NormalMessages(x: Option<Json>) {
    x.Some? && x.value.List? && x.value.items != [] && forall item | item in x.value.items :: NormalMessage(item)
  }

  lemma MessagesNormalForm(rt: Runtime, x: Option<Json>)
    requires Faithful(rt)
    ensures var v := ParseMessages(rt, OrDefault(x, List([])));
            && (v.Some? ==> ParseMessages(rt, MessagesToJson(v.value)) == Some(v.value))
            && ((v.Some? && v.value != [] && Some(MessagesToJson(v.value)) == x) <==> NormalMessages(x))
  {
    var raw := OrDefault(x, List([]));
    var items := Items(rt, raw);
    if items.Some? {
      MessageListShape(rt, items.value);
      var v := ParseMessages(rt, raw);
      if v.Some? { MessageListRoundTrip(rt, v.value); }
    }
  }

  // ---- metadata ----

  /** When `user_id` is the text of an object, each id in it is absent, null or a string. */
  predicate ReadableIds(rt: Runtime, metadata: Fields) {
    var userId := Get(metadata, "user_id", Null);
    userId.Str? && rt.loads(userId.s).Some? && rt.loads(userId.s).value.Obj? ==>
      var ids := rt.loads(userId.s).value.fields;
      forall k | k in {"session_id", "device_id", "account_id"} :: k !in ids || ids[k].Null? || ids[k].Str?
  }

  /** No metadata, or a metadata object that is not empty and whose ids are readable. */
  ghost predicate NormalMetadata(rt: Runtime, x: Option<Json>) {
    x.Some? ==> x.value.Obj? && x.value.fields != map[] && ReadableIds(rt, x.value.fields)
  }

  function PrintedMetadata(metadata: Metadata): Option<Json> {
    if metadata.providerMetadata != map[] then Some(Obj(metadata.providerMetadata)) else None
  }

  lemma MetadataRoundTrip(rt: Runtime, x: Option<Json>)
    ensures var v := ParseMetadata(rt, OrDefault(x, Null));
            && (v.Some? ==> ParseMetadata(rt, OrDefault(PrintedMetadata(v.value), Null)) == v)
            && ((v.Some? && PrintedMetadata(v.value) == x) <==> NormalMetadata(rt, x))
  {
  }

  // ---- sampling ----

  ghost predicate NormalFloat(x: Option<Json>) { x.Some? ==> x.value.Float? }

  ghost predicate NormalInt(x: Option<Json>) { x.Some? ==> x.value.Int? }

  ghost predicate NormalStops(x: Option<Json>) {
    x.Some? ==> x.value.List? && x.value.items != [] && forall s | s in x.value.items :: s.Str?
  }

  function PrintedValue(v: Json): Option<Json> { if v.Null? then None else Some(v) }

  function PrintedStops(stops: seq<string>): Option<Json> {
    if stops != [] then Some(StopsToJson(stops)) else None
  }

  lemma ScalarsRoundTrip(rt: Runtime, x: Option<Json>)
    requires Faithful(rt)
    ensures var v := ParseFloat(rt, OrDefault(x, Null));
            && (v.Some? ==> ParseFloat(rt, OrDefault(PrintedValue(v.value), Null)) == v)
            && ((v.Some? && PrintedValue(v.value) == x) <==> NormalFloat(x))
    ensures var v := ParseOptionalInt(rt, OrDefault(x, Null));
            && (v.Some? ==> ParseOptionalInt(rt, OrDefault(PrintedValue(v.value), Null)) == v)
            && ((v.Some? && PrintedValue(v.value) == x) <==> NormalInt(x))
  {
  }

  lemma StopsRoundTrip(x: Option<Json>)
    ensures var v := ParseStops(OrDefault(x, List([])));
            && (v.Some? ==> ParseStops(OrDefault(PrintedStops(v.value), List([]))) == v)
            && ((v.Some? && PrintedStops(v.value) == x) <==> NormalStops(x))
  {
    var v := ParseStops(OrDefault(x, List([])));
    if v.Some? && v.value != [] {
      var items := x.value.items;
      TraverseRoundTrip(StringParser(), (s: string) => Str(s), v.value, StopsToJson(v.value).items);
      forall i | 0 <= i < |items| ensures StopsToJson(v.value).items[i] == items[i] {
        assert StringParser()(items[i]) == Some(v.value[i]);
      }
      assert StopsToJson(v.value).items == items;
      forall s | s in items ensures s.Str? {
        var i :| 0 <= i < |items| && items[i] == s;
        assert StringParser()(items[i]).Some?;
      }
    } else if x.Some? && x.value.List? {
      var items := x.value.items;
      if forall s | s in items :: s.Str? {
        forall i | 0 <= i < |items| ensures StringParser()(items[i]).Some? { assert items[i] in items; }
      }
    }
  }

  // ---- whole requests ----

  lemma MappedLookup(ir: Request)
    requires ir.providerExtras.Keys !! MAPPED_KEYS
    ensures forall k | k in MAPPED_KEYS :: Lookup(OutboundRequest(ir), k) == Printed(ir, k)
    ensures OutboundRequest(ir) - MAPPED_KEYS == ir.providerExtras
  {
    hide Printed, MAPPED_KEYS;
  }

  /** The parser looks at the mapped keys only, each through `get` with its default. */
  lemma InboundByLookup(rt: Runtime, data: Fields)
    ensures Get(data, "model", Null) == OrDefault(Lookup(data, "model"), Null)
    ensures Get(data, "system", List([])) == OrDefault(Lookup(data, "system"), List([]))
    ensures Get(data, "tools", List([])) == OrDefault(Lookup(data, "tools"), List([]))
    ensures Get(data, "messages", List([])) == OrDefault(Lookup(data, "messages"), List([]))
    ensures Get(data, "metadata", Null) == OrDefault(Lookup(data, "metadata"), Null)
    ensures Get(data, "max_tokens", Int(0)) == OrDefault(Lookup(data, "max_tokens"), Int(0))
    ensures Get(data, "temperature", Null) == OrDefault(Lookup(data, "temperature"), Null)
    ensures Get(data, "top_p", Null) == OrDefault(Lookup(data, "top_p"), Null)
    ensures Get(data, "top_k", Null) == OrDefault(Lookup(data, "top_k"), Null)
    ensures Get(data, "stop_sequences", List([])) == OrDefault(Lookup(data, "stop_sequences"), List([]))
    ensures Get(data, "stream", Bool(false)) == OrDefault(Lookup(data, "stream"), Bool(false))
  {
  }

  /** The values under the mapped keys of a request. */
  datatype Mapped = Mapped(
    model: Option<Json>, system: Option<Json>, tools: Option<Json>, messages: Option<Json>,
    metadata: Option<Json>, maxTokens: Option<Json>, temperature: Option<Json>, topP: Option<Json>,
    topK: Option<Json>, stops: Option<Json>, stream: Option<Json>)

  function MappedOf(data: Fields): Mapped {
    Mapped(Lookup(data, "model"), Lookup(data, "system"), Lookup(data, "tools"), Lookup(data, "messages"),
           Lookup(data, "metadata"), Lookup(data, "max_tokens"), Lookup(data, "temperature"), Lookup(data, "top_p"),
           Lookup(data, "top_k"), Lookup(data, "stop_sequences"), Lookup(data, "stream"))
  }

  function PrintedMapped(ir: Request): Mapped {
    Mapped(Some(Str(DenormaliseModel(ir.model))), PrintedSystem(ir.system), PrintedTools(ir.tools),
           Some(MessagesToJson(ir.messages)), PrintedMetadata(ir.metadata), Some(Int(ir.sampling.maxTokens)),
           PrintedValue(ir.sampling.temperature), PrintedValue(ir.sampling.topP), PrintedValue(ir.sampling.topK),
           PrintedStops(ir.sampling.stopSequences), if ir.stream then Some(Bool(true)) else None)
  }

  /** The parser, on the values under the mapped keys. */
  function ParseMapped(rt: Runtime, m: Mapped, extras: Fields): Option<Request> {
    match (rt.toInt(OrDefault(m.maxTokens, Int(0))), ParseFloat(rt, OrDefault(m.temperature, Null)),
           ParseFloat(rt, OrDefault(m.topP, Null)), ParseOptionalInt(rt, OrDefault(m.topK, Null)),
           ParseStops(OrDefault(m.stops, List([]))))
    case (Some(n), Some(t), Some(p), Some(k), Some(stops)) =>
      (match (ParseModel(OrDefault(m.model, Null)), ParseSystem(rt, OrDefault(m.system, List([]))),
              ParseTools(rt, OrDefault(m.tools, List([]))), ParseMessages(rt, OrDefault(m.messages, List([]))),
              ParseMetadata(rt, OrDefault(m.metadata, Null)), rt.toBool(OrDefault(m.stream, Bool(false))))
       case (Some(model), Some(system), Some(tools), Some(messages), Some(metadata), Some(stream)) =>
         if messages == [] then None
         else Some(Request(model, "anthropic", system, tools, messages, Sampling(n, t, p, k, stops), metadata,
                           stream, extras))
       case _ => None)
    case _ => None
  }

  lemma InboundIsParseMapped(rt: Runtime, data: Fields)
    ensures InboundRequest(rt, data) == ParseMapped(rt, MappedOf(data), data - MAPPED_KEYS)
  {
    InboundByLookup(rt, data);
    hide ParseModel, ParseSystem, ParseTools, ParseMessages, ParseMetadata, ParseFloat, ParseOptionalInt, ParseStops,
         Lookup, Get, OrDefault, MAPPED_KEYS;
  }

  lemma PrintedIsPrintedMapped(ir: Request)
    requires ir.providerExtras.Keys !! MAPPED_KEYS
    ensures MappedOf(OutboundRequest(ir)) == PrintedMapped(ir)
  {
    MappedLookup(ir);
    PrintedValues(ir);
    assert {"model", "system", "tools", "messages", "metadata", "max_tokens", "temperature", "top_p", "top_k",
            "stop_sequences", "stream"} <= MAPPED_KEYS;
    hide Printed, OutboundRequest, Lookup, MAPPED_KEYS, DenormaliseModel, MessagesToJson, SystemToJson, ToolsToJson,
         StopsToJson;
  }

  /** Two requests agree when they agree under the mapped keys and elsewhere. */
  lemma MappedDetermines(a: Fields, b: Fields)
    ensures a == b <==> MappedOf(a) == MappedOf(b) && a - MAPPED_KEYS == b - MAPPED_KEYS
  {
    if MappedOf(a) == MappedOf(b) && a - MAPPED_KEYS == b - MAPPED_KEYS {
      MappedCovers(a, b);
      hide MappedOf, MAPPED_KEYS;
      SameOutside(a, b, MAPPED_KEYS);
    }
  }

  lemma MappedCovers(a: Fields, b: Fields)
    requires MappedOf(a) == MappedOf(b)
    ensures forall k | k in MAPPED_KEYS :: Lookup(a, k) == Lookup(b, k)
  {
    hide Lookup;
  }

  lemma SameOutside(a: Fields, b: Fields, keys: set<string>)
    requires a - keys == b - keys && forall k | k in keys :: Lookup(a, k) == Lookup(b, k)
    ensures a == b
  {
    forall k ensures Lookup(a, k) == Lookup(b, k) {
      if k !in keys { assert Lookup(a, k) == Lookup(a - keys, k) && Lookup(b, k) == Lookup(b - keys, k); }
    }
    SameLookups(a, b);
  }

  /** Parsing what was printed from a parsed request gives that request again exactly when
      the model was neither the bare nor the doubled prefix. */
  lemma RequestRoundTrip(rt: Runtime, data: Fields)
    requires Faithful(rt) && InboundRequest(rt, data).Some?
    ensures var ir := InboundRequest(rt, data).value;
            InboundRequest(rt, OutboundRequest(ir)) == Some(ir) <==> ModelStable(Lookup(data, "model"))
  {
    var ir := InboundRequest(rt, data).value;
    var m := MappedOf(data);
    InboundIsParseMapped(rt, data);
    InboundIsParseMapped(rt, OutboundRequest(ir));
    PrintedIsPrintedMapped(ir);
    MappedLookup(ir);
    ModelRoundTrip(m.model);
    SystemsRoundTrip(rt, m.system);
    ToolsRoundTrip(rt, m.tools);
    MessagesNormalForm(rt, m.messages);
    MetadataRoundTrip(rt, m.metadata);
    ScalarsRoundTrip(rt, m.temperature);
    ScalarsRoundTrip(rt, m.topP);
    ScalarsRoundTrip(rt, m.topK);
    StopsRoundTrip(m.stops);
    hide InboundRequest, OutboundRequest, MAPPED_KEYS, ParseModel, ParseSystem, ParseTools, ParseMessages,
         ParseMetadata, ParseFloat, ParseOptionalInt, ParseStops, PrintedSystem, PrintedTools, PrintedMetadata,
         PrintedValue, PrintedStops, MessagesToJson, DenormaliseModel, ModelStable, NormalModel, NormalMessages,
         NormalMetadata, NormalStops;
  }

  /** A request in normal form: an unprefixed model; no string shorthands; no empty lists or
      objects where the printer leaves the field out; no defaults written out. */
  ghost predicate NormalRequest(rt: Runtime, data: Fields) {
    var m := MappedOf(data);
    && NormalModel(m.model) && NormalSystem(m.system) && NormalTools(m.tools) && NormalMessages(m.messages)
    && NormalMetadata(rt, m.metadata) && m.maxTokens.Some? && m.maxTokens.value.Int?
    && NormalFloat(m.temperature) && NormalFloat(m.topP) && NormalInt(m.topK) && NormalStops(m.stops)
    && (m.stream.Some? ==> m.stream.value == Bool(true))
  }

  /** Printing what was parsed gives the request back exactly when it is in normal form. */
  lemma RequestNormalForm(rt: Runtime, data: Fields)
    requires Faithful(rt)
    ensures (InboundRequest(rt, data).Some? && OutboundRequest(InboundRequest(rt, data).value) == data)
       <==> NormalRequest(rt, data)
  {
    var m := MappedOf(data);
    InboundIsParseMapped(rt, data);
    SystemsNormalForm(rt, m.system);
    ToolsNormalForm(rt, m.tools);
    MessagesNormalForm(rt, m.messages);
    MetadataRoundTrip(rt, m.metadata);
    ScalarsRoundTrip(rt, m.temperature);
    ScalarsRoundTrip(rt, m.topP);
    ScalarsRoundTrip(rt, m.topK);
    StopsRoundTrip(m.stops);
    NormalModelParses(m.model);
    if InboundRequest(rt, data).Some? {
      var ir := InboundRequest(rt, data).value;
      ModelRoundTrip(m.model);
      PrintedIsPrintedMapped(ir);
      MappedLookup(ir);
      MappedDetermines(OutboundRequest(ir), data);
    }
    hide InboundRequest, OutboundRequest, MAPPED_KEYS, ParseModel, ParseSystem, ParseTools, ParseMessages,
         ParseMetadata, ParseFloat, ParseOptionalInt, ParseStops, PrintedSystem, PrintedTools, PrintedMetadata,
         PrintedValue, PrintedStops, MessagesToJson, DenormaliseModel, ModelStable, NormalModel, NormalSystem,
         NormalTools, NormalMessages, NormalMetadata, NormalFloat, NormalInt, NormalStops, MappedOf;
  }

  lemma NormalModelParses(x: Option<Json>)
    ensures NormalModel(x) ==> ParseModel(OrDefault(x, Null)).Some?
  {
  }

  // ---- the documented round trip fails ----

  /** A minimal request: a model, a token limit and one user message. */
  function OneMessage(model: string, content: Json): Fields {
    map["model" := Str(model), "max_tokens" := Int(1),
        "messages" := List([Obj(map["role" := Str("user"), "content" := content])])]
  }

  /** How the message of such a request is read. */
  lemma OneMessageParses(rt: Runtime, model: string, text: string)
    requires Faithful(rt) && model != ""
    ensures var data := OneMessage(model, Str(text));
            InboundRequest(rt, data).Some? && InboundRequest(rt, data).value.model == NormaliseModel(model)
  {
    var data := OneMessage(model, Str(text));
    SamplingOfOneMessage(rt, model, text);
    MessagesOfOneMessage(rt, model, text);
    OneMessageFields(model, Str(text));
    hide OneMessage, Get, Items, Traverse, ParseMessages, ParseSampling, NormaliseModel;
    NothingParses(rt);
    hide ParseSystem, ParseTools, ParseMetadata;
  }

  lemma OneMessageFields(model: string, content: Json)
    ensures var data := OneMessage(model, content);
      && Get(data, "model", Null) == Str(model) && Get(data, "messages", List([])) == data["messages"]
      && Get(data, "system", List([])) == List([]) && Get(data, "tools", List([])) == List([])
      && Get(data, "metadata", Null) == Null && Get(data, "stream", Bool(false)) == Bool(false)
  {
  }

  lemma NothingParses(rt: Runtime)
    ensures ParseSystem(rt, List([])) == Some([]) && ParseTools(rt, List([])) == Some([])
        && ParseMetadata(rt, Null).Some?
  {
  }

  lemma MessagesOfOneMessage(rt: Runtime, model: string, text: string)
    ensures var messages := ParseMessages(rt, OneMessage(model, Str(text))["messages"]);
            messages.Some? && messages.value != []
  {
    var item := Obj(map["role" := Str("user"), "content" := Str(text)]);
    assert ParseMessageContent(rt, Str(text)) == Some([TextBlock(text, None)]);
    assert ParseMessage(rt, item).Some? && ParseMessage(rt, item).value.Some?;
    hide ParseMessage;
    ParseMessageListStep(rt, item, []);
    assert [item] + [] == [item];
    NoMessagesAtAll(rt);
    hide ParseMessageList;
  }

  lemma SamplingOfOneMessage(rt: Runtime, model: string, text: string)
    requires Faithful(rt)
    ensures ParseSampling(rt, OneMessage(model, Str(text))).Some?
  {
  }

  /** A message whose content is a plain string is not printed back. */
  lemma StringContentIsNotPrintedBack(rt: Runtime)
    requires Faithful(rt)
    ensures var data := OneMessage("m", Str("hi"));
            InboundRequest(rt, data).Some? && OutboundRequest(InboundRequest(rt, data).value) != data
  {
    var data := OneMessage("m", Str("hi"));
    OneMessageParses(rt, "m", "hi");
    RequestNormalForm(rt, data);
    hide InboundRequest, OutboundRequest;
    assert Lookup(data, "messages") == Some(data["messages"]);
    assert !NormalMessages(Lookup(data, "messages")) by {
      var item := data["messages"].items[0];
      assert item in data["messages"].items && item.fields["content"] == Str("hi");
    }
  }

  /** The bare prefix as model is printed as nothing, which reads as another model. */
  lemma BarePrefixIsNotReadBack(rt: Runtime)
    requires Faithful(rt)
    ensures var data := OneMessage(MODEL_PREFIX, Str("hi"));
            && InboundRequest(rt, data).Some?
            && InboundRequest(rt, OutboundRequest(InboundRequest(rt, data).value)) != InboundRequest(rt, data)
  {
    var data := OneMessage(MODEL_PREFIX, Str("hi"));
    OneMessageParses(rt, MODEL_PREFIX, "hi");
    RequestRoundTrip(rt, data);
    hide InboundRequest, OutboundRequest;
    assert Lookup(data, "model") == Some(Str(MODEL_PREFIX));
  }
}
