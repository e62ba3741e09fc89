/** What the Anthropic adapter guarantees about printing and parsing: parsing what was
    printed from a parsed request gives the same request, and a request survives parsing
    and printing unchanged exactly when it is in normal form. */
module AnthropicRoundTrip {
  import opened Options
  import opened JsonValues
  import opened Ir
  import opened AnthropicAdapter

  // ---- overflow fields ----

  /** Overflow as the parser captures it: never empty, never a modelled key. */
  ghost predicate DataOk(pd: Option<Fields>, known: set<string>) {
    pd.Some? ==> pd.value != map[] && pd.value.Keys !! known
  }

  lemma CapturedIsOk(raw: Fields, known: set<string>)
    ensures DataOk(ExtraProviderData(raw, known), known)
  {
  }

  /** Restoring overflow over modelled fields keeps both apart. */
  lemma RestoredApart(base: Fields, pd: Option<Fields>, known: set<string>)
    requires base.Keys <= known && DataOk(pd, known)
    ensures ExtraProviderData(Restore(base, pd), known) == pd
    ensures forall k | k in known :: Lookup(Restore(base, pd), k) == Lookup(base, k)
  {
    var all := Restore(base, pd);
    if pd.Some? {
      assert all - known == pd.value;
    } else {
      assert all - known == map[];
    }
  }

  /** Restoring captured overflow rebuilds the raw fields exactly when the modelled part is
      what it was. */
  lemma RestoreRebuilds(base: Fields, raw: Fields, known: set<string>)
    requires base.Keys <= known
    ensures Restore(base, ExtraProviderData(raw, known)) == raw
      <==> forall k | k in known :: Lookup(base, k) == Lookup(raw, k)
  {
    var pd := ExtraProviderData(raw, known);
    CapturedIsOk(raw, known);
    RestoredApart(base, pd, known);
    var all := Restore(base, pd);
    if forall k | k in known :: Lookup(base, k) == Lookup(raw, k) {
      forall k ensures Lookup(all, k) == Lookup(raw, k) {
        if k !in known { assert k in raw <==> k in raw - known; }
      }
      SameLookups(all, raw);
    }
  }

  // ---- blocks: parsing what was printed ----

  /** Neither a text block nor an image block. */
  predicate UnmatchedSub(raw: Fields) {
    !(IsType(raw, "text") && "text" in raw) && !(IsType(raw, "image") && "source" in raw)
  }

  /** No block parser takes these fields: a key is missing, the type is another one, or the
      content of a tool result is neither a text nor a list. */
  predicate Unmatched(raw: Fields) {
    && UnmatchedSub(raw) && !IsType(raw, "thinking")
    && !(IsType(raw, "tool_use") && {"id", "name", "input"} <= raw.Keys)
    && (IsType(raw, "tool_result") && "tool_use_id" in raw ==>
          var content := Get(raw, "content", List([])); !content.Str? && !content.List?)
  }

  /** Blocks as the parser builds them. */
  ghost predicate SubBlockOk(b: Block) {
    match b
    case TextBlock(_, pd) => DataOk(pd, TEXT_KEYS)
    case ImageBlock(_, pd) => DataOk(pd, IMAGE_KEYS)
    case UnknownBlock(raw) => UnmatchedSub(raw)
    case _ => false
  }

  ghost predicate BlockOk(b: Block) {
    match b
    case TextBlock(_, pd) => DataOk(pd, TEXT_KEYS)
    case ToolUseBlock(_, _, _, pd) => DataOk(pd, TOOL_USE_KEYS)
    case ToolResultBlock(_, content, _, pd) => DataOk(pd, TOOL_RESULT_KEYS) && forall c | c in content :: SubBlockOk(c)
    case ThinkingBlock(_, pd) => DataOk(pd, THINKING_KEYS)
    case ImageBlock(_, pd) => DataOk(pd, IMAGE_KEYS)
    case UnknownBlock(raw) => Unmatched(raw)
  }

  lemma ParsedSubBlockIsOk(sub: Json)
    ensures ParseSubBlock(sub).Some? ==> SubBlockOk(ParseSubBlock(sub).value)
  {
    if sub.Obj? {
      CapturedIsOk(sub.fields, TEXT_KEYS);
      CapturedIsOk(sub.fields, IMAGE_KEYS);
      hide ExtraProviderData, DataOk;
    }
  }

  lemma ParsedBlockIsOk(rt: Runtime, raw: Json)
    ensures ParseContentBlock(rt, raw).Some? ==> BlockOk(ParseContentBlock(rt, raw).value)
  {
    var b := ParseContentBlock(rt, raw);
    if raw.Obj? && b.Some? {
      CapturedIsOk(raw.fields, TEXT_KEYS);
      CapturedIsOk(raw.fields, TOOL_USE_KEYS);
      CapturedIsOk(raw.fields, TOOL_RESULT_KEYS);
      CapturedIsOk(raw.fields, THINKING_KEYS);
      CapturedIsOk(raw.fields, IMAGE_KEYS);
      hide ExtraProviderData, DataOk;
      if b.value.ToolResultBlock? {
        var content := Get(raw.fields, "content", List([]));
        if content.List? {
          forall i | 0 <= i < |b.value.content| ensures SubBlockOk(b.value.content[i]) {
            ParsedSubBlockIsOk(content.items[i]);
            assert SubBlockParser()(content.items[i]) == Some(b.value.content[i]);
          }
        } else {
          assert b.value.content == [TextBlock(content.s, None)];
          NoDataIsOk();
        }
      }
    }
  }

  lemma NoDataIsOk()
    ensures forall known: set<string> :: DataOk(None, known)
  {
  }

  lemma SubBlockRoundTrip(b: Block)
    requires SubBlockOk(b)
    ensures ParseSubBlock(Obj(BlockToFields(b))) == Some(b)
  {
    match b {
      case TextBlock(text, pd) =>
        RestoredApart(map["type" := Str("text"), "text" := Str(text)], pd, TEXT_KEYS);
        TypeAndKey(BlockToFields(b), map["type" := Str("text"), "text" := Str(text)], TEXT_KEYS);
        hide Restore, ExtraProviderData, DataOk;
      case ImageBlock(source, pd) =>
        RestoredApart(map["type" := Str("image"), "source" := Obj(source)], pd, IMAGE_KEYS);
        TypeAndKey(BlockToFields(b), map["type" := Str("image"), "source" := Obj(source)], IMAGE_KEYS);
        hide Restore, ExtraProviderData, DataOk;
      case UnknownBlock(raw) =>
    }
  }

  /** Lookups decide membership and values. */
  lemma TypeAndKey(all: Fields, base: Fields, known: set<string>)
    requires forall k | k in known :: Lookup(all, k) == Lookup(base, k)
    ensures forall k | k in known :: (k in all <==> k in base) && (k in base ==> all[k] == base[k])
  {
    forall k | k in known ensures (k in all <==> k in base) && (k in base ==> all[k] == base[k]) {
      assert Lookup(all, k) == Lookup(base, k);
    }
  }

  lemma SubBlocksRoundTrip(content: seq<Block>)
    requires forall c | c in content :: SubBlockOk(c)
    ensures Traverse(SubBlockParser(), BlocksToJson(content)) == Some(content)
  {
    var printed := BlocksToJson(content);
    forall i | 0 <= i < |content| ensures SubBlockParser()(printed[i]) == Some(content[i]) {
      assert content[i] in content;
      SubBlockRoundTrip(content[i]);
    }
    assert Traverse(SubBlockParser(), printed).value == content;
  }

  function ToolResultBase(b: Block): Fields
    requires b.ToolResultBlock?
  {
    var base := map["type" := Str("tool_result"), "tool_use_id" := Str(b.toolUseId),
                    "content" := List(BlocksToJson(b.content))];
    if b.isError then base["is_error" := Bool(true)] else base
  }

  lemma ToolResultDispatch(rt: Runtime, f: Fields)
    requires IsType(f, "tool_result") && "tool_use_id" in f
    ensures ParseContentBlock(rt, Obj(f)) == OrUnknown(ParseToolResultBlock(rt, f), f)
  {
    hide ExtraProviderData, SubBlockParser;
    assert ParseTextBlock(f) == NoMatch && ParseToolUseBlock(f) == NoMatch;
  }

  lemma ToolResultParses(rt: Runtime, f: Fields, b: Block, items: seq<Json>)
    requires Faithful(rt) && b.ToolResultBlock? && IsType(f, "tool_result")
    requires Lookup(f, "tool_use_id") == Some(Str(b.toolUseId)) && Lookup(f, "content") == Some(List(items))
    requires Lookup(f, "is_error") == if b.isError then Some(Bool(true)) else None
    requires Traverse(SubBlockParser(), items) == Some(b.content)
    requires ExtraProviderData(f, TOOL_RESULT_KEYS) == b.providerData
    ensures ParseContentBlock(rt, Obj(f)) == Some(b)
  {
    ToolResultDispatch(rt, f);
    hide ExtraProviderData, SubBlockParser, ParseContentBlock;
  }

  lemma ToolResultRoundTrip(rt: Runtime, b: Block)
    requires Faithful(rt) && b.ToolResultBlock? && BlockOk(b)
    ensures ParseContentBlock(rt, Obj(BlockToFields(b))) == Some(b)
  {
    var base, f := ToolResultBase(b), BlockToFields(b);
    assert f == Restore(base, b.providerData);
    RestoredApart(base, b.providerData, TOOL_RESULT_KEYS);
    SubBlocksRoundTrip(b.content);
    hide Restore, ExtraProviderData, DataOk, BlocksToJson, SubBlockParser, SubBlockOk, BlockToFields, ParseContentBlock;
    assert {"type", "tool_use_id", "content", "is_error"} <= TOOL_RESULT_KEYS;
    assert Lookup(f, "type") == Some(Str("tool_result"));
    ToolResultParses(rt, f, b, BlocksToJson(b.content));
  }

  lemma ToolUseRoundTrip(rt: Runtime, b: Block)
    requires b.ToolUseBlock? && BlockOk(b)
    ensures ParseContentBlock(rt, Obj(BlockToFields(b))) == Some(b)
  {
    var base := map["type" := Str("tool_use"), "id" := Str(b.id), "name" := Str(b.name), "input" := Obj(b.input)];
    RestoredApart(base, b.providerData, TOOL_USE_KEYS);
    TypeAndKey(BlockToFields(b), base, TOOL_USE_KEYS);
    hide Restore, ExtraProviderData, DataOk;
    assert ParseToolUseBlock(BlockToFields(b)) == Match(b);
  }

  lemma ThinkingRoundTrip(rt: Runtime, b: Block)
    requires b.ThinkingBlock? && BlockOk(b)
    ensures ParseContentBlock(rt, Obj(BlockToFields(b))) == Some(b)
  {
    var base := map["type" := Str("thinking"), "thinking" := Str(b.text)];
    RestoredApart(base, b.providerData, THINKING_KEYS);
    TypeAndKey(BlockToFields(b), base, THINKING_KEYS);
    hide Restore, ExtraProviderData, DataOk;
    assert ThinkingText(BlockToFields(b)) == Str(b.text);
    assert ParseThinkingBlock(BlockToFields(b)) == Match(b);
  }

  /** Parsing a printed block gives the block. */
  lemma BlockRoundTrip(rt: Runtime, b: Block)
    requires Faithful(rt) && BlockOk(b)
    ensures ParseContentBlock(rt, Obj(BlockToFields(b))) == Some(b)
  {
    match b {
      case TextBlock(text, pd) =>
        RestoredApart(map["type" := Str("text"), "text" := Str(text)], pd, TEXT_KEYS);
        TypeAndKey(BlockToFields(b), map["type" := Str("text"), "text" := Str(text)], TEXT_KEYS);
        hide Restore, ExtraProviderData, DataOk;
      case ImageBlock(source, pd) =>
        RestoredApart(map["type" := Str("image"), "source" := Obj(source)], pd, IMAGE_KEYS);
        TypeAndKey(BlockToFields(b), map["type" := Str("image"), "source" := Obj(source)], IMAGE_KEYS);
        hide Restore, ExtraProviderData, DataOk;
        assert ParseImageBlock(BlockToFields(b)) == Match(b);
      case ToolUseBlock(_, _, _, _) => ToolUseRoundTrip(rt, b);
      case ToolResultBlock(_, _, _, _) => ToolResultRoundTrip(rt, b);
      case ThinkingBlock(_, _) => ThinkingRoundTrip(rt, b);
      case UnknownBlock(raw) =>
    }
  }

  /** Parsing again what was printed from a parsed block gives the same block. */
  lemma BlockIsStable(rt: Runtime, raw: Json)
    requires Faithful(rt) && ParseContentBlock(rt, raw).Some?
    ensures var b := ParseContentBlock(rt, raw).value; ParseContentBlock(rt, Obj(BlockToFields(b))) == Some(b)
  {
    hide ParseContentBlock, BlockToFields, BlockOk;
    ParsedBlockIsOk(rt, raw);
    BlockRoundTrip(rt, ParseContentBlock(rt, raw).value);
  }

  // ---- blocks: normal form ----

  ghost predicate NormalSubBlock(sub: Json) {
    sub.Obj? &&
    (var f := sub.fields;
     if IsType(f, "text") && "text" in f then f["text"].Str?
     else if IsType(f, "image") && "source" in f then f["source"].Obj?
     else true)
  }

  /** A content block that the printer would write just so. */
  ghost predicate NormalBlock(raw: Json) {
    raw.Obj? &&
    (var f := raw.fields;
     if IsType(f, "text") && "text" in f then f["text"].Str?
     else if IsType(f, "tool_use") && {"id", "name", "input"} <= f.Keys then
       f["id"].Str? && f["name"].Str? && f["input"].Obj?
     else if IsType(f, "tool_result") && "tool_use_id" in f then NormalToolResult(f)
     else if IsType(f, "thinking") then "text" !in f && "thinking" in f && f["thinking"].Str?
     else if IsType(f, "image") && "source" in f then f["source"].Obj?
     else true)
  }

  /** Neither the string shorthand nor a missing content nor `is_error: false`; content that
      is no list at all keeps the block opaque. */
  ghost predicate NormalToolResult(f: Fields)
    requires "tool_use_id" in f
  {
    "content" in f && !f["content"].Str? &&
    (f["content"].List? ==>
      && f["tool_use_id"].Str?
      && (forall sub | sub in f["content"].items :: NormalSubBlock(sub))
      && ("is_error" in f ==> f["is_error"] == Bool(true)))
  }

  lemma SubBlockNormalForm(sub: Json)
    ensures (ParseSubBlock(sub).Some? && Obj(BlockToFields(ParseSubBlock(sub).value)) == sub) <==> NormalSubBlock(sub)
  {
    var b := ParseSubBlock(sub);
    if sub.Obj? && b.Some? {
      var f := sub.fields;
      if b.value.TextBlock? {
        RestoreRebuilds(map["type" := Str("text"), "text" := Str(b.value.text)], f, TEXT_KEYS);
      } else if b.value.ImageBlock? {
        RestoreRebuilds(map["type" := Str("image"), "source" := Obj(b.value.source)], f, IMAGE_KEYS);
      }
      hide Restore, ExtraProviderData;
    }
  }

  lemma SubBlocksNormalForm(items: seq<Json>)
    ensures var subs := Traverse(SubBlockParser(), items);
            (subs.Some? && BlocksToJson(subs.value) == items) <==> forall sub | sub in items :: NormalSubBlock(sub)
  {
    var subs := Traverse(SubBlockParser(), items);
    forall i | 0 <= i < |items|
      ensures (SubBlockParser()(items[i]).Some? && Obj(BlockToFields(SubBlockParser()(items[i]).value)) == items[i])
         <==> NormalSubBlock(items[i])
    {
      SubBlockNormalForm(items[i]);
    }
    hide NormalSubBlock, SubBlockParser;
    if forall sub | sub in items :: NormalSubBlock(sub) {
      forall i | 0 <= i < |items| ensures SubBlockParser()(items[i]).Some? { assert items[i] in items; }
      forall i | 0 <= i < |items| ensures BlocksToJson(subs.value)[i] == items[i] { assert items[i] in items; }
    }
  }

  lemma ToolResultLookups(f: Fields, b: Block, items: seq<Json>)
    requires IsType(f, "tool_result") && "tool_use_id" in f && f["tool_use_id"].Str?
    requires Get(f, "content", List([])) == List(items)
    requires b.ToolResultBlock? && b.toolUseId == f["tool_use_id"].s
    requires "is_error" !in f ==> !b.isError
    requires "is_error" in f && f["is_error"] == Bool(true) ==> b.isError
    ensures (forall k | k in TOOL_RESULT_KEYS :: Lookup(ToolResultBase(b), k) == Lookup(f, k))
       <==> "content" in f && BlocksToJson(b.content) == items && ("is_error" in f ==> f["is_error"] == Bool(true))
  {
    hide BlocksToJson;
    var base := ToolResultBase(b);
    assert Lookup(base, "type") == Lookup(f, "type") && Lookup(base, "tool_use_id") == Lookup(f, "tool_use_id");
    assert Lookup(base, "content") == Lookup(f, "content") <==> "content" in f && BlocksToJson(b.content) == items;
    assert Lookup(base, "is_error") == Lookup(f, "is_error") <==> ("is_error" in f ==> f["is_error"] == Bool(true));
    assert forall k | k in TOOL_RESULT_KEYS :: k == "type" || k == "tool_use_id" || k == "content" || k == "is_error";
  }

  lemma ToolResultNormalForm(rt: Runtime, f: Fields)
    requires Faithful(rt) && IsType(f, "tool_result") && "tool_use_id" in f
    ensures var b := ParseContentBlock(rt, Obj(f));
            (b.Some? && BlockToFields(b.value) == f) <==> NormalToolResult(f)
  {
    ToolResultDispatch(rt, f);
    var content := Get(f, "content", List([]));
    var b := ParseContentBlock(rt, Obj(f));
    if content.List? {
      SubBlocksNormalForm(content.items);
      hide Restore, ExtraProviderData, BlocksToJson, SubBlockParser, NormalSubBlock, ParseContentBlock;
      if b.Some? {
        assert b == Some(ToolResultBlock(f["tool_use_id"].s, Traverse(SubBlockParser(), content.items).value,
                                         rt.toBool(Get(f, "is_error", Bool(false))).value,
                                         ExtraProviderData(f, TOOL_RESULT_KEYS)));
        RestoreRebuilds(ToolResultBase(b.value), f, TOOL_RESULT_KEYS);
        ToolResultLookups(f, b.value, content.items);
        assert BlockToFields(b.value) == Restore(ToolResultBase(b.value), ExtraProviderData(f, TOOL_RESULT_KEYS));
      }
    } else if content.Str? && b.Some? {
      hide ExtraProviderData, BlocksToJson, ParseContentBlock;
      var base := ToolResultBase(b.value);
      RestoreRebuilds(base, f, TOOL_RESULT_KEYS);
      assert "content" in TOOL_RESULT_KEYS && Lookup(base, "content") != Lookup(f, "content");
    }
  }

  lemma ToolUseNormalForm(rt: Runtime, f: Fields)
    requires IsType(f, "tool_use") && {"id", "name", "input"} <= f.Keys
    ensures var b := ParseContentBlock(rt, Obj(f));
            (b.Some? && BlockToFields(b.value) == f) <==> f["id"].Str? && f["name"].Str? && f["input"].Obj?
  {
    assert ParseTextBlock(f) == NoMatch;
    assert ParseContentBlock(rt, Obj(f)) == OrUnknown(ParseToolUseBlock(f), f);
    hide ExtraProviderData, Restore, ParseContentBlock;
    if f["id"].Str? && f["name"].Str? && f["input"].Obj? {
      RestoreRebuilds(map["type" := Str("tool_use"), "id" := f["id"], "name" := f["name"], "input" := f["input"]],
                      f, TOOL_USE_KEYS);
    }
  }

  lemma TextNormalForm(rt: Runtime, f: Fields)
    requires IsType(f, "text") && "text" in f
    ensures var b := ParseContentBlock(rt, Obj(f));
            (b.Some? && BlockToFields(b.value) == f) <==> f["text"].Str?
  {
    if f["text"].Str? { RestoreRebuilds(map["type" := Str("text"), "text" := f["text"]], f, TEXT_KEYS); }
    hide Restore, ExtraProviderData, Traverse;
  }

  lemma ThinkingNormalForm(rt: Runtime, f: Fields)
    requires IsType(f, "thinking")
    ensures var b := ParseContentBlock(rt, Obj(f));
            (b.Some? && BlockToFields(b.value) == f) <==> "text" !in f && "thinking" in f && f["thinking"].Str?
  {
    assert ParseTextBlock(f) == NoMatch && ParseToolUseBlock(f) == NoMatch && ParseToolResultBlock(rt, f) == NoMatch;
    assert ParseContentBlock(rt, Obj(f)) == OrUnknown(ParseThinkingBlock(f), f);
    hide Restore, ExtraProviderData, ParseContentBlock;
    if ThinkingText(f).Str? {
      RestoreRebuilds(map["type" := Str("thinking"), "thinking" := ThinkingText(f)], f, THINKING_KEYS);
    }
  }

  lemma ImageNormalForm(rt: Runtime, f: Fields)
    requires IsType(f, "image") && "source" in f
    ensures var b := ParseContentBlock(rt, Obj(f));
            (b.Some? && BlockToFields(b.value) == f) <==> f["source"].Obj?
  {
    assert ParseTextBlock(f) == NoMatch && ParseToolUseBlock(f) == NoMatch && ParseToolResultBlock(rt, f) == NoMatch;
    assert ParseContentBlock(rt, Obj(f)) == OrUnknown(ParseImageBlock(f), f);
    hide Restore, ExtraProviderData, ParseContentBlock;
    if f["source"].Obj? {
      RestoreRebuilds(map["type" := Str("image"), "source" := f["source"]], f, IMAGE_KEYS);
    }
  }

  lemma UnmatchedIsKept(rt: Runtime, f: Fields)
    requires Unmatched(f)
    ensures ParseContentBlock(rt, Obj(f)) == Some(UnknownBlock(f))
  {
    hide Traverse, ExtraProviderData;
  }

  /** A block survives parsing and printing unchanged exactly when it is normal. */
  lemma BlockNormalForm(rt: Runtime, raw: Json)
    requires Faithful(rt)
    ensures var b := ParseContentBlock(rt, raw);
            (b.Some? && Obj(BlockToFields(b.value)) == raw) <==> NormalBlock(raw)
  {
    if raw.Obj? {
      var f := raw.fields;
      if IsType(f, "text") && "text" in f {
        TextNormalForm(rt, f);
      } else if IsType(f, "tool_use") && {"id", "name", "input"} <= f.Keys {
        ToolUseNormalForm(rt, f);
      } else if IsType(f, "tool_result") && "tool_use_id" in f {
        ToolResultNormalForm(rt, f);
      } else if IsType(f, "thinking") {
        ThinkingNormalForm(rt, f);
      } else if IsType(f, "image") && "source" in f {
        ImageNormalForm(rt, f);
      } else {
        UnmatchedIsKept(rt, f);
      }
      hide ParseContentBlock, NormalToolResult;
    }
  }
}
