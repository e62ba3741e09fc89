/** What one more override does to the curated request, kind by kind, in terms of the target
    text and the value that the user gave. */
module OverrideEffects {
  import opened Options
  import opened JsonValues
  import opened Decimals
  import opened Texts
  import opened Ir
  import opened OverrideTypes
  import opened OverrideTargets
  import opened OverrideOpsMessages
  import opened OverrideOpsMetadata
  import opened OverridePlan
  import opened Overrides
  import opened Sanitize

  // ---- truncating and sanitizing ----

  lemma {:induction false} TruncationKeepsContentIds(content: seq<Block>, id: string, limit: nat)
    ensures ContentUses(TruncateContent(content, id, limit)) == ContentUses(content)
    ensures ContentResults(TruncateContent(content, id, limit)) == ContentResults(content)
  {
    if content != [] {
      var front, last := content[..|content| - 1], content[|content| - 1];
      TruncationKeepsContentIds(front, id, limit);
      assert TruncateContent(content, id, limit)[..|front|] == TruncateContent(front, id, limit);
    }
  }

  lemma {:induction false} TruncationKeepsIds(messages: seq<Message>, id: string, limit: nat)
    ensures UseIds(TruncateMessages(messages, id, limit)) == UseIds(messages)
    ensures ResultIds(TruncateMessages(messages, id, limit)) == ResultIds(messages)
  {
    hide TruncateContent;
    if messages != [] {
      var front, last := messages[..|messages| - 1], messages[|messages| - 1];
      TruncationKeepsIds(front, id, limit);
      TruncationKeepsContentIds(last.content, id, limit);
      assert TruncateMessages(messages, id, limit)[..|front|] == TruncateMessages(front, id, limit);
    }
  }

  lemma {:induction false} KeptAndTruncated(
      content: seq<Block>, ou: set<string>, or: set<string>, id: string, limit: nat)
    ensures KeptBlocks(TruncateContent(content, id, limit), ou, or)
         == TruncateContent(KeptBlocks(content, ou, or), id, limit)
  {
    hide KeptBlocks, TruncateContent;
    if content == [] {
      NothingKept(ou, or);
      TruncateNothing(id, limit);
    } else {
      var front, last := content[..|content| - 1], content[|content| - 1];
      assert content == front + [last];
      KeptAndTruncated(front, ou, or, id, limit);
      TruncateAppend(front, last, id, limit);
      TruncateAppend(KeptBlocks(front, ou, or), last, id, limit);
      KeptAppend(front, last, ou, or);
      KeptAppend(TruncateContent(front, id, limit), TruncateBlock(last, id, limit), ou, or);
    }
  }

  lemma {:induction false} CleanedAndTruncated(
      messages: seq<Message>, ou: set<string>, or: set<string>, id: string, limit: nat)
    ensures CleanedMessages(TruncateMessages(messages, id, limit), ou, or)
         == TruncateMessages(CleanedMessages(messages, ou, or), id, limit)
  {
    hide CleanedMessages, TruncateMessages, KeptBlocks;
    if messages == [] {
      NothingKept(ou, or);
      TruncateNoMessages(id, limit);
    } else {
      var front, last := messages[..|messages| - 1], messages[|messages| - 1];
      assert messages == front + [last];
      CleanedAndTruncated(front, ou, or, id, limit);
      TruncateMessagesAppend(front, last, id, limit);
      CleanedAppend(front, last, ou, or);
      CleanedAppend(TruncateMessages(front, id, limit), TruncateMessage(last, id, limit), ou, or);
      var kept := KeptBlocks(last.content, ou, or);
      KeptAndTruncated(last.content, ou, or, id, limit);
      TruncateMessagesAppend(CleanedMessages(front, ou, or), last.(content := kept), id, limit);
    }
  }

  lemma SanitizedAndTruncated(messages: seq<Message>, preserve: bool, id: string, limit: nat)
    ensures Sanitized(TruncateMessages(messages, id, limit), preserve)
         == TruncateMessages(Sanitized(messages, preserve), id, limit)
  {
    hide TruncateMessages, CleanedMessages;
    TruncationKeepsIds(messages, id, limit);
    CleanedAndTruncated(messages, OrphanUses(messages), OrphanResults(messages, preserve), id, limit);
  }

  // ---- one more override ----

  /** The plan with one more override, and the request it gives. */
  lemma OneMore(loads: Loads, os: seq<Override>, o: Override, ir: Request)
    ensures var p, step := PlanOf(loads, os), Meaning(loads, o);
            var edited := Edit(ir, Extend(p, step));
            OneShot(loads, os + [o], ir)
              == edited.(providerExtras := ExtendExtras(ExtrasOf(loads, os, ir.providerExtras), step),
                         messages := Sanitized(edited.messages, PreservesResults(ir)))
  {
    hide Edit, Sanitized, PreservesResults, Extend, Meaning, ExtendExtras;
    PlanAppend(loads, os, o, ir.providerExtras);
  }

  /** A truncation cuts the results for its id to the limit, and does nothing else, whatever
      the other overrides do. */
  lemma ResultTruncated(loads: Loads, os: seq<Override>, ir: Request, id: string, value: OverrideValue, limit: int)
    requires value == IntV(limit) || (value == BoolV(true) && limit == 1)
    ensures var before := OneShot(loads, os, ir);
            var after := OneShot(loads, os + [Override(TruncateToolResult, "toolresult:" + id, value)], ir);
            && after == before.(messages := after.messages)
            && if limit <= 0 then after == before else ResultsCut(before.messages, after.messages, id, limit)
  {
    hide PlanOf, ExtrasOf, Sanitized, PreservesResults, EditMessages, EditSystem, EditTools, EditSampling,
         TruncateMessages, ResultsCut, ParsePrefixed;
    var o := Override(TruncateToolResult, "toolresult:" + id, value);
    NameTargetsAreExact(o.target, id);
    OneMore(loads, os, o, ir);
    var p := PlanOf(loads, os);
    var messages := EditMessages(ir.messages, p.blocks);
    if limit > 0 {
      assert Meaning(loads, o) == LimitResult(id, limit);
      TruncateEditedMessages(ir.messages, p.blocks, id, limit);
      SanitizedAndTruncated(messages, PreservesResults(ir), id, limit);
      TruncationCutsResults(Sanitized(messages, PreservesResults(ir)), id, limit);
    }
  }

  /** The tools of other names. */
  function ToolsBut(tools: seq<ToolDef>, name: string): seq<ToolDef> {
    if tools == [] then []
    else if tools[0].name == name then ToolsBut(tools[1..], name) else [tools[0]] + ToolsBut(tools[1..], name)
  }

  lemma {:induction false} ToolsButIs(tools: seq<ToolDef>, name: string)
    ensures EditTools(tools, {name}, map[]) == ToolsBut(tools, name)
  {
    if tools != [] {
      ToolsButAppend(tools[..|tools| - 1], tools[|tools| - 1], name);
      assert tools == tools[..|tools| - 1] + [tools[|tools| - 1]];
      ToolsButIs(tools[..|tools| - 1], name);
    }
  }

  lemma {:induction false} ToolsButAppend(tools: seq<ToolDef>, tool: ToolDef, name: string)
    ensures ToolsBut(tools + [tool], name)
         == if tool.name == name then ToolsBut(tools, name) else ToolsBut(tools, name) + [tool]
  {
    if tools == [] {
      assert [tool][1..] == [];
    } else {
      assert (tools + [tool])[1..] == tools[1..] + [tool];
      ToolsButAppend(tools[1..], tool, name);
    }
  }

  /** A toggled-off tool goes with every tool of its name; a tool toggled on changes nothing. */
  lemma ToolToggled(loads: Loads, os: seq<Override>, ir: Request, name: string, on: bool)
    ensures var before := OneShot(loads, os, ir);
            var after := OneShot(loads, os + [Override(ToolToggle, "tool:" + name, BoolV(on))], ir);
            after == if on then before else before.(tools := ToolsBut(before.tools, name))
  {
    hide PlanOf, ExtrasOf, Sanitized, PreservesResults, EditMessages, EditSystem, EditTools, EditSampling,
         ParsePrefixed;
    var o := Override(ToolToggle, "tool:" + name, BoolV(on));
    NameTargetsAreExact(o.target, name);
    OneMore(loads, os, o, ir);
    var p := PlanOf(loads, os);
    if !on {
      assert Meaning(loads, o) == DropTool(name);
      ToolEditsCompose(ir.tools, p.toolOff, p.toolText, {name}, map[]);
      assert p.toolText + map[] == p.toolText;
      ToolsButIs(EditTools(ir.tools, p.toolOff, p.toolText), name);
    }
  }

  /** A description goes to every tool of its name. */
  lemma ToolDescribed(loads: Loads, os: seq<Override>, ir: Request, name: string, text: string)
    ensures var before := OneShot(loads, os, ir);
            var after := OneShot(loads, os + [Override(ToolDescription, "tool:" + name, StrV(text))], ir);
            && after == before.(tools := after.tools) && |after.tools| == |before.tools|
            && forall i | 0 <= i < |before.tools| ::
                 after.tools[i]
                   == if before.tools[i].name == name then before.tools[i].(description := text) else before.tools[i]
  {
    hide PlanOf, ExtrasOf, Sanitized, PreservesResults, EditMessages, EditSystem, EditTools, EditSampling,
         ParsePrefixed;
    var o := Override(ToolDescription, "tool:" + name, StrV(text));
    NameTargetsAreExact(o.target, name);
    OneMore(loads, os, o, ir);
    var p := PlanOf(loads, os);
    assert Meaning(loads, o) == DescribeTool(name, text);
    ToolEditsCompose(ir.tools, p.toolOff, p.toolText, {}, map[name := text]);
    assert p.toolText + map[name := text] == p.toolText[name := text] && p.toolOff + {} == p.toolOff;
    DescribedOneByOne(EditTools(ir.tools, p.toolOff, p.toolText), name, text);
  }

  lemma {:induction false} DescribedOneByOne(tools: seq<ToolDef>, name: string, text: string)
    ensures var after := EditTools(tools, {}, map[name := text]);
            && |after| == |tools|
            && forall i | 0 <= i < |tools| ::
                 after[i] == if tools[i].name == name then tools[i].(description := text) else tools[i]
  {
    if tools != [] { DescribedOneByOne(tools[..|tools| - 1], name, text); }
  }

  /** A sampling field takes a decoded value of its own shape. */
  ghost predicate SamplingTakes(before: Sampling, after: Sampling, field: string, v: Json) {
    if field == "max_tokens" && v.Int? && v.n >= 1 then after == before.(maxTokens := v.n)
    else if field == "temperature" && (v.Null? || v.Int? || v.Float?) then after == before.(temperature := v)
    else if field == "top_p" && (v.Null? || v.Int? || v.Float?) then after == before.(topP := v)
    else if field == "top_k" && (v.Null? || v.Int?) then after == before.(topK := v)
    else if field == "stop_sequences" && v.List? && forall x | x in v.items :: x.Str? then
      && after == before.(stopSequences := after.stopSequences) && |after.stopSequences| == |v.items|
      && forall i | 0 <= i < |v.items| :: v.items[i] == Str(after.stopSequences[i])
    else after == before
  }

  lemma SamplingEdited(s: Sampling, sampling: map<string, Json>, field: string, v: Json)
    ensures SamplingTakes(EditSampling(s, sampling),
                          EditSampling(s, if SamplingValueValid(field, v) then sampling[field := v] else sampling),
                          field, v)
  {
    if SamplingValueValid(field, v) {
      var next := sampling[field := v];
      assert Sampled(next, field) == Some(v);
      forall f | f != field ensures Sampled(next, f) == Sampled(sampling, f) {}
      if field == "stop_sequences" {
        var after := EditSampling(s, next);
        assert after == EditSampling(s, sampling).(stopSequences := after.stopSequences);
        assert after.stopSequences == SetSampling(s, field, v).stopSequences && |after.stopSequences| == |v.items|;
        forall i | 0 <= i < |v.items| ensures v.items[i] == Str(after.stopSequences[i]) {
          assert v.items[i] in v.items;
        }
      } else if field == "max_tokens" {
      } else if field == "temperature" {
      } else if field == "top_p" {
      } else if field == "top_k" {
      }
    }
  }

  /** A sampling value of the right shape replaces its own field; any other is refused. */
  lemma SamplingOverridden(loads: Loads, os: seq<Override>, ir: Request, field: string, text: string)
    ensures var before := OneShot(loads, os, ir);
            var after := OneShot(loads, os + [Override(SamplingSet, "sampling:" + field, StrV(text))], ir);
            && after == before.(sampling := after.sampling)
            && match loads(text)
               case None => after == before
               case Some(v) => SamplingTakes(before.sampling, after.sampling, field, v)
  {
    hide PlanOf, ExtrasOf, Sanitized, PreservesResults, EditMessages, EditSystem, EditTools, EditSampling,
         ParsePrefixed, SamplingTakes, SamplingValueValid;
    var o := Override(SamplingSet, "sampling:" + field, StrV(text));
    NameTargetsAreExact(o.target, field);
    OneMore(loads, os, o, ir);
    var p := PlanOf(loads, os);
    if loads(text).Some? { SamplingEdited(ir.sampling, p.sampling, field, loads(text).value); }
  }

  /** A value set under an accepted key is read back at its path and a null takes the path
      away; a refused key, or a way blocked by something else than a dictionary, changes nothing. */
  lemma ExtrasOverridden(loads: Loads, os: seq<Override>, ir: Request, key: string, text: string, v: Json)
    requires loads(text) == Some(v)
    ensures var before := OneShot(loads, os, ir);
            var after := OneShot(loads, os + [Override(ProviderExtrasSet, "provider_extras:" + key, StrV(text))], ir);
            var path: Path := Split(key, '.');
            && after == before.(providerExtras := after.providerExtras)
            && (!AcceptedKey(key) || BlockedAt(before.providerExtras, path) ==> after == before)
            && (AcceptedKey(key) && !BlockedAt(before.providerExtras, path) ==>
                  && GetPath(after.providerExtras, path) == (if v.Null? then None else Some(v))
                  && forall other: Path | Unrelated(path, other) ::
                       GetPath(after.providerExtras, other) == GetPath(before.providerExtras, other))
  {
    hide PlanOf, ExtrasOf, Sanitized, PreservesResults, EditMessages, EditSystem, EditTools, EditSampling,
         ParsePrefixed, ExtendExtras, AcceptedKey, BlockedAt, GetPath;
    var o := Override(ProviderExtrasSet, "provider_extras:" + key, StrV(text));
    NameTargetsAreExact(o.target, key);
    OneMore(loads, os, o, ir);
    var path: Path := Split(key, '.');
    assert Meaning(loads, o) == SetExtra(key, v);
    ExtrasEdited(ExtrasOf(loads, os, ir.providerExtras), key, v);
  }

  lemma ExtrasEdited(extras: Fields, key: string, v: Json)
    ensures var after, path: Path := ExtendExtras(extras, SetExtra(key, v)), Split(key, '.');
            && (!AcceptedKey(key) || BlockedAt(extras, path) ==> after == extras)
            && (AcceptedKey(key) && !BlockedAt(extras, path) ==>
                  && GetPath(after, path) == (if v.Null? then None else Some(v))
                  && forall other: Path | Unrelated(path, other) :: GetPath(after, other) == GetPath(extras, other))
  {
    var path: Path := Split(key, '.');
    SetFailsWhenBlocked(extras, path, v);
    DeleteOutcome(extras, path);
    if !BlockedAt(extras, path) {
      AbsentIsNone(extras, path);
      if !v.Null? { SetReadsBack(extras, path, v, path); }
      else if DeleteNestedPath(extras, path).Reached? { DeleteRemovesAndPrunes(extras, path, path); }
      forall other: Path | Unrelated(path, other)
        ensures var after := if v.Null? then DeleteNestedPath(extras, path) else Absent;
                after.Reached? ==>
                  GetPath(after.fields, path) == None && GetPath(after.fields, other) == GetPath(extras, other)
        ensures !v.Null? ==> GetPath(SetNestedPath(extras, path, v).value, other) == GetPath(extras, other)
      {
        if !v.Null? { SetReadsBack(extras, path, v, other); }
        else if DeleteNestedPath(extras, path).Reached? { DeleteRemovesAndPrunes(extras, path, other); }
      }
    }
  }

  lemma {:induction false} AbsentIsNone(node: Fields, path: Path)
    ensures DeleteNestedPath(node, path).Absent? ==> GetPath(node, path) == None
    decreases |path|
  {
    if |path| > 1 && path[0] in node && node[path[0]].Obj? { AbsentIsNone(node[path[0]].fields, path[1..]); }
  }

  /** The kind of value that an override of this kind takes. */
  predicate Takes(kind: OverrideKind, value: OverrideValue) {
    match kind
    case ToolToggle => value.BoolV?
    case SystemPartToggle => value.BoolV?
    case MessageBlockToggle => value.BoolV?
    case TruncateToolResult => value.IntV? || value.BoolV?
    case _ => value.StrV?
  }

  /** An override with any other value is idle, and so is one toggled on. */
  lemma OtherValuesAreIdle(loads: Loads, os: seq<Override>, o: Override, ir: Request)
    requires !Takes(o.kind, o.value) || (o.value == BoolV(true) && o.kind != TruncateToolResult)
    ensures OneShot(loads, os + [o], ir) == OneShot(loads, os, ir)
  {
    hide PlanOf, ExtrasOf, Sanitized, PreservesResults, Edit, ParsePrefixed, ParseMessageTarget, ParseSystemIndex;
    OneMore(loads, os, o, ir);
  }

  /** The audit keeps the text that an applied override leaves, that of the last result of a
      truncation as cut, and no text for the other kinds. */
  lemma AuditKeepsTheText(loads: Loads, os: seq<Override>, o: Override, ir: Request)
    ensures var p := PlanOf(loads, os);
            var applied := Applies(loads, ir, p, ExtrasOf(loads, os, ir.providerExtras), o);
            CuratedValue(loads, ir, p, o, applied) ==
              if !applied then None
              else if o.kind in {ToolDescription, SystemPartText, MessageText} && o.value.StrV? then Some(o.value.s)
              else if o.kind == TruncateToolResult then
                LastUserResultText(Edit(ir, PlanOf(loads, os + [o])).messages, Meaning(loads, o).id)
              else None
  {
    PlanAppend(loads, os, o, ir.providerExtras);
    hide PlanOf, ExtrasOf, EditSystem, EditTools, EditMessages, EditSampling, ParsePrefixed, ParseMessageTarget,
         ParseSystemIndex, HasTool, LastUserResultText, HasUserResult;
  }

  /** A toggle-off is reported as applied exactly when it takes something away from the request
      as edited so far. */
  lemma AppliedWhenSomethingGoes(loads: Loads, os: seq<Override>, o: Override, ir: Request)
    requires o.kind in {ToolToggle, SystemPartToggle, MessageBlockToggle} && o.value == BoolV(false)
    ensures Applies(loads, ir, PlanOf(loads, os), ExtrasOf(loads, os, ir.providerExtras), o)
      <==> Edit(ir, PlanOf(loads, os + [o])) != Edit(ir, PlanOf(loads, os))
  {
    PlanAppend(loads, os, o, ir.providerExtras);
    hide PlanOf, ExtrasOf, EditSystem, EditTools, EditMessages, EditSampling, ParsePrefixed, ParseMessageTarget,
         ParseSystemIndex, HasTool;
    var p := PlanOf(loads, os);
    match Meaning(loads, o) {
      case DropTool(name) => ToolGoes(ir.tools, p, name);
      case DropPart(i) => PartEdits(ir.system, p.partOff, p.partText, i, "");
      case DropBlock(m, b) => BlockGoes(ir.messages, p.blocks, m, b);
      case _ =>
    }
  }

  lemma ToolGoes(tools: seq<ToolDef>, p: Plan, name: string)
    ensures EditTools(tools, p.toolOff + {name}, p.toolText) != EditTools(tools, p.toolOff, p.toolText)
      <==> HasTool(tools, name) && name !in p.toolOff
  {
    var now := EditTools(tools, p.toolOff, p.toolText);
    ToolEditsCompose(tools, p.toolOff, p.toolText, {name}, map[]);
    assert p.toolText + map[] == p.toolText;
    HasToolAfterEdit(tools, p.toolOff, p.toolText, name);
    ToolsButIs(now, name);
    ToolsButIsShorter(now, name);
    hide EditTools;
  }

  lemma {:induction false} ToolsButIsShorter(tools: seq<ToolDef>, name: string)
    ensures |ToolsBut(tools, name)| <= |tools|
    ensures ToolsBut(tools, name) == tools <==> !HasTool(tools, name)
  {
    if tools != [] {
      ToolsButIsShorter(tools[1..], name);
      assert tools == [tools[0]] + tools[1..];
      assert HasTool(tools, name) <==> tools[0].name == name || HasTool(tools[1..], name);
    }
  }

  lemma BlockGoes(messages: seq<Message>, p: BlockPlan, msg: int, blk: int)
    ensures EditMessages(messages, ExtendBlocks(p, DropBlock(msg, blk))) != EditMessages(messages, p)
      <==> HasBlock(messages, msg, blk) && (msg, blk) !in p.off
  {
    hide EditMessages;
    if HasBlock(messages, msg, blk) && (msg, blk) !in p.off {
      DropBlockHits(messages, p, msg, blk);
      var now := EditMessages(messages, p);
      var a := ShiftAfterRemovals(blk, InRange(OffIn(p.off, msg), |messages[msg].content|));
      assert WithContent(now, msg, Without(now[msg].content, a))[msg].content != now[msg].content;
    } else {
      BlockMissed(messages, p, msg, blk, "");
    }
  }

  // ---- positions of the original request ----

  /** The places of a list that survive, in order. */
  ghost predicate Survivors(places: seq<nat>, n: nat, gone: int -> bool) {
    && (forall j, k | 0 <= j < k < |places| :: places[j] < places[k])
    && (forall k | 0 <= k < |places| :: places[k] < n && !gone(places[k]))
    && forall i | 0 <= i < n && !gone(i) :: i in places
  }

  lemma {:induction false} KeepSurvivors<T>(xs: seq<T>, off: set<int>) returns (places: seq<nat>)
    ensures Survivors(places, |xs|, i => i in off) && |places| == |Keep(xs, off)|
    ensures forall k | 0 <= k < |places| :: places[k] < |xs| && Keep(xs, off)[k] == xs[places[k]]
  {
    places := [];
    if xs != [] {
      var last := |xs| - 1;
      places := KeepSurvivors(xs[..last], off);
      if last !in off {
        var front := places;
        places := front + [last];
        assert forall i | i in front :: i in places;
      }
    }
  }

  /** The system part at this place of the original is toggled off. */
  predicate PartOff(os: seq<Override>, i: int) {
    Override(SystemPartToggle, "system:" + OfInt(i), BoolV(false)) in os
  }

  predicate IsPartText(o: Override, i: int) {
    o.kind == SystemPartText && o.target == "system:" + OfInt(i) && o.value.StrV?
  }

  /** The last text given to the system part at this place of the original. */
  function PartText(os: seq<Override>, i: int): Option<string> {
    if os == [] then None
    else
      var o := os[|os| - 1];
      if IsPartText(o, i) then Some(o.value.s)
      else PartText(os[..|os| - 1], i)
  }

  lemma PartStep(loads: Loads, o: Override, i: int)
    ensures Meaning(loads, o) == DropPart(i) <==> o == Override(SystemPartToggle, "system:" + OfInt(i), BoolV(false))
    ensures forall text :: Meaning(loads, o) == RewritePart(i, text) <==> IsPartText(o, i) && o.value.s == text
  {
    hide ParsePrefixed, ParseMessageTarget, ParseSystemIndex, OfInt;
    SystemTargetIsExact(o.target, i);
  }

  lemma PartAfterStep(p: Plan, step: PlanStep, i: int)
    ensures i in Extend(p, step).partOff <==> i in p.partOff || step == DropPart(i)
    ensures var texts := Extend(p, step).partText;
            if step.RewritePart? && step.index == i then i in texts && texts[i] == step.text
            else (i in texts <==> i in p.partText) && (i in texts ==> texts[i] == p.partText[i])
  {
  }

  lemma {:induction false} PlannedParts(loads: Loads, os: seq<Override>, i: int)
    ensures i in PlanOf(loads, os).partOff <==> PartOff(os, i)
    ensures PartText(os, i) == if i in PlanOf(loads, os).partText then Some(PlanOf(loads, os).partText[i]) else None
  {
    hide Meaning, Extend, OfInt;
    if os != [] {
      var front, o := os[..|os| - 1], os[|os| - 1];
      PlannedParts(loads, front, i);
      PartStep(loads, o, i);
      var step := Meaning(loads, o);
      assert step.RewritePart? && step.index == i ==> step == RewritePart(i, step.text);
      assert IsPartText(o, i) ==> step == RewritePart(i, o.value.s);
      PartAfterStep(PlanOf(loads, front), Meaning(loads, o), i);
      assert os == front + [o];
    }
  }

  /** Whatever the list of overrides: the curated system is made of the original parts that
      are not toggled off, in their order, each with the last text given to its place. */
  lemma SystemIsOriginalParts(loads: Loads, os: seq<Override>, ir: Request)
    ensures var after := OneShot(loads, os, ir).system;
            exists places | Survivors(places, |ir.system|, i => PartOff(os, i)) ::
              && |after| == |places|
              && forall k | 0 <= k < |places| ::
                   var part, text := ir.system[places[k]], PartText(os, places[k]);
                   after[k] == if text.Some? then part.(text := text.value) else part
  {
    hide PlanOf, ExtrasOf, Sanitized, PreservesResults, EditMessages, EditTools, EditSampling, Keep, PartOff, PartText;
    var p := PlanOf(loads, os);
    var parts := RewriteParts(ir.system, p.partText);
    var places := KeepSurvivors(parts, p.partOff);
    forall i: int ensures i in p.partOff <==> PartOff(os, i) { PlannedParts(loads, os, i); }
    assert Survivors(places, |ir.system|, i => PartOff(os, i));
    forall k | 0 <= k < |places|
      ensures var part, text := ir.system[places[k]], PartText(os, places[k]);
              Keep(parts, p.partOff)[k] == if text.Some? then part.(text := text.value) else part
    {
      PlannedParts(loads, os, places[k]);
    }
  }

  predicate BlockOff(os: seq<Override>, msg: int, blk: int) {
    Override(MessageBlockToggle, "msg:" + OfInt(msg) + ":blk:" + OfInt(blk), BoolV(false)) in os
  }

  predicate IsBlockText(o: Override, msg: int, blk: int) {
    o.kind == MessageText && o.target == "msg:" + OfInt(msg) + ":blk:" + OfInt(blk) && o.value.StrV?
  }

  /** The last text given to the block at this place of the original. */
  function BlockText(os: seq<Override>, msg: int, blk: int): Option<string> {
    if os == [] then None
    else
      var o := os[|os| - 1];
      if IsBlockText(o, msg, blk) then Some(o.value.s)
      else BlockText(os[..|os| - 1], msg, blk)
  }

  lemma BlockStep(loads: Loads, o: Override, msg: int, blk: int)
    ensures Meaning(loads, o) == DropBlock(msg, blk)
      <==> o == Override(MessageBlockToggle, "msg:" + OfInt(msg) + ":blk:" + OfInt(blk), BoolV(false))
    ensures forall text ::
      Meaning(loads, o) == RewriteBlock(msg, blk, text) <==> IsBlockText(o, msg, blk) && o.value.s == text
  {
    hide ParsePrefixed, ParseMessageTarget, ParseSystemIndex, OfInt;
    MessageTargetIsExact(o.target, msg, blk);
  }

  lemma BlockAfterStep(p: Plan, step: PlanStep, msg: int, blk: int)
    ensures (msg, blk) in Extend(p, step).blocks.off <==> (msg, blk) in p.blocks.off || step == DropBlock(msg, blk)
    ensures var before, after := p.blocks.text, Extend(p, step).blocks.text;
            if step.RewriteBlock? && step.msg == msg && step.blk == blk then
              (msg, blk) in after && after[(msg, blk)] == step.text
            else
              && ((msg, blk) in after <==> (msg, blk) in before)
              && ((msg, blk) in after ==> after[(msg, blk)] == before[(msg, blk)])
  {
  }

  lemma {:induction false} PlannedBlocks(loads: Loads, os: seq<Override>, msg: int, blk: int)
    ensures (msg, blk) in PlanOf(loads, os).blocks.off <==> BlockOff(os, msg, blk)
    ensures var texts := PlanOf(loads, os).blocks.text;
            BlockText(os, msg, blk) == if (msg, blk) in texts then Some(texts[(msg, blk)]) else None
  {
    hide Meaning, Extend, OfInt;
    if os != [] {
      var front, o := os[..|os| - 1], os[|os| - 1];
      PlannedBlocks(loads, front, msg, blk);
      BlockStep(loads, o, msg, blk);
      var step := Meaning(loads, o);
      assert step.RewriteBlock? && step.msg == msg && step.blk == blk ==> step == RewriteBlock(msg, blk, step.text);
      assert IsBlockText(o, msg, blk) ==> step == RewriteBlock(msg, blk, o.value.s);
      BlockAfterStep(PlanOf(loads, front), Meaning(loads, o), msg, blk);
      assert os == front + [o];
    }
  }

  /** A message without its toggled-off blocks, each text block with the last text given to
      its place; a tool result of a user message may be cut, everything else is as it was. */
  ghost predicate MessageEdited(os: seq<Override>, msg: int, before: Message, after: Message) {
    && after.role == before.role && after.providerData == before.providerData
    && exists places | Survivors(places, |before.content|, b => BlockOff(os, msg, b)) ::
         && |after.content| == |places|
         && forall k | 0 <= k < |places| ::
              var block, text := before.content[places[k]], BlockText(os, msg, places[k]);
              if block.ToolResultBlock? && before.role == "user" then
                after.content[k].ToolResultBlock? && after.content[k].toolUseId == block.toolUseId
              else
                after.content[k] == if block.TextBlock? && text.Some? then WithText(block, text.value) else block
  }

  /** Whatever the list of overrides: the curated messages are the sanitized form of the
      original ones, edited at their original places. */
  lemma MessagesAreOriginalBlocks(loads: Loads, os: seq<Override>, ir: Request)
    ensures exists edited: seq<Message> ::
      && |edited| == |ir.messages|
      && (forall m | 0 <= m < |edited| :: MessageEdited(os, m, ir.messages[m], edited[m]))
      && OneShot(loads, os, ir).messages == Sanitized(edited, PreservesResults(ir))
  {
    hide PlanOf, ExtrasOf, Sanitized, PreservesResults, EditSystem, EditTools, EditSampling, MessageEdited;
    var edited := Edit(ir, PlanOf(loads, os)).messages;
    forall m | 0 <= m < |edited| ensures MessageEdited(os, m, ir.messages[m], edited[m]) {
      MessageIsEdited(loads, os, m, ir.messages[m]);
    }
  }

  lemma MessageIsEdited(loads: Loads, os: seq<Override>, msg: int, m: Message)
    ensures MessageEdited(os, msg, m, EditMessage(PlanOf(loads, os).blocks, msg, m))
  {
    hide PlanOf, Keep, BlockOff, BlockText, TruncateSeq;
    var p := PlanOf(loads, os).blocks;
    var blocks := RewriteContent(p, msg, m);
    var places := KeepSurvivors(blocks, OffIn(p.off, msg));
    forall b: int ensures b in OffIn(p.off, msg) <==> BlockOff(os, msg, b) { PlannedBlocks(loads, os, msg, b); }
    assert Survivors(places, |m.content|, b => BlockOff(os, msg, b));
    forall k | 0 <= k < |places|
      ensures var text := BlockText(os, msg, places[k]);
              text == if (msg, places[k]) in p.text then Some(p.text[(msg, places[k])]) else None
    {
      PlannedBlocks(loads, os, msg, places[k]);
    }
  }
}
