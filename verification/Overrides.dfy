/** The override pipeline: overrides are applied one at a time to a shrinking copy, with
    index shifts kept in a mutable context, and the result is sanitized. Every step keeps
    the copy equal to the one-shot edit of the original under the plan so far. */
module Overrides {
  import opened Options
  import opened JsonValues
  import opened Ir
  import opened Canonicalization
  import opened OverrideTypes
  import opened OverrideTargets
  import opened OverrideAudit
  import opened OverrideOpsMessages
  import opened OverrideOpsMetadata
  import opened OverridePlan
  import opened Sanitize

  datatype ApplyResult = ApplyResult(applied: bool, charsDelta: int, curatedValue: Option<string>)

  const NOT_APPLIED := ApplyResult(false, 0, None)

  /** Whether an override applies, read off the original request and the plan so far. */
  function Applies(loads: Loads, ir: Request, p: Plan, extras: Fields, o: Override): bool {
    match o.kind
    case ToolToggle =>
      (match (ParseToolName(o.target), o.value)
       case (Some(name), BoolV(on)) => HasTool(ir.tools, name) && (on || name !in p.toolOff)
       case _ => false)
    case ToolDescription =>
      (match (ParseToolName(o.target), o.value)
       case (Some(name), StrV(_)) => HasTool(ir.tools, name) && name !in p.toolOff
       case _ => false)
    case SystemPartToggle =>
      (match (ParseSystemIndex(o.target), o.value)
       case (Some(i), BoolV(on)) => 0 <= i < |ir.system| && (on || i !in p.partOff)
       case _ => false)
    case SystemPartText =>
      (match (ParseSystemIndex(o.target), o.value)
       case (Some(i), StrV(_)) => 0 <= i < |ir.system| && i !in p.partOff
       case _ => false)
    case TruncateToolResult =>
      var step := Meaning(loads, o);
      step.LimitResult? && HasUserResult(EditMessages(ir.messages, p.blocks), step.id)
    case MessageBlockToggle =>
      (match (ParseMessageTarget(o.target), o.value)
       case (Some((m, b)), BoolV(on)) => HasBlock(ir.messages, m, b) && (on || (m, b) !in p.blocks.off)
       case _ => false)
    case MessageText =>
      (match (ParseMessageTarget(o.target), o.value)
       case (Some((m, b)), StrV(_)) =>
         HasBlock(ir.messages, m, b) && (m, b) !in p.blocks.off && ir.messages[m].content[b].TextBlock?
       case _ => false)
    case SamplingSet => Meaning(loads, o).Sample?
    case ProviderExtrasSet =>
      var step := Meaning(loads, o);
      step.SetExtra? && EditExtras(extras, step.key, step.v).Some?
  }

  /** The text an applied override leaves behind, for the audit. */
  function CuratedValue(loads: Loads, ir: Request, p: Plan, o: Override, applied: bool): Option<string> {
    if !applied then None
    else if o.kind.TruncateToolResult? then
      var step := Meaning(loads, o);
      if step.LimitResult? then LastUserResultText(EditMessages(ir.messages, Extend(p, step).blocks), step.id) else None
    else if (o.kind.ToolDescription? || o.kind.SystemPartText? || o.kind.MessageText?) && o.value.StrV? then
      Some(o.value.s)
    else None
  }

  /** What an override reports as its character delta: the change in canonical tool, system or
      message characters, the change in raw result or message text, or, for descriptions, the
      change at the last tool of that name; nothing for sampling and extras. */
  function Delta(f: FloatText, step: PlanStep, before: Request, after: Request): int {
    match step
    case DropTool(_) => ToolsChars(f, after.tools) - ToolsChars(f, before.tools)
    case DescribeTool(name, text) => DescriptionDelta(before.tools, name, text)
    case DropPart(_) => SystemChars(after.system) - SystemChars(before.system)
    case RewritePart(_, _) => SystemChars(after.system) - SystemChars(before.system)
    case LimitResult(id, _) => UserResultChars(after.messages, id) - UserResultChars(before.messages, id)
    case DropBlock(_, _) => MessagesChars(f, after.messages) - MessagesChars(f, before.messages)
    case RewriteBlock(_, _, _) => TextChars(after.messages) - TextChars(before.messages)
    case _ => 0
  }

  predicate IsSystemKind(kind: OverrideKind) { kind.SystemPartToggle? || kind.SystemPartText? }

  predicate IsToolKind(kind: OverrideKind) { kind.ToolToggle? || kind.ToolDescription? }

  /** Every tool name that is given a new description occurs once. */
  predicate DescribedOnce(loads: Loads, os: seq<Override>, tools: seq<ToolDef>) {
    forall o | o in os :: DescribesOne(Meaning(loads, o), tools)
  }

  predicate DescribesOne(step: PlanStep, tools: seq<ToolDef>) {
    step.DescribeTool? ==> CountTools(tools, step.name) <= 1
  }

  /** The removals recorded for one message. */
  function RemovedIn(removed: map<int, set<int>>, msg: int): set<int> {
    if msg in removed then removed[msg] else {}
  }

  /** The fields that no override touches. */
  predicate SameElsewhere(a: Request, b: Request) {
    a.model == b.model && a.provider == b.provider && a.metadata == b.metadata && a.stream == b.stream
  }

  class OverrideApplyContext {
    const loads: Loads
    const floatText: FloatText
    const originalIr: Request
    var currentIr: Request
    var removedSystemIndices: set<int>
    var removedBlkIndices: map<int, set<int>>
    ghost var plan: Plan
    ghost var extras: Fields

    /** The current request is the one-shot edit of the original under the plan so far,
        and the recorded removals are the planned ones that hit an existing position. */
    ghost predicate Valid()
      reads this
    {
      && currentIr.system == EditSystem(originalIr.system, plan.partOff, plan.partText)
      && currentIr.tools == EditTools(originalIr.tools, plan.toolOff, plan.toolText)
      && currentIr.messages == EditMessages(originalIr.messages, plan.blocks)
      && currentIr.sampling == EditSampling(originalIr.sampling, plan.sampling)
      && currentIr.providerExtras == extras
      && SameElsewhere(originalIr, currentIr)
      && removedSystemIndices == InRange(plan.partOff, |originalIr.system|)
      && (forall m | m in removedBlkIndices :: 0 <= m < |originalIr.messages|)
      && (forall m | 0 <= m < |originalIr.messages| ::
            RemovedIn(removedBlkIndices, m) == InRange(OffIn(plan.blocks.off, m), |originalIr.messages[m].content|))
    }

    /** The outcome of one override: the plan grows by its meaning, the report is exact. */
    ghost predicate Outcome(before: Request, planBefore: Plan, extrasBefore: Fields, o: Override, r: ApplyResult)
      reads this
    {
      && plan == Extend(planBefore, Meaning(loads, o))
      && extras == ExtendExtras(extrasBefore, Meaning(loads, o))
      && r.applied == Applies(loads, originalIr, planBefore, extrasBefore, o)
      && r.curatedValue == CuratedValue(loads, originalIr, planBefore, o, r.applied)
      && (!r.applied ==> currentIr == before && r.charsDelta == 0)
      && r.charsDelta == Delta(floatText, Meaning(loads, o), before, currentIr)
    }

    lemma ValidIsEdit()
      requires Valid()
      ensures currentIr == Edit(originalIr, plan).(providerExtras := extras)
    {
    }

    constructor (loads: Loads, floatText: FloatText, ir: Request)
      ensures Valid()
      ensures this.loads == loads && this.floatText == floatText && originalIr == ir && currentIr == ir
      ensures plan == EMPTY_PLAN && extras == ir.providerExtras
    {
      this.loads, this.floatText, originalIr, currentIr := loads, floatText, ir, ir;
      removedSystemIndices, removedBlkIndices := {}, map[];
      plan, extras := EMPTY_PLAN, ir.providerExtras;
      new;
      EmptyPlanEditsNothing(ir);
    }

    method ApplyToolToggle(target: string, value: OverrideValue) returns (r: ApplyResult)
      requires Valid()
      modifies this
      ensures Valid()
      ensures Outcome(old(currentIr), old(plan), old(extras), Override(ToolToggle, target, value), r)
    {
      hide ParsePrefixed, EditMessages, EditTools, EditSampling, EditSystem, SystemChars, ToolsSize, ToolCounter,
           HasTool;
      var name := ParseToolName(target);
      if name.None? || !value.BoolV? { return NOT_APPLIED; }
      if value.b {
        return ApplyResult(HasTool(originalIr.tools, name.value), 0, None);
      }
      var after, delta, applied :=
        OverrideOpsMessages.ApplyToolToggle(ToolCounter(floatText), currentIr, name.value, value.b);
      ToolEditsCompose(originalIr.tools, plan.toolOff, plan.toolText, {name.value}, map[]);
      HasToolAfterEdit(originalIr.tools, plan.toolOff, plan.toolText, name.value);
      NoToolToDrop(currentIr.tools, name.value);
      currentIr := after;
      assert plan.toolText + map[] == plan.toolText;
      plan := Extend(plan, DropTool(name.value));
      r := ApplyResult(applied, delta, None);
    }

    method ApplyToolDescription(target: string, value: OverrideValue) returns (r: ApplyResult)
      requires Valid()
      modifies this
      ensures Valid()
      ensures Outcome(old(currentIr), old(plan), old(extras), Override(ToolDescription, target, value), r)
    {
      hide ParsePrefixed, EditMessages, EditTools, EditSampling, EditSystem, SystemChars, ToolsChars, HasTool,
           DescriptionDelta;
      var name := ParseToolName(target);
      if name.None? || !value.StrV? { return NOT_APPLIED; }
      var after, delta, applied := OverrideOpsMessages.ApplyToolDescription(currentIr, name.value, value.s);
      ToolEditsCompose(originalIr.tools, plan.toolOff, plan.toolText, {}, map[name.value := value.s]);
      HasToolAfterEdit(originalIr.tools, plan.toolOff, plan.toolText, name.value);
      NoToolToDescribe(currentIr.tools, name.value, value.s);
      currentIr := after;
      assert plan.toolText + map[name.value := value.s] == plan.toolText[name.value := value.s];
      assert plan.toolOff + {} == plan.toolOff;
      plan := Extend(plan, DescribeTool(name.value, value.s));
      r := ApplyResult(applied, delta, if applied then Some(value.s) else None);
    }

    method ApplySystemPartToggle(target: string, value: OverrideValue) returns (r: ApplyResult)
      requires Valid()
      modifies this
      ensures Valid()
      ensures Outcome(old(currentIr), old(plan), old(extras), Override(SystemPartToggle, target, value), r)
    {
      hide ParsePrefixedInt, EditMessages, EditTools, EditSampling, EditSystem, SystemChars, ToolsChars,
           ShiftAfterRemovals;
      var index := ParseSystemIndex(target);
      if index.None? || !value.BoolV? { return NOT_APPLIED; }
      var i := index.value;
      if value.b {
        return ApplyResult(0 <= i < |originalIr.system|, 0, None);
      }
      PartEdits(originalIr.system, plan.partOff, plan.partText, i, "");
      ghost var planned := Extend(plan, DropPart(i));
      if i in removedSystemIndices {
        plan := planned;
        return NOT_APPLIED;
      }
      var adjusted := AdjustSystemIndex(i, removedSystemIndices);
      var after, delta, applied := OverrideOpsMessages.ApplySystemPartToggle(currentIr, adjusted, value.b);
      currentIr := after;
      if applied {
        removedSystemIndices := removedSystemIndices + {i};
      }
      plan := planned;
      r := ApplyResult(applied, delta, None);
    }

    method ApplySystemPartText(target: string, value: OverrideValue) returns (r: ApplyResult)
      requires Valid()
      modifies this
      ensures Valid()
      ensures Outcome(old(currentIr), old(plan), old(extras), Override(SystemPartText, target, value), r)
    {
      hide ParsePrefixedInt, EditMessages, EditTools, EditSampling, EditSystem, SystemChars, ToolsChars,
           ShiftAfterRemovals;
      var index := ParseSystemIndex(target);
      if index.None? || !value.StrV? { return NOT_APPLIED; }
      var i := index.value;
      PartEdits(originalIr.system, plan.partOff, plan.partText, i, value.s);
      ghost var planned := Extend(plan, RewritePart(i, value.s));
      if i in removedSystemIndices {
        plan := planned;
        return NOT_APPLIED;
      }
      var adjusted := AdjustSystemIndex(i, removedSystemIndices);
      var after, delta, applied := OverrideOpsMessages.ApplySystemPartText(currentIr, adjusted, value.s);
      currentIr := after;
      plan := planned;
      r := ApplyResult(applied, delta, if applied then Some(value.s) else None);
    }

    method ApplyTruncateToolResult(target: string, value: OverrideValue) returns (r: ApplyResult)
      requires Valid()
      modifies this
      ensures Valid()
      ensures Outcome(old(currentIr), old(plan), old(extras), Override(TruncateToolResult, target, value), r)
    {
      hide ParsePrefixed, EditMessages, EditTools, EditSampling, EditSystem, SystemChars, ToolsChars,
           ShiftAfterRemovals, TruncateMessages, HasUserResult, LastUserResultText, UserResultChars;
      var id := ParseToolResultId(target);
      var limit := AsInt(value);
      if id.None? || limit.None? || limit.value <= 0 { return NOT_APPLIED; }
      var after, delta, applied, curated :=
        OverrideOpsMessages.ApplyTruncateToolResult(currentIr, id.value, limit.value);
      TruncateEditedMessages(originalIr.messages, plan.blocks, id.value, limit.value);
      NoResultNoCut(currentIr.messages, id.value, limit.value);
      currentIr := after;
      plan := Extend(plan, LimitResult(id.value, limit.value));
      r := ApplyResult(applied, delta, curated);
    }

    method ApplyMessageBlockToggle(target: string, value: OverrideValue) returns (r: ApplyResult)
      requires Valid()
      modifies this
      ensures Valid()
      ensures Outcome(old(currentIr), old(plan), old(extras), Override(MessageBlockToggle, target, value), r)
    {
      hide ParseMessageTarget, AdjustBlkIndex, EditMessages, EditTools, EditSampling, EditSystem, SystemChars,
           ToolsChars, ShiftAfterRemovals, BlockCounter, OffIn, InRange, WithContent, RemovedIn;
      var parsed := ParseMessageTarget(target);
      if parsed.None? || !value.BoolV? { return NOT_APPLIED; }
      var (m, b) := parsed.value;
      if value.b {
        return ApplyResult(HasBlock(originalIr.messages, m, b), 0, None);
      }
      DropBlockIsPlanned(m, b);
      var adjusted := AdjustBlkIndex(m, b, removedBlkIndices);
      ghost var planned := Extend(plan, DropBlock(m, b));
      if adjusted.None? {
        plan := planned;
        return NOT_APPLIED;
      }
      var after, delta, applied :=
        OverrideOpsMessages.ApplyMessageBlockToggle(floatText, currentIr, m, adjusted.value);
      currentIr := after;
      if applied {
        removedBlkIndices := removedBlkIndices[m := RemovedIn(removedBlkIndices, m) + {b}];
      }
      plan := planned;
      r := ApplyResult(applied, delta, None);
    }

    /** What dropping a block does to the current messages and to the recorded removals. */
    lemma DropBlockIsPlanned(m: int, b: int)
      requires Valid()
      ensures var adjusted := AdjustBlkIndex(m, b, removedBlkIndices);
              var now := currentIr.messages;
              var planned := ExtendBlocks(plan.blocks, DropBlock(m, b));
              var hit := HasBlock(originalIr.messages, m, b) && (m, b) !in plan.blocks.off;
              var removed :=
                if hit then removedBlkIndices[m := RemovedIn(removedBlkIndices, m) + {b}] else removedBlkIndices;
              && (adjusted.None? ==> !hit)
              && (adjusted.Some? ==> (HasBlock(now, m, adjusted.value) <==> hit))
              && EditMessages(originalIr.messages, planned)
                   == (if hit then WithContent(now, m, Without(now[m].content, adjusted.value)) else now)
              && (hit ==> 0 <= m < |originalIr.messages|)
              && forall i | 0 <= i < |originalIr.messages| ::
                   RemovedIn(removed, i) == InRange(OffIn(planned.off, i), |originalIr.messages[i].content|)
    {
      var hit := HasBlock(originalIr.messages, m, b) && (m, b) !in plan.blocks.off;
      RemovedIsPlanned(m, b);
      OffAfterDrop(originalIr.messages, plan.blocks.off, m, b);
      hide EditMessages, AdjustBlkIndex, OffIn, InRange, ShiftAfterRemovals;
      if hit { DropBlockHits(originalIr.messages, plan.blocks, m, b); }
      else { BlockMissed(originalIr.messages, plan.blocks, m, b, ""); }
    }

    method ApplyMessageText(target: string, value: OverrideValue) returns (r: ApplyResult)
      requires Valid()
      modifies this
      ensures Valid()
      ensures Outcome(old(currentIr), old(plan), old(extras), Override(MessageText, target, value), r)
    {
      hide ParseMessageTarget, AdjustBlkIndex, EditMessages, EditTools, EditSampling, EditSystem, SystemChars,
           ToolsChars, ShiftAfterRemovals, OffIn, InRange, WithContent;
      var parsed := ParseMessageTarget(target);
      if parsed.None? || !value.StrV? { return NOT_APPLIED; }
      var (m, b) := parsed.value;
      RewriteBlockIsPlanned(m, b, value.s);
      var adjusted := AdjustBlkIndex(m, b, removedBlkIndices);
      ghost var planned := Extend(plan, RewriteBlock(m, b, value.s));
      if adjusted.None? {
        plan := planned;
        return NOT_APPLIED;
      }
      var after, delta, applied := OverrideOpsMessages.ApplyMessageText(currentIr, m, adjusted.value, value.s);
      currentIr := after;
      plan := planned;
      r := ApplyResult(applied, delta, if applied then Some(value.s) else None);
    }

    /** What rewriting a block does to the current messages. */
    lemma RewriteBlockIsPlanned(m: int, b: int, text: string)
      requires Valid()
      ensures var adjusted := AdjustBlkIndex(m, b, removedBlkIndices);
              var now := currentIr.messages;
              var planned := ExtendBlocks(plan.blocks, RewriteBlock(m, b, text));
              var hit := HasBlock(originalIr.messages, m, b) && (m, b) !in plan.blocks.off
                         && originalIr.messages[m].content[b].TextBlock?;
              && (adjusted.None? ==> !hit)
              && (adjusted.Some? ==>
                    (HasBlock(now, m, adjusted.value) && now[m].content[adjusted.value].TextBlock? <==> hit))
              && EditMessages(originalIr.messages, planned)
                   == (if hit then
                         var content := now[m].content;
                         WithContent(now, m, content[adjusted.value := WithText(content[adjusted.value], text)])
                       else now)
              && planned.off == plan.blocks.off
    {
      RemovedIsPlanned(m, b);
      hide EditMessages, AdjustBlkIndex, OffIn, InRange, ShiftAfterRemovals;
      if HasBlock(originalIr.messages, m, b) && (m, b) !in plan.blocks.off {
        RewriteBlockHits(originalIr.messages, plan.blocks, m, b, text);
      } else {
        BlockMissed(originalIr.messages, plan.blocks, m, b, text);
      }
    }

    /** A block counts as removed exactly when it existed and its removal is planned. */
    lemma RemovedIsPlanned(m: int, b: int)
      requires Valid()
      ensures AdjustBlkIndex(m, b, removedBlkIndices).None?
         <==> HasBlock(originalIr.messages, m, b) && (m, b) in plan.blocks.off
      ensures 0 <= m < |originalIr.messages| && AdjustBlkIndex(m, b, removedBlkIndices).Some? ==>
        AdjustBlkIndex(m, b, removedBlkIndices).value
          == ShiftAfterRemovals(b, InRange(OffIn(plan.blocks.off, m), |originalIr.messages[m].content|))
    {
      if 0 <= m < |originalIr.messages| {
        assert RemovedIn(removedBlkIndices, m)
            == InRange(OffIn(plan.blocks.off, m), |originalIr.messages[m].content|);
        assert b in OffIn(plan.blocks.off, m) <==> (m, b) in plan.blocks.off;
      }
    }

    method ApplySamplingOverride(target: string, value: OverrideValue) returns (r: ApplyResult)
      requires Valid()
      modifies this
      ensures Valid()
      ensures Outcome(old(currentIr), old(plan), old(extras), Override(SamplingSet, target, value), r)
    {
      hide ParsePrefixed, SamplingValueValid, SetSampling, EditMessages, EditTools, EditSampling, EditSystem,
           SystemChars, ToolsChars, ShiftAfterRemovals;
      var field := ParseSamplingField(target);
      if field.None? || !value.StrV? { return NOT_APPLIED; }
      var decoded := loads(value.s);
      if decoded.None? { return NOT_APPLIED; }
      var (after, delta, applied) := ApplySamplingSet(currentIr, field.value, decoded.value);
      if applied {
        SampleEdits(originalIr.sampling, plan.sampling, field.value, decoded.value);
        plan := Extend(plan, Sample(field.value, decoded.value));
      }
      currentIr := after;
      r := ApplyResult(applied, delta, None);
    }

    method ApplyProviderExtrasOverride(target: string, value: OverrideValue) returns (r: ApplyResult)
      requires Valid()
      modifies this
      ensures Valid()
      ensures Outcome(old(currentIr), old(plan), old(extras), Override(ProviderExtrasSet, target, value), r)
    {
      hide ParsePrefixed, EditExtras, EditMessages, EditTools, EditSampling, EditSystem, SystemChars, ToolsChars,
           ShiftAfterRemovals;
      var key := ParseProviderExtrasKey(target);
      if key.None? || !value.StrV? { return NOT_APPLIED; }
      var decoded := loads(value.s);
      if decoded.None? { return NOT_APPLIED; }
      var (after, delta, applied) := ApplyProviderExtrasSet(currentIr, key.value, decoded.value);
      currentIr := after;
      extras := ExtendExtras(extras, SetExtra(key.value, decoded.value));
      r := ApplyResult(applied, delta, None);
    }

    /** Dispatch on the kind. */
    method ApplyOverrideValue(o: Override) returns (r: ApplyResult)
      requires Valid()
      modifies this
      ensures Valid()
      ensures Outcome(old(currentIr), old(plan), old(extras), o, r)
    {
      match o.kind {
        case ToolToggle => r := ApplyToolToggle(o.target, o.value);
        case ToolDescription => r := ApplyToolDescription(o.target, o.value);
        case SystemPartToggle => r := ApplySystemPartToggle(o.target, o.value);
        case SystemPartText => r := ApplySystemPartText(o.target, o.value);
        case TruncateToolResult => r := ApplyTruncateToolResult(o.target, o.value);
        case MessageBlockToggle => r := ApplyMessageBlockToggle(o.target, o.value);
        case MessageText => r := ApplyMessageText(o.target, o.value);
        case SamplingSet => r := ApplySamplingOverride(o.target, o.value);
        case ProviderExtrasSet => r := ApplyProviderExtrasOverride(o.target, o.value);
      }
    }
  }

  // ---- facts the steps need ----

  lemma {:induction false} HasToolAfterEdit(
      tools: seq<ToolDef>, off: set<string>, text: map<string, string>, name: string)
    ensures HasTool(EditTools(tools, off, text), name) <==> HasTool(tools, name) && name !in off
  {
    if tools != [] {
      var front, tool := tools[..|tools| - 1], tools[|tools| - 1];
      HasToolAfterEdit(front, off, text, name);
      assert tools == front + [tool];
    }
  }

  lemma {:induction false} NoToolToDrop(tools: seq<ToolDef>, name: string)
    ensures !HasTool(tools, name) ==> EditTools(tools, {name}, map[]) == tools
  {
    if tools != [] {
      var front, tool := tools[..|tools| - 1], tools[|tools| - 1];
      NoToolToDrop(front, name);
      assert tools == front + [tool];
    }
  }

  lemma {:induction false} NoToolToDescribe(tools: seq<ToolDef>, name: string, text: string)
    ensures !HasTool(tools, name) ==>
      EditTools(tools, {}, map[name := text]) == tools && DescriptionDelta(tools, name, text) == 0
  {
    if tools != [] {
      var front, tool := tools[..|tools| - 1], tools[|tools| - 1];
      NoToolToDescribe(front, name, text);
      assert tools == front + [tool];
    }
  }

  lemma CountAppend(tools: seq<ToolDef>, tool: ToolDef, name: string)
    ensures CountTools(tools + [tool], name) == CountTools(tools, name) + if tool.name == name then 1 else 0
  {
    assert (tools + [tool])[..|tools|] == tools;
  }

  lemma {:induction false} CountAfterEdit(
      tools: seq<ToolDef>, off: set<string>, text: map<string, string>, name: string)
    ensures CountTools(EditTools(tools, off, text), name) <= CountTools(tools, name)
  {
    if tools != [] {
      hide EditTools, CountTools;
      var front, tool := tools[..|tools| - 1], tools[|tools| - 1];
      assert tools == front + [tool];
      CountAfterEdit(front, off, text, name);
      EditToolsAppend(front, tool, off, text);
      CountAppend(front, tool, name);
      var edited := EditTools(front, off, text);
      assert edited + [] == edited;
      CountAppend(edited, Described(tool, text), name);
    }
  }

  lemma DescriptionLedger(
      f: FloatText, tools: seq<ToolDef>, off: set<string>, texts: map<string, string>, name: string, text: string)
    ensures var now := EditTools(tools, off, texts);
            CountTools(tools, name) <= 1 ==>
              ToolsChars(f, EditTools(now, {}, map[name := text]))
                == ToolsChars(f, now) + DescriptionDelta(now, name, text)
  {
    var now := EditTools(tools, off, texts);
    CountAfterEdit(tools, off, texts, name);
    ToolCharsCountsDescription(f);
    DescriptionDeltaConserved(ToolCounter(f), now, name);
  }

  /** The reported deltas are those of the parts: only system overrides change the system
      characters, only tool overrides the tool characters, each by what it reports, provided
      that a description is given to one tool. */
  lemma LedgerAdds(loads: Loads, f: FloatText, ir: Request, p: Plan, o: Override)
    ensures var step := Meaning(loads, o);
            var before, after := Edit(ir, p), Edit(ir, Extend(p, step));
            var d := Delta(f, step, before, after);
            && SystemChars(after.system) == SystemChars(before.system) + (if IsSystemKind(o.kind) then d else 0)
            && (DescribesOne(step, ir.tools) ==>
                  ToolsChars(f, after.tools) == ToolsChars(f, before.tools) + (if IsToolKind(o.kind) then d else 0))
  {
    hide ParsePrefixed, ParseMessageTarget, EditMessages, EditTools, EditSampling, EditSystem, SystemChars, ToolsChars,
         MessagesChars, TextChars, UserResultChars, DescriptionDelta, ExtendBlocks;
    var step := Meaning(loads, o);
    if step.DescribeTool? {
      ToolEditsCompose(ir.tools, p.toolOff, p.toolText, {}, map[step.name := step.text]);
      assert p.toolText + map[step.name := step.text] == p.toolText[step.name := step.text]
        && p.toolOff + {} == p.toolOff;
      DescriptionLedger(f, ir.tools, p.toolOff, p.toolText, step.name, step.text);
    }
  }

  lemma DeltaIgnoresExtras(f: FloatText, step: PlanStep, before: Request, after: Request, x: Fields, y: Fields)
    ensures Delta(f, step, before.(providerExtras := x), after.(providerExtras := y)) == Delta(f, step, before, after)
  {
  }

  lemma {:induction false} NoResultNoCut(messages: seq<Message>, id: string, limit: nat)
    ensures !HasUserResult(messages, id) ==>
      TruncateMessages(messages, id, limit) == messages && LastUserResultText(messages, id) == None
  {
    if messages != [] && !HasUserResult(messages, id) {
      var front, last := messages[..|messages| - 1], messages[|messages| - 1];
      NoResultNoCut(front, id, limit);
      if last.role == "user" { NoResultNoTruncation(last.content, id, limit); }
      assert messages == front + [last];
      assert TruncateMessages(messages, id, limit)[..|front|] == TruncateMessages(front, id, limit);
    }
  }

  lemma OffAfterDrop(messages: seq<Message>, off: set<(int, int)>, m: int, b: int)
    ensures forall i | 0 <= i < |messages| ::
      InRange(OffIn(off + {(m, b)}, i), |messages[i].content|)
        == if i == m && 0 <= b < |messages[i].content| && (m, b) !in off
           then InRange(OffIn(off, i), |messages[i].content|) + {b}
           else InRange(OffIn(off, i), |messages[i].content|)
  {
    forall i: int ensures OffIn(off + {(m, b)}, i) == if i == m then OffIn(off, i) + {b} else OffIn(off, i) {
      assert forall c :: c in OffIn(off, i) <==> (i, c) in off;
    }
  }

  // ---- the whole pipeline ----

  /** Stable insertion: after every override of the same or an earlier priority. */
  function InsertByPriority(sorted: seq<Override>, o: Override): seq<Override> {
    if sorted == [] then [o]
    else
      var last := sorted[|sorted| - 1];
      if Priority(last.kind) <= Priority(o.kind) then sorted + [o]
      else InsertByPriority(sorted[..|sorted| - 1], o) + [last]
  }

  /** The overrides sorted by priority, those of one priority in their order. */
  function SortByPriority(os: seq<Override>): seq<Override> {
    if os == [] then [] else InsertByPriority(SortByPriority(os[..|os| - 1]), os[|os| - 1])
  }

  /** The sum of the deltas reported for the kinds that `counted` selects. */
  function SumDeltas(entries: seq<AuditEntry>, os: seq<Override>, counted: OverrideKind -> bool): int
    requires |entries| == |os|
  {
    if os == [] then 0
    else
      var last := |os| - 1;
      SumDeltas(entries[..last], os[..last], counted) + if counted(os[last].kind) then entries[last].charsDelta else 0
  }

  lemma SumDeltasAppend(
      entries: seq<AuditEntry>, os: seq<Override>, e: AuditEntry, o: Override, counted: OverrideKind -> bool)
    requires |entries| == |os|
    ensures SumDeltas(entries + [e], os + [o], counted)
         == SumDeltas(entries, os, counted) + if counted(o.kind) then e.charsDelta else 0
  {
    assert (entries + [e])[..|os|] == entries && (os + [o])[..|os|] == os;
  }

  /** One ledger line: the override as given, applied exactly when the plan says so, with the
      delta and the text that its step of the plan makes. */
  ghost predicate EntryFor(loads: Loads, f: FloatText, ir: Request, before: seq<Override>, o: Override, e: AuditEntry) {
    var p, extras := PlanOf(loads, before), ExtrasOf(loads, before, ir.providerExtras);
    && e.kind == KindName(o.kind) && e.target == o.target
    && e.applied == Applies(loads, ir, p, extras, o)
    && e.curatedValue == CuratedValue(loads, ir, p, o, e.applied)
    && e.charsDelta == Delta(f, Meaning(loads, o), Edit(ir, p), Edit(ir, Extend(p, Meaning(loads, o))))
  }

  /** The ledger of a list of overrides: one exact line for each, whose system and tool deltas
      add up to the change from the original to the current request. */
  ghost predicate LedgerOf(
      loads: Loads, f: FloatText, ir: Request, os: seq<Override>, entries: seq<AuditEntry>, now: Request)
  {
    && |entries| == |os|
    && (forall i | 0 <= i < |os| :: EntryFor(loads, f, ir, os[..i], os[i], entries[i]))
    && SumDeltas(entries, os, IsSystemKind) == SystemChars(now.system) - SystemChars(ir.system)
    && (DescribedOnce(loads, os, ir.tools) ==>
          SumDeltas(entries, os, IsToolKind) == ToolsChars(f, now.tools) - ToolsChars(f, ir.tools))
  }

  /** One more override, one more line. */
  lemma LedgerGrows(
      loads: Loads, f: FloatText, ir: Request, os: seq<Override>, entries: seq<AuditEntry>, o: Override, e: AuditEntry,
      now: Request, next: Request)
    requires LedgerOf(loads, f, ir, os, entries, now)
    requires now.system == Edit(ir, PlanOf(loads, os)).system && now.tools == Edit(ir, PlanOf(loads, os)).tools
    requires next.system == Edit(ir, PlanOf(loads, os + [o])).system
        && next.tools == Edit(ir, PlanOf(loads, os + [o])).tools
    requires EntryFor(loads, f, ir, os, o, e)
    ensures LedgerOf(loads, f, ir, os + [o], entries + [e], next)
  {
    hide SystemChars, ToolsChars, SumDeltas, Applies, CuratedValue, Meaning, Extend, Edit, PlanOf, ExtrasOf, Delta,
         DescribesOne, KindName, EntryFor;
    PlanAppend(loads, os, o, ir.providerExtras);
    SumDeltasAppend(entries, os, e, o, IsSystemKind);
    SumDeltasAppend(entries, os, e, o, IsToolKind);
    LedgerAdds(loads, f, ir, PlanOf(loads, os), o);
    DeltaOfEntry(loads, f, ir, os, o, e);
    forall i | 0 <= i <= |os| ensures EntryFor(loads, f, ir, (os + [o])[..i], (os + [o])[i], (entries + [e])[i]) {
      assert (os + [o])[..i] == os[..i] && os[..|os|] == os;
    }
    assert forall x | x in os + [o] :: x in os || x == o;
    assert o in os + [o] && forall x | x in os :: x in os + [o];
  }

  lemma DeltaOfEntry(loads: Loads, f: FloatText, ir: Request, os: seq<Override>, o: Override, e: AuditEntry)
    requires EntryFor(loads, f, ir, os, o, e)
    ensures var p := PlanOf(loads, os);
            e.charsDelta == Delta(f, Meaning(loads, o), Edit(ir, p), Edit(ir, Extend(p, Meaning(loads, o))))
  {
  }

  /** The line for a report of the context is exact. */
  lemma ReportIsExact(
      loads: Loads, f: FloatText, ir: Request, os: seq<Override>, o: Override, r: ApplyResult,
      now: Request, next: Request)
    requires var p, extras, step := PlanOf(loads, os), ExtrasOf(loads, os, ir.providerExtras), Meaning(loads, o);
             && now == Edit(ir, p).(providerExtras := extras)
             && next == Edit(ir, Extend(p, step)).(providerExtras := ExtendExtras(extras, step))
             && r.applied == Applies(loads, ir, p, extras, o)
             && r.curatedValue == CuratedValue(loads, ir, p, o, r.applied)
             && r.charsDelta == Delta(f, step, now, next)
    ensures EntryFor(loads, f, ir, os, o,
                     AuditEntry(KindName(o.kind), o.target, r.applied, r.charsDelta, r.curatedValue))
  {
    hide Applies, CuratedValue, Meaning, Extend, ExtendExtras, Edit, PlanOf, ExtrasOf, Delta, KindName;
    var p, step := PlanOf(loads, os), Meaning(loads, o);
    DeltaIgnoresExtras(f, step, Edit(ir, p), Edit(ir, Extend(p, step)), now.providerExtras, next.providerExtras);
  }

  /** The pipeline returns the one-shot edit; the ledger has one exact line per override,
      in priority order, and its system and tool deltas add up to the real change. */
  method ApplyOverrides(loads: Loads, f: FloatText, overrides: seq<Override>, ir: Request)
    returns (after: Request, audit: Audit)
    ensures after == OneShot(loads, overrides, ir)
    ensures LedgerOf(loads, f, ir, SortByPriority(overrides), audit.entries, after)
    ensures audit.systemCharsBefore == SystemChars(ir.system) && audit.systemCharsAfter == SystemChars(after.system)
    ensures audit.toolsCharsBefore == ToolsChars(f, ir.tools) && audit.toolsCharsAfter == ToolsChars(f, after.tools)
    ensures audit.messagesCharsBefore == MessagesChars(f, ir.messages)
    ensures audit.messagesCharsAfter == MessagesChars(f, after.messages)
    ensures audit.charsBefore == audit.systemCharsBefore + audit.toolsCharsBefore + audit.messagesCharsBefore
    ensures audit.charsAfter == audit.systemCharsAfter + audit.toolsCharsAfter + audit.messagesCharsAfter
  {
    hide SystemChars, ToolsChars, MessagesChars, SumDeltas, Applies, CuratedValue, Meaning, Extend, ExtendExtras,
         SortByPriority, Sanitized, OneShot, Edit, PlanOf, ExtrasOf, OverrideApplyContext.Valid, KindName,
         Delta, EntryFor, DescribedOnce, LedgerOf;
    var sysBefore, toolsBefore, msgsBefore := CountCharsParts(f, ir);
    var context := new OverrideApplyContext(loads, f, ir);
    var sorted := SortByPriority(overrides);
    var entries: seq<AuditEntry> := [];
    NothingDone(loads, f, ir);
    PlanOfNothing(loads, ir.providerExtras);
    for i := 0 to |sorted|
      invariant fresh(context) && context.Valid()
      invariant context.loads == loads && context.floatText == f && context.originalIr == ir
      invariant context.plan == PlanOf(loads, sorted[..i])
      invariant context.extras == ExtrasOf(loads, sorted[..i], ir.providerExtras)
      invariant LedgerOf(loads, f, ir, sorted[..i], entries, context.currentIr)
    {
      var o := sorted[i];
      ghost var done, before := sorted[..i], context.currentIr;
      context.ValidIsEdit();
      var r := context.ApplyOverrideValue(o);
      context.ValidIsEdit();
      PlanAppend(loads, done, o, ir.providerExtras);
      ReportIsExact(loads, f, ir, done, o, r, before, context.currentIr);
      var entry := AuditEntry(KindName(o.kind), o.target, r.applied, r.charsDelta, r.curatedValue);
      LedgerGrows(loads, f, ir, done, entries, o, entry, before, context.currentIr);
      assert sorted[..i + 1] == done + [o];
      entries := entries + [entry];
    }
    assert sorted[..|sorted|] == sorted;
    SortingKeepsThePlan(loads, overrides, ir.providerExtras);
    context.ValidIsEdit();
    var preserve := CodexHasToolResultOnlyTurn(ir);
    after := SanitizeCuratedMessages(context.currentIr, preserve);
    OneShotIs(loads, overrides, ir, context.currentIr, preserve);
    LedgerIgnoresMessages(loads, f, ir, sorted, entries, context.currentIr, after);
    var sysAfter, toolsAfter, msgsAfter := CountCharsParts(f, after);
    audit := Audit(entries, sysBefore + toolsBefore + msgsBefore, sysAfter + toolsAfter + msgsAfter,
                   sysBefore, sysAfter, toolsBefore, toolsAfter, msgsBefore, msgsAfter);
  }

  lemma LedgerIgnoresMessages(
      loads: Loads, f: FloatText, ir: Request, os: seq<Override>, entries: seq<AuditEntry>, a: Request, b: Request)
    requires LedgerOf(loads, f, ir, os, entries, a) && a.system == b.system && a.tools == b.tools
    ensures LedgerOf(loads, f, ir, os, entries, b)
  {
    hide EntryFor, SumDeltas, SystemChars, ToolsChars, DescribedOnce;
  }

  lemma NothingDone(loads: Loads, f: FloatText, ir: Request)
    ensures LedgerOf(loads, f, ir, [], [], ir)
  {
  }

  lemma PlanOfNothing(loads: Loads, extras: Fields)
    ensures PlanOf(loads, []) == EMPTY_PLAN && ExtrasOf(loads, [], extras) == extras
  {
  }

  lemma OneShotIs(loads: Loads, os: seq<Override>, ir: Request, edited: Request, preserve: bool)
    requires edited == Edit(ir, PlanOf(loads, os)).(providerExtras := ExtrasOf(loads, os, ir.providerExtras))
    requires preserve <==> ir.provider == "codex" && ResultIds(ir.messages) != {} && UseIds(ir.messages) == {}
    ensures edited.(messages := Sanitized(edited.messages, preserve)) == OneShot(loads, os, ir)
  {
  }

  // ---- the sort is a stable sort ----

  ghost predicate SortedByPriority(os: seq<Override>) {
    forall i, j | 0 <= i < j < |os| :: Priority(os[i].kind) <= Priority(os[j].kind)
  }

  /** The overrides of one priority, in their order. */
  function OfPriority(os: seq<Override>, p: nat): seq<Override> {
    if os == [] then []
    else
      var front, last := OfPriority(os[..|os| - 1], p), os[|os| - 1];
      if Priority(last.kind) == p then front + [last] else front
  }

  lemma OfPriorityAppend(os: seq<Override>, o: Override, p: nat)
    ensures OfPriority(os + [o], p) == if Priority(o.kind) == p then OfPriority(os, p) + [o] else OfPriority(os, p)
  {
    assert (os + [o])[..|os|] == os;
  }

  /** No override of the list comes after this one. */
  ghost predicate UpTo(os: seq<Override>, o: Override) {
    forall x | x in os :: Priority(x.kind) <= Priority(o.kind)
  }

  lemma SortedAppend(os: seq<Override>, o: Override)
    ensures SortedByPriority(os + [o]) <==> SortedByPriority(os) && UpTo(os, o)
  {
    hide Priority;
    var all := os + [o];
    if SortedByPriority(all) {
      forall i, j | 0 <= i < j < |os| ensures Priority(os[i].kind) <= Priority(os[j].kind) {
        assert Priority(all[i].kind) <= Priority(all[j].kind);
      }
      forall x | x in os ensures Priority(x.kind) <= Priority(o.kind) {
        var i :| 0 <= i < |os| && os[i] == x;
        assert Priority(all[i].kind) <= Priority(all[|os|].kind);
      }
    }
  }

  lemma UpToLast(front: seq<Override>, last: Override, o: Override)
    requires UpTo(front, last) && Priority(last.kind) <= Priority(o.kind)
    ensures UpTo(front + [last], o)
  {
    hide Priority;
  }

  lemma UpToInserted(inserted: seq<Override>, front: seq<Override>, o: Override, last: Override)
    requires multiset(inserted) == multiset(front) + multiset{o}
    requires UpTo(front, last) && Priority(o.kind) <= Priority(last.kind)
    ensures UpTo(inserted, last)
  {
    hide Priority;
    forall x | x in inserted ensures Priority(x.kind) <= Priority(last.kind) {
      assert x in multiset(inserted);
      assert x == o || x in multiset(front);
    }
  }

  lemma {:induction false} InsertIsSorted(sorted: seq<Override>, o: Override)
    requires SortedByPriority(sorted)
    ensures SortedByPriority(InsertByPriority(sorted, o))
    ensures multiset(InsertByPriority(sorted, o)) == multiset(sorted) + multiset{o}
  {
    hide SortedByPriority, UpTo, Priority;
    if sorted == [] {
      SortedOne(o);
    } else {
      var front, last := sorted[..|sorted| - 1], sorted[|sorted| - 1];
      assert sorted == front + [last];
      SortedAppend(front, last);
      if Priority(last.kind) <= Priority(o.kind) {
        UpToLast(front, last, o);
        SortedAppend(sorted, o);
      } else {
        InsertIsSorted(front, o);
        UpToInserted(InsertByPriority(front, o), front, o, last);
        SortedAppend(InsertByPriority(front, o), last);
      }
    }
  }

  lemma SortedOne(o: Override)
    ensures SortedByPriority([o])
  {
  }

  lemma {:induction false} InsertIsStable(sorted: seq<Override>, o: Override, p: nat)
    ensures OfPriority(InsertByPriority(sorted, o), p) == OfPriority(sorted + [o], p)
  {
    if sorted == [] {
      assert [] + [o] == [o];
    } else {
      var front, last := sorted[..|sorted| - 1], sorted[|sorted| - 1];
      assert sorted == front + [last];
      InsertIsStable(front, o, p);
      var inserted := InsertByPriority(front, o);
      assert InsertByPriority(sorted, o)
          == if Priority(last.kind) <= Priority(o.kind) then sorted + [o] else inserted + [last];
      hide OfPriority, InsertByPriority, Priority;
      OfPriorityAppend(inserted, last, p);
      OfPriorityAppend(front, o, p);
      OfPriorityAppend(front, last, p);
      OfPriorityAppend(sorted, o, p);
    }
  }

  /** Sorting permutes the list into priority order and keeps the order within one priority. */
  lemma {:induction false} SortIsStable(os: seq<Override>, p: nat)
    ensures SortedByPriority(SortByPriority(os)) && multiset(SortByPriority(os)) == multiset(os)
    ensures OfPriority(SortByPriority(os), p) == OfPriority(os, p)
  {
    if os != [] {
      var front, last := os[..|os| - 1], os[|os| - 1];
      assert os == front + [last];
      SortIsStable(front, p);
      InsertIsSorted(SortByPriority(front), last);
      InsertIsStable(SortByPriority(front), last, p);
      OfPriorityAppend(SortByPriority(front), last, p);
      OfPriorityAppend(front, last, p);
    }
  }

  // ---- the order of the overrides ----

  /** Two overrides that change different things commute. */
  ghost predicate SameSlot(a: PlanStep, b: PlanStep) {
    match (a, b)
    case (DropTool(m), DropTool(n)) => m == n
    case (DescribeTool(m, _), DescribeTool(n, _)) => m == n
    case (DropPart(i), DropPart(j)) => i == j
    case (RewritePart(i, _), RewritePart(j, _)) => i == j
    case (LimitResult(i, _), LimitResult(j, _)) => i == j
    case (DropBlock(i, j), DropBlock(m, n)) => i == m && j == n
    case (RewriteBlock(i, j, _), RewriteBlock(m, n, _)) => i == m && j == n
    case (Sample(f, _), Sample(g, _)) => f == g
    case _ => false
  }

  lemma SetAddCommutes<T>(s: set<T>, x: T, y: T)
    ensures s + {x} + {y} == s + {y} + {x}
  {
  }

  lemma MapPutCommutes<K, V>(m: map<K, V>, k: K, v: V, l: K, w: V)
    requires k != l
    ensures m[k := v][l := w] == m[l := w][k := v]
  {
  }

  lemma BlockStepsCommute(p: BlockPlan, a: PlanStep, b: PlanStep)
    requires !SameSlot(a, b)
    ensures ExtendBlocks(ExtendBlocks(p, a), b) == ExtendBlocks(ExtendBlocks(p, b), a)
  {
    match (a, b) {
      case (DropBlock(i, j), DropBlock(m, n)) => SetAddCommutes(p.off, (i, j), (m, n));
      case (RewriteBlock(i, j, t), RewriteBlock(m, n, u)) => MapPutCommutes(p.text, (i, j), t, (m, n), u);
      case (LimitResult(i, m), LimitResult(j, n)) =>
        MapPutCommutes(p.limits, i, LimitsFor(p.limits, i) + [m], j, LimitsFor(p.limits, j) + [n]);
      case _ =>
    }
  }

  lemma StepsCommute(p: Plan, a: PlanStep, b: PlanStep)
    requires !SameSlot(a, b)
    ensures Extend(Extend(p, a), b) == Extend(Extend(p, b), a)
  {
    BlockStepsCommute(p.blocks, a, b);
    match (a, b) {
      case (DropTool(m), DropTool(n)) => SetAddCommutes(p.toolOff, m, n);
      case (DescribeTool(m, t), DescribeTool(n, u)) => MapPutCommutes(p.toolText, m, t, n, u);
      case (DropPart(m), DropPart(n)) => SetAddCommutes(p.partOff, m, n);
      case (RewritePart(m, t), RewritePart(n, u)) => MapPutCommutes(p.partText, m, t, n, u);
      case (Sample(m, t), Sample(n, u)) => MapPutCommutes(p.sampling, m, t, n, u);
      case _ => hide ExtendBlocks;
    }
  }

  /** The kind and the target can be read off the meaning. */
  ghost predicate Tells(step: PlanStep, o: Override) {
    match step
    case DropTool(n) => o.kind == ToolToggle && o.target == ToolTarget(n)
    case DescribeTool(n, _) => o.kind == ToolDescription && o.target == ToolTarget(n)
    case DropPart(i) => o.kind == SystemPartToggle && o.target == SystemTarget(i)
    case RewritePart(i, _) => o.kind == SystemPartText && o.target == SystemTarget(i)
    case LimitResult(n, _) => o.kind == TruncateToolResult && o.target == ToolResultTarget(n)
    case DropBlock(m, b) => o.kind == MessageBlockToggle && o.target == MessageBlockTarget(m, b)
    case RewriteBlock(m, b, _) => o.kind == MessageText && o.target == MessageBlockTarget(m, b)
    case Sample(n, _) => o.kind == SamplingSet && o.target == SamplingTarget(n)
    case SetExtra(n, _) => o.kind == ProviderExtrasSet && o.target == ProviderExtrasTarget(n)
    case Skip => true
  }

  lemma MeaningTells(loads: Loads, o: Override)
    ensures Tells(Meaning(loads, o), o)
  {
    hide ParsePrefixed, ParsePrefixedInt, ParseMessageTarget, ParseToolName, ParseSystemIndex, ParseToolResultId,
         ParseSamplingField, ParseProviderExtrasKey, ToolTarget, SystemTarget, ToolResultTarget, SamplingTarget,
         ProviderExtrasTarget, MessageBlockTarget, SamplingValueValid;
    match Meaning(loads, o) {
      case DropTool(n) => NameTargetsAreExact(o.target, n);
      case DescribeTool(n, _) => NameTargetsAreExact(o.target, n);
      case DropPart(i) => SystemTargetIsExact(o.target, i);
      case RewritePart(i, _) => SystemTargetIsExact(o.target, i);
      case LimitResult(n, _) => NameTargetsAreExact(o.target, n);
      case DropBlock(m, b) => MessageTargetIsExact(o.target, m, b);
      case RewriteBlock(m, b, _) => MessageTargetIsExact(o.target, m, b);
      case Sample(n, _) => NameTargetsAreExact(o.target, n);
      case SetExtra(n, _) => NameTargetsAreExact(o.target, n);
      case Skip =>
    }
  }

  /** Different keys name different slots, because targets parse injectively. */
  lemma KeysAreSlots(loads: Loads, a: Override, b: Override)
    requires !SameKey(a, b)
    ensures !SameSlot(Meaning(loads, a), Meaning(loads, b))
  {
    hide Meaning, ToolTarget, SystemTarget, ToolResultTarget, SamplingTarget, ProviderExtrasTarget, MessageBlockTarget;
    MeaningTells(loads, a);
    MeaningTells(loads, b);
  }

  lemma PlanAppend(loads: Loads, os: seq<Override>, o: Override, extras: Fields)
    ensures PlanOf(loads, os + [o]) == Extend(PlanOf(loads, os), Meaning(loads, o))
    ensures ExtrasOf(loads, os + [o], extras) == ExtendExtras(ExtrasOf(loads, os, extras), Meaning(loads, o))
  {
    assert (os + [o])[..|os|] == os;
  }

  lemma {:induction false} InsertionExtendsThePlan(loads: Loads, sorted: seq<Override>, o: Override, extras: Fields)
    ensures PlanOf(loads, InsertByPriority(sorted, o)) == Extend(PlanOf(loads, sorted), Meaning(loads, o))
    ensures ExtrasOf(loads, InsertByPriority(sorted, o), extras)
         == ExtendExtras(ExtrasOf(loads, sorted, extras), Meaning(loads, o))
  {
    if sorted == [] {
      PlanAppend(loads, [], o, extras);
      assert [] + [o] == [o];
    } else {
      var front, last := sorted[..|sorted| - 1], sorted[|sorted| - 1];
      assert sorted == front + [last];
      if Priority(last.kind) <= Priority(o.kind) {
        PlanAppend(loads, sorted, o, extras);
      } else {
        InsertionExtendsThePlan(loads, front, o, extras);
        PlanAppend(loads, InsertByPriority(front, o), last, extras);
        PlanAppend(loads, front, last, extras);
        KeysAreSlots(loads, o, last);
        StepsCommute(PlanOf(loads, front), Meaning(loads, o), Meaning(loads, last));
        OnlyExtrasEditExtras(loads, o, last);
      }
    }
  }

  lemma OnlyExtrasEditExtras(loads: Loads, a: Override, b: Override)
    requires a.kind != b.kind
    ensures !(Meaning(loads, a).SetExtra? && Meaning(loads, b).SetExtra?)
  {
  }

  /** Sorting by priority does not change what the list asks for. */
  lemma {:induction false} SortingKeepsThePlan(loads: Loads, os: seq<Override>, extras: Fields)
    ensures PlanOf(loads, SortByPriority(os)) == PlanOf(loads, os)
    ensures ExtrasOf(loads, SortByPriority(os), extras) == ExtrasOf(loads, os, extras)
  {
    if os != [] {
      SortingKeepsThePlan(loads, os[..|os| - 1], extras);
      InsertionExtendsThePlan(loads, SortByPriority(os[..|os| - 1]), os[|os| - 1], extras);
    }
  }

  /** Moving one override to the end of a list of differently keyed ones. */
  lemma {:induction false} MoveToEnd(loads: Loads, os: seq<Override>, i: nat)
    requires UniqueKeys(os) && i < |os|
    ensures PlanOf(loads, os) == PlanOf(loads, Without(os, i) + [os[i]])
  {
    var last := |os| - 1;
    if i == last {
      assert Without(os, i) + [os[i]] == os;
    } else {
      var front := os[..last];
      var rest := Without(front, i);
      MoveToEnd(loads, front, i);
      assert os == front + [os[last]] && Without(os, i) == rest + [os[last]];
      PlanAppend(loads, front, os[last], map[]);
      PlanAppend(loads, rest, os[i], map[]);
      PlanAppend(loads, rest, os[last], map[]);
      PlanAppend(loads, rest + [os[last]], os[i], map[]);
      KeysAreSlots(loads, os[i], os[last]);
      StepsCommute(PlanOf(loads, rest), Meaning(loads, os[i]), Meaning(loads, os[last]));
    }
    hide PlanOf, Extend, Meaning, SameKey;
  }

  lemma WithoutIsLess<T>(a: seq<T>, x: T, b: seq<T>, i: nat)
    requires i < |b| && b[i] == x && multiset(a + [x]) == multiset(b)
    ensures multiset(Without(b, i)) == multiset(a)
  {
    assert b == b[..i] + [x] + b[i + 1..];
    assert multiset(b) == multiset(Without(b, i)) + multiset{x};
    var m, n := multiset(Without(b, i)), multiset(a);
    assert multiset(a + [x]) == n + multiset{x};
    assert m == m + multiset{x} - multiset{x} && n == n + multiset{x} - multiset{x};
  }

  /** Permuting a store's overrides does not change the plan. */
  lemma {:induction false} PermutedPlan(loads: Loads, a: seq<Override>, b: seq<Override>)
    requires UniqueKeys(a) && UniqueKeys(b) && multiset(a) == multiset(b)
    ensures PlanOf(loads, a) == PlanOf(loads, b)
    decreases |a|
  {
    hide PlanOf, Extend, Meaning, SameKey;
    assert |multiset(a)| == |a| && |multiset(b)| == |b|;
    if a != [] {
      var front, x := a[..|a| - 1], a[|a| - 1];
      assert a == front + [x];
      assert x in multiset(b);
      var i :| 0 <= i < |b| && b[i] == x;
      var rest := Without(b, i);
      WithoutIsLess(front, x, b, i);
      MoveToEnd(loads, b, i);
      PermutedPlan(loads, front, rest);
      PlanAppend(loads, front, x, map[]);
      PlanAppend(loads, rest, x, map[]);
    } else {
      assert b == [];
    }
  }

  lemma {:induction false} UniqueKeysPermute(a: seq<Override>, b: seq<Override>)
    requires UniqueKeys(a) && multiset(a) == multiset(b)
    ensures UniqueKeys(b)
    decreases |a|
  {
    hide SameKey;
    assert |multiset(a)| == |a| && |multiset(b)| == |b|;
    if a != [] {
      var front, x := a[..|a| - 1], a[|a| - 1];
      assert a == front + [x];
      assert x in multiset(b);
      var i :| 0 <= i < |b| && b[i] == x;
      var rest := Without(b, i);
      WithoutIsLess(front, x, b, i);
      UniqueKeysPermute(front, rest);
      forall j | 0 <= j < |rest| ensures !SameKey(rest[j], x) && !SameKey(x, rest[j]) {
        assert rest[j] in multiset(front);
        var k :| 0 <= k < |front| && front[k] == rest[j];
        SameKeySymmetric(x, rest[j]);
      }
      UniqueKeysInsert(b, i);
    }
  }

  lemma SameKeySymmetric(a: Override, b: Override)
    ensures SameKey(a, b) <==> SameKey(b, a)
  {
  }

  lemma UniqueKeysInsert(b: seq<Override>, i: nat)
    requires i < |b| && UniqueKeys(Without(b, i))
    requires forall j | 0 <= j < |b| - 1 :: !SameKey(Without(b, i)[j], b[i]) && !SameKey(b[i], Without(b, i)[j])
    ensures UniqueKeys(b)
  {
    hide SameKey;
    var rest := Without(b, i);
    forall j | 0 <= j < |b| && j != i ensures b[j] == rest[if j < i then j else j - 1] {}
    forall j, k | 0 <= j < k < |b| ensures !SameKey(b[j], b[k]) {
      if j != i && k != i {
        assert !SameKey(rest[if j < i then j else j - 1], rest[if k < i then k else k - 1]);
      }
    }
  }
}
