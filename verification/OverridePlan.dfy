/** The declarative reading of a list of overrides: a plan that names positions of the
    original request, and the one-shot edit of the original under that plan. */
module OverridePlan {
  import opened Options
  import opened JsonValues
  import opened Ir
  import opened OverrideTypes
  import opened OverrideTargets
  import opened OverrideOpsMessages
  import opened OverrideOpsMetadata
  import opened Sanitize

  /** What one override asks for, in terms of the original request. */
  datatype PlanStep =
    | Skip
    | DropTool(name: string)
    | DescribeTool(name: string, text: string)
    | DropPart(index: int)
    | RewritePart(index: int, text: string)
    | LimitResult(id: string, limit: nat)
    | DropBlock(msg: int, blk: int)
    | RewriteBlock(msg: int, blk: int, text: string)
    | Sample(field: string, v: Json)
    | SetExtra(key: string, v: Json)

  function Meaning(loads: Loads, o: Override): PlanStep {
    match o.kind
    case ToolToggle =>
      (match ParseToolName(o.target)
       case Some(name) => if o.value == BoolV(false) then DropTool(name) else Skip
       case None => Skip)
    case ToolDescription =>
      (match ParseToolName(o.target)
       case Some(name) => if o.value.StrV? then DescribeTool(name, o.value.s) else Skip
       case None => Skip)
    case SystemPartToggle =>
      (match ParseSystemIndex(o.target)
       case Some(index) => if o.value == BoolV(false) then DropPart(index) else Skip
       case None => Skip)
    case SystemPartText =>
      (match ParseSystemIndex(o.target)
       case Some(index) => if o.value.StrV? then RewritePart(index, o.value.s) else Skip
       case None => Skip)
    case TruncateToolResult =>
      (match (ParseToolResultId(o.target), AsInt(o.value))
       case (Some(id), Some(limit)) => if limit > 0 then LimitResult(id, limit) else Skip
       case _ => Skip)
    case MessageBlockToggle =>
      (match ParseMessageTarget(o.target)
       case Some((msg, blk)) => if o.value == BoolV(false) then DropBlock(msg, blk) else Skip
       case None => Skip)
    case MessageText =>
      (match ParseMessageTarget(o.target)
       case Some((msg, blk)) => if o.value.StrV? then RewriteBlock(msg, blk, o.value.s) else Skip
       case None => Skip)
    case SamplingSet =>
      (match ParseSamplingField(o.target)
       case Some(field) =>
         if !o.value.StrV? then Skip else
         (match loads(o.value.s)
          case Some(v) => if SamplingValueValid(field, v) then Sample(field, v) else Skip
          case None => Skip)
       case None => Skip)
    case ProviderExtrasSet =>
      (match ParseProviderExtrasKey(o.target)
       case Some(key) =>
         if !o.value.StrV? then Skip else
         (match loads(o.value.s)
          case Some(v) => SetExtra(key, v)
          case None => Skip)
       case None => Skip)
  }

  /** What the overrides ask of the message blocks. */
  datatype BlockPlan = BlockPlan(
    limits: map<string, seq<nat>>, off: set<(int, int)>, text: map<(int, int), string>)

  /** Everything a list of overrides asks for, except the provider extras. */
  datatype Plan = Plan(
    toolOff: set<string>, toolText: map<string, string>,
    partOff: set<int>, partText: map<int, string>,
    blocks: BlockPlan, sampling: map<string, Json>)

  const EMPTY_PLAN := Plan({}, map[], {}, map[], BlockPlan(map[], {}, map[]), map[])

  function LimitsFor(limits: map<string, seq<nat>>, id: string): seq<nat> {
    if id in limits then limits[id] else []
  }

  function ExtendBlocks(p: BlockPlan, step: PlanStep): BlockPlan {
    match step
    case LimitResult(id, limit) => p.(limits := p.limits[id := LimitsFor(p.limits, id) + [limit]])
    case DropBlock(msg, blk) => p.(off := p.off + {(msg, blk)})
    case RewriteBlock(msg, blk, text) => p.(text := p.text[(msg, blk) := text])
    case _ => p
  }

  function Extend(p: Plan, step: PlanStep): Plan {
    match step
    case DropTool(name) => p.(toolOff := p.toolOff + {name})
    case DescribeTool(name, text) => p.(toolText := p.toolText[name := text])
    case DropPart(index) => p.(partOff := p.partOff + {index})
    case RewritePart(index, text) => p.(partText := p.partText[index := text])
    case Sample(field, v) => p.(sampling := p.sampling[field := v])
    case _ => p.(blocks := ExtendBlocks(p.blocks, step))
  }

  function PlanOf(loads: Loads, os: seq<Override>): Plan {
    if os == [] then EMPTY_PLAN
    else Extend(PlanOf(loads, os[..|os| - 1]), Meaning(loads, os[|os| - 1]))
  }

  function ExtendExtras(extras: Fields, step: PlanStep): Fields {
    if step.SetExtra? then
      match EditExtras(extras, step.key, step.v)
      case Some(extras') => extras'
      case None => extras
    else extras
  }

  /** Edits of related nested paths need not commute, so the provider extras are edited in order. */
  function ExtrasOf(loads: Loads, os: seq<Override>, extras: Fields): Fields {
    if os == [] then extras
    else ExtendExtras(ExtrasOf(loads, os[..|os| - 1], extras), Meaning(loads, os[|os| - 1]))
  }

  // ---- the one-shot edit ----

  function RewriteParts(system: seq<SystemPart>, text: map<int, string>): seq<SystemPart> {
    seq(|system|, i requires 0 <= i < |system| =>
      if i in text then system[i].(text := text[i]) else system[i])
  }

  function EditSystem(system: seq<SystemPart>, off: set<int>, text: map<int, string>): seq<SystemPart> {
    Keep(RewriteParts(system, text), off)
  }

  function TruncateSeq(b: Block, id: string, limits: seq<nat>): (r: Block)
    ensures r.ToolResultBlock? == b.ToolResultBlock?
    ensures b.ToolResultBlock? ==> r.toolUseId == b.toolUseId
    ensures !b.ToolResultBlock? ==> r == b
  {
    if limits == [] then b
    else TruncateBlock(TruncateSeq(b, id, limits[..|limits| - 1]), id, limits[|limits| - 1])
  }

  function EditBlock(p: BlockPlan, msg: int, blk: int, role: string, b: Block): Block {
    if b.TextBlock? && (msg, blk) in p.text then WithText(b, p.text[(msg, blk)])
    else if b.ToolResultBlock? && role == "user" then
      TruncateSeq(b, b.toolUseId, LimitsFor(p.limits, b.toolUseId))
    else b
  }

  function RewriteContent(p: BlockPlan, msg: int, m: Message): seq<Block> {
    seq(|m.content|, b requires 0 <= b < |m.content| => EditBlock(p, msg, b, m.role, m.content[b]))
  }

  /** The removed positions within one message. */
  function OffIn(off: set<(int, int)>, msg: int): set<int> {
    set pair | pair in off && pair.0 == msg :: pair.1
  }

  function EditMessage(p: BlockPlan, msg: int, m: Message): Message {
    m.(content := Keep(RewriteContent(p, msg, m), OffIn(p.off, msg)))
  }

  function EditMessages(messages: seq<Message>, p: BlockPlan): (edited: seq<Message>)
    ensures |edited| == |messages|
  {
    seq(|messages|, i requires 0 <= i < |messages| => EditMessage(p, i, messages[i]))
  }

  /** The value planned for a sampling field, if there is a valid one. */
  function Sampled(sampling: map<string, Json>, field: string): Option<Json> {
    if field in sampling && SamplingValueValid(field, sampling[field]) then Some(sampling[field]) else None
  }

  function EditSampling(s: Sampling, sampling: map<string, Json>): Sampling {
    Sampling(
      match Sampled(sampling, "max_tokens") case Some(v) => v.n case None => s.maxTokens,
      match Sampled(sampling, "temperature") case Some(v) => v case None => s.temperature,
      match Sampled(sampling, "top_p") case Some(v) => v case None => s.topP,
      match Sampled(sampling, "top_k") case Some(v) => v case None => s.topK,
      match Sampled(sampling, "stop_sequences")
      case Some(v) => SetSampling(s, "stop_sequences", v).stopSequences
      case None => s.stopSequences)
  }

  /** Drop the toggled-off positions and tools; rewrite texts, descriptions and tool
      results at their original positions. */
  function Edit(ir: Request, p: Plan): Request {
    ir.(system := EditSystem(ir.system, p.partOff, p.partText),
        tools := EditTools(ir.tools, p.toolOff, p.toolText),
        messages := EditMessages(ir.messages, p.blocks),
        sampling := EditSampling(ir.sampling, p.sampling))
  }

  predicate PreservesResults(ir: Request) {
    ir.provider == "codex" && ResultIds(ir.messages) != {} && UseIds(ir.messages) == {}
  }

  /** The whole pipeline as one declarative edit of the original request. */
  function OneShot(loads: Loads, os: seq<Override>, ir: Request): Request {
    var edited := Edit(ir, PlanOf(loads, os));
    edited.(providerExtras := ExtrasOf(loads, os, ir.providerExtras),
            messages := Sanitized(edited.messages, PreservesResults(ir)))
  }

  // ---- extending the plan is editing the edited request ----

  lemma EmptyPlanEditsNothing(ir: Request)
    ensures Edit(ir, EMPTY_PLAN) == ir
  {
    KeepAll(RewriteParts(ir.system, map[]));
    NoToolEdits(ir.tools);
    assert RewriteParts(ir.system, map[]) == ir.system;
    forall i | 0 <= i < |ir.messages| ensures EditMessage(EMPTY_PLAN.blocks, i, ir.messages[i]) == ir.messages[i] {
      assert OffIn({}, i) == {};
      KeepAll(RewriteContent(EMPTY_PLAN.blocks, i, ir.messages[i]));
      assert RewriteContent(EMPTY_PLAN.blocks, i, ir.messages[i]) == ir.messages[i].content;
    }
    assert EditMessages(ir.messages, EMPTY_PLAN.blocks) == ir.messages;
  }

  lemma {:induction false} KeepAll<T>(xs: seq<T>)
    ensures Keep(xs, {}) == xs
  {
    if xs != [] { KeepAll(xs[..|xs| - 1]); }
  }

  lemma {:induction false} NoToolEdits(tools: seq<ToolDef>)
    ensures EditTools(tools, {}, map[]) == tools
  {
    if tools != [] { NoToolEdits(tools[..|tools| - 1]); }
  }

  lemma {:induction false} ToolEditsCompose(
      tools: seq<ToolDef>, off: set<string>, text: map<string, string>, off': set<string>, text': map<string, string>)
    ensures EditTools(EditTools(tools, off, text), off', text') == EditTools(tools, off + off', text + text')
  {
    if tools != [] {
      var front, tool := tools[..|tools| - 1], tools[|tools| - 1];
      assert tools == front + [tool];
      hide EditTools;
      ToolEditsCompose(front, off, text, off', text');
      EditToolsAppend(front, tool, off, text);
      EditToolsAppend(front, tool, off + off', text + text');
      EditToolsAppend(EditTools(front, off, text), Described(tool, text), off', text');
    }
  }

  lemma RewritePartsUpdate(system: seq<SystemPart>, text: map<int, string>, i: int, t: string)
    ensures 0 <= i < |system| ==>
      RewriteParts(system, text[i := t]) == RewriteParts(system, text)[i := RewriteParts(system, text)[i].(text := t)]
    ensures !(0 <= i < |system|) ==> RewriteParts(system, text[i := t]) == RewriteParts(system, text)
  {
  }

  lemma {:induction false} KeepIgnoresDropped<T>(xs: seq<T>, off: set<int>, i: nat, x: T)
    requires i < |xs| && i in off
    ensures Keep(xs[i := x], off) == Keep(xs, off)
  {
    var last := |xs| - 1;
    assert xs[i := x][..last] == if i == last then xs[..last] else xs[..last][i := x];
    if i != last { KeepIgnoresDropped(xs[..last], off, i, x); }
  }

  lemma {:induction false} KeepTruncate(content: seq<Block>, off: set<int>, id: string, limit: nat)
    ensures TruncateContent(Keep(content, off), id, limit) == Keep(TruncateContent(content, id, limit), off)
  {
    if content != [] {
      var last := |content| - 1;
      KeepTruncate(content[..last], off, id, limit);
      assert TruncateContent(content, id, limit)[..last] == TruncateContent(content[..last], id, limit);
    }
  }

  lemma TruncateEdited(p: BlockPlan, msg: int, m: Message, id: string, limit: nat)
    ensures TruncateMessage(EditMessage(p, msg, m), id, limit)
        == EditMessage(ExtendBlocks(p, LimitResult(id, limit)), msg, m)
  {
    var p' := ExtendBlocks(p, LimitResult(id, limit));
    var before, after := RewriteContent(p, msg, m), RewriteContent(p', msg, m);
    if m.role == "user" {
      forall b | 0 <= b < |m.content| ensures TruncateBlock(before[b], id, limit) == after[b] {}
      assert TruncateContent(before, id, limit) == after;
      KeepTruncate(before, OffIn(p.off, msg), id, limit);
    } else {
      assert before == after;
    }
  }

  lemma TruncateEditedMessages(messages: seq<Message>, p: BlockPlan, id: string, limit: nat)
    ensures TruncateMessages(EditMessages(messages, p), id, limit)
        == EditMessages(messages, ExtendBlocks(p, LimitResult(id, limit)))
  {
    forall i | 0 <= i < |messages| ensures
      TruncateMessage(EditMessage(p, i, messages[i]), id, limit)
        == EditMessage(ExtendBlocks(p, LimitResult(id, limit)), i, messages[i])
    {
      TruncateEdited(p, i, messages[i], id, limit);
    }
  }

  /** Dropping one more block of one message. */
  lemma DropBlockEdits(messages: seq<Message>, p: BlockPlan, msg: int, blk: int)
    ensures var after := EditMessages(messages, ExtendBlocks(p, DropBlock(msg, blk)));
            && (forall i | 0 <= i < |messages| && i != msg :: after[i] == EditMessages(messages, p)[i])
            && (0 <= msg < |messages| ==>
                  after[msg].content == Keep(RewriteContent(p, msg, messages[msg]), OffIn(p.off, msg) + {blk}))
  {
    var p' := ExtendBlocks(p, DropBlock(msg, blk));
    forall i | 0 <= i < |messages| ensures RewriteContent(p', i, messages[i]) == RewriteContent(p, i, messages[i]) {}
    forall i: int ensures OffIn(p'.off, i) == if i == msg then OffIn(p.off, i) + {blk} else OffIn(p.off, i) {
      assert forall b :: b in OffIn(p.off, i) <==> (i, b) in p.off;
    }
  }

  /** Rewriting one more block of one message. */
  lemma RewriteBlockEdits(messages: seq<Message>, p: BlockPlan, msg: int, blk: int, text: string)
    ensures var p' := ExtendBlocks(p, RewriteBlock(msg, blk, text));
            && (forall i | 0 <= i < |messages| && i != msg ::
                  EditMessages(messages, p')[i] == EditMessages(messages, p)[i])
            && (0 <= msg < |messages| ==>
                  var before := RewriteContent(p, msg, messages[msg]);
                  RewriteContent(p', msg, messages[msg])
                    == if 0 <= blk < |before| && before[blk].TextBlock? then before[blk := WithText(before[blk], text)]
                       else before)
  {
    var p' := ExtendBlocks(p, RewriteBlock(msg, blk, text));
    forall i | 0 <= i < |messages| && i != msg
      ensures RewriteContent(p', i, messages[i]) == RewriteContent(p, i, messages[i]) {}
    if 0 <= msg < |messages| {
      var before, after := RewriteContent(p, msg, messages[msg]), RewriteContent(p', msg, messages[msg]);
      forall b | 0 <= b < |before| && b != blk ensures after[b] == before[b] {}
    }
  }

  lemma SampleEdits(s: Sampling, sampling: map<string, Json>, field: string, v: Json)
    requires SamplingValueValid(field, v)
    ensures EditSampling(s, sampling[field := v]) == SetSampling(EditSampling(s, sampling), field, v)
  {
  }

  /** What dropping or rewriting a system part means for the shrunk list. */
  lemma PartEdits(system: seq<SystemPart>, off: set<int>, texts: map<int, string>, i: int, text: string)
    ensures var now := EditSystem(system, off, texts);
            var a := ShiftAfterRemovals(i, InRange(off, |system|));
            if 0 <= i < |system| && i !in off then
              && 0 <= a < |now|
              && EditSystem(system, off + {i}, texts) == Without(now, a)
              && EditSystem(system, off, texts[i := text]) == now[a := now[a].(text := text)]
            else
              && (!(0 <= i < |system|) ==> !(0 <= a < |now|))
              && EditSystem(system, off + {i}, texts) == now
              && EditSystem(system, off, texts[i := text]) == now
  {
    var parts := RewriteParts(system, texts);
    RewritePartsUpdate(system, texts, i, text);
    if !(0 <= i < |system|) {
      ShiftStaysOutside(parts, off, i);
      assert InRange(off + {i}, |parts|) == InRange(off, |parts|);
      KeepOnlyLooksInside(parts, off, off + {i});
    } else if i in off {
      assert off + {i} == off;
      KeepIgnoresDropped(parts, off, i, parts[i].(text := text));
    } else {
      EditAtShiftedPlace(parts, off, i, parts[i].(text := text));
    }
  }

  /** Dropping a block that is there: the shrunk message loses the shifted place. */
  lemma DropBlockHits(messages: seq<Message>, p: BlockPlan, msg: int, blk: int)
    requires HasBlock(messages, msg, blk) && (msg, blk) !in p.off
    ensures var now := EditMessages(messages, p);
            var a := ShiftAfterRemovals(blk, InRange(OffIn(p.off, msg), |messages[msg].content|));
            && HasBlock(now, msg, a)
            && EditMessages(messages, ExtendBlocks(p, DropBlock(msg, blk)))
                 == WithContent(now, msg, Without(now[msg].content, a))
  {
    DropBlockEdits(messages, p, msg, blk);
    var blocks, off := RewriteContent(p, msg, messages[msg]), OffIn(p.off, msg);
    assert blk !in off;
    EditAtShiftedPlace(blocks, off, blk, blocks[blk]);
  }

  /** Rewriting a block that is there: the shrunk message changes at the shifted place. */
  lemma RewriteBlockHits(messages: seq<Message>, p: BlockPlan, msg: int, blk: int, text: string)
    requires HasBlock(messages, msg, blk) && (msg, blk) !in p.off
    ensures var now := EditMessages(messages, p);
            var a := ShiftAfterRemovals(blk, InRange(OffIn(p.off, msg), |messages[msg].content|));
            && HasBlock(now, msg, a)
            && (now[msg].content[a].TextBlock? <==> messages[msg].content[blk].TextBlock?)
            && EditMessages(messages, ExtendBlocks(p, RewriteBlock(msg, blk, text)))
                 == if now[msg].content[a].TextBlock?
                    then WithContent(now, msg, now[msg].content[a := WithText(now[msg].content[a], text)])
                    else now
  {
    RewriteBlockEdits(messages, p, msg, blk, text);
    var blocks, off := RewriteContent(p, msg, messages[msg]), OffIn(p.off, msg);
    assert blk !in off;
    EditAtShiftedPlace(blocks, off, blk, if blocks[blk].TextBlock? then WithText(blocks[blk], text) else blocks[blk]);
  }

  /** A block that is not there, or already dropped, is neither dropped nor rewritten. */
  lemma BlockMissed(messages: seq<Message>, p: BlockPlan, msg: int, blk: int, text: string)
    requires !HasBlock(messages, msg, blk) || (msg, blk) in p.off
    ensures var now := EditMessages(messages, p);
            && EditMessages(messages, ExtendBlocks(p, DropBlock(msg, blk))) == now
            && EditMessages(messages, ExtendBlocks(p, RewriteBlock(msg, blk, text))) == now
            && (0 <= msg < |messages| && !(0 <= blk < |messages[msg].content|) ==>
                  !HasBlock(now, msg, ShiftAfterRemovals(blk, InRange(OffIn(p.off, msg), |messages[msg].content|))))
  {
    DropBlockEdits(messages, p, msg, blk);
    RewriteBlockEdits(messages, p, msg, blk, text);
    if 0 <= msg < |messages| {
      var blocks, off := RewriteContent(p, msg, messages[msg]), OffIn(p.off, msg);
      if !(0 <= blk < |blocks|) {
        ShiftStaysOutside(blocks, off, blk);
        assert InRange(off + {blk}, |blocks|) == InRange(off, |blocks|);
        KeepOnlyLooksInside(blocks, off, off + {blk});
      } else {
        assert blk in off && off + {blk} == off;
        KeepIgnoresDropped(
          blocks, off, blk, if blocks[blk].TextBlock? then WithText(blocks[blk], text) else blocks[blk]);
      }
    }
  }
}
