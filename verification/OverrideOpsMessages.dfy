/** The content edits: each takes a request and returns an edited copy, the reported
    character delta and whether the edit applied. */
module OverrideOpsMessages {
  import opened Options
  import opened Canonicalization
  import opened Ir
  import opened OverrideAudit
  import opened OverrideTargets

  // ---- tools ----

  /** The tools that survive the names in `off`, with the rewritten descriptions. */
  function EditTools(tools: seq<ToolDef>, off: set<string>, descriptions: map<string, string>): seq<ToolDef> {
    if tools == [] then []
    else
      var front, tool := EditTools(tools[..|tools| - 1], off, descriptions), tools[|tools| - 1];
      if tool.name in off then front else front + [Described(tool, descriptions)]
  }

  lemma EditToolsAppend(tools: seq<ToolDef>, tool: ToolDef, off: set<string>, descriptions: map<string, string>)
    ensures EditTools(tools + [tool], off, descriptions)
         == if tool.name in off then EditTools(tools, off, descriptions)
            else EditTools(tools, off, descriptions) + [Described(tool, descriptions)]
  {
    assert (tools + [tool])[..|tools|] == tools;
  }

  function Described(tool: ToolDef, descriptions: map<string, string>): ToolDef {
    if tool.name in descriptions then tool.(description := descriptions[tool.name]) else tool
  }

  predicate HasTool(tools: seq<ToolDef>, name: string) { exists t | t in tools :: t.name == name }

  method ApplyToolToggle(toolChars: ToolDef -> nat, ir: Request, name: string, enabled: bool)
    returns (after: Request, delta: int, applied: bool)
    ensures enabled ==> after == ir && delta == 0 && applied
    ensures !enabled ==> after == ir.(tools := EditTools(ir.tools, {name}, map[]))
    ensures !enabled ==> (applied <==> HasTool(ir.tools, name))
    ensures delta == ToolsSize(toolChars, after.tools) - ToolsSize(toolChars, ir.tools)
  {
    if enabled { return ir, 0, true; }
    hide EditTools, ToolsSize, HasTool;
    NothingEdited(toolChars, name);
    var kept: seq<ToolDef> := [];
    var removed: int, found := 0, false;
    assert ir.tools[..0] == [];
    for i := 0 to |ir.tools|
      invariant kept == EditTools(ir.tools[..i], {name}, map[])
      invariant removed + ToolsSize(toolChars, kept) == ToolsSize(toolChars, ir.tools[..i])
      invariant found <==> HasTool(ir.tools[..i], name)
      invariant !found ==> kept == ir.tools[..i]
    {
      var tool := ir.tools[i];
      assert ir.tools[..i + 1] == ir.tools[..i] + [tool];
      OneToolMore(toolChars, ir.tools[..i], kept, tool, name);
      if tool.name == name {
        found, removed := true, removed + toolChars(tool);
      } else {
        kept := kept + [tool];
      }
    }
    assert ir.tools[..|ir.tools|] == ir.tools;
    if !found { return ir, 0, false; }
    return ir.(tools := kept), 0 - removed, true;
  }

  lemma OneToolMore(size: ToolDef -> nat, done: seq<ToolDef>, kept: seq<ToolDef>, tool: ToolDef, name: string)
    ensures EditTools(done + [tool], {name}, map[])
         == if tool.name == name then EditTools(done, {name}, map[]) else EditTools(done, {name}, map[]) + [tool]
    ensures ToolsSize(size, done + [tool]) == ToolsSize(size, done) + size(tool)
    ensures ToolsSize(size, kept + [tool]) == ToolsSize(size, kept) + size(tool)
    ensures HasTool(done + [tool], name) <==> HasTool(done, name) || tool.name == name
  {
    hide EditTools, ToolsSize, HasTool;
    EditToolsAppend(done, tool, {name}, map[]);
    ToolsSizeAppend(size, done, tool);
    ToolsSizeAppend(size, kept, tool);
    HasToolAppend(done, tool, name);
  }

  lemma NothingEdited(size: ToolDef -> nat, name: string)
    ensures EditTools([], {name}, map[]) == [] && ToolsSize(size, []) == 0 && !HasTool([], name)
  {
  }

  lemma HasToolAppend(tools: seq<ToolDef>, tool: ToolDef, name: string)
    ensures HasTool(tools + [tool], name) <==> HasTool(tools, name) || tool.name == name
  {
    if t :| t in tools && t.name == name { assert t in tools + [tool]; }
    assert tool in tools + [tool];
  }

  /** What the description edit reports: the change at the last tool of that name. */
  function DescriptionDelta(tools: seq<ToolDef>, name: string, text: string): int {
    if tools == [] then 0
    else
      var tool := tools[|tools| - 1];
      if tool.name == name then |text| - |tool.description|
      else DescriptionDelta(tools[..|tools| - 1], name, text)
  }

  method ApplyToolDescription(ir: Request, name: string, text: string)
    returns (after: Request, delta: int, applied: bool)
    ensures after == ir.(tools := EditTools(ir.tools, {}, map[name := text]))
    ensures applied <==> HasTool(ir.tools, name)
    ensures delta == DescriptionDelta(ir.tools, name, text)
  {
    hide EditTools, HasTool, DescriptionDelta;
    NothingDescribed(name, text);
    assert ir.tools[..0] == [];
    var tools: seq<ToolDef> := [];
    var found := false;
    delta := 0;
    for i := 0 to |ir.tools|
      invariant tools == EditTools(ir.tools[..i], {}, map[name := text])
      invariant found <==> HasTool(ir.tools[..i], name)
      invariant delta == DescriptionDelta(ir.tools[..i], name, text)
      invariant !found ==> tools == ir.tools[..i] && delta == 0
    {
      var tool := ir.tools[i];
      assert ir.tools[..i + 1] == ir.tools[..i] + [tool];
      OneToolDescribed(ir.tools[..i], tool, name, text);
      if tool.name == name {
        found, delta := true, |text| - |tool.description|;
        tools := tools + [tool.(description := text)];
      } else {
        tools := tools + [tool];
      }
    }
    assert ir.tools[..|ir.tools|] == ir.tools;
    if !found { return ir, 0, false; }
    return ir.(tools := tools), delta, true;
  }

  lemma OneToolDescribed(done: seq<ToolDef>, tool: ToolDef, name: string, text: string)
    ensures EditTools(done + [tool], {}, map[name := text])
         == EditTools(done, {}, map[name := text]) + [if tool.name == name then tool.(description := text) else tool]
    ensures HasTool(done + [tool], name) <==> HasTool(done, name) || tool.name == name
    ensures DescriptionDelta(done + [tool], name, text)
         == if tool.name == name then |text| - |tool.description| else DescriptionDelta(done, name, text)
  {
    hide EditTools, HasTool;
    EditToolsAppend(done, tool, {}, map[name := text]);
    HasToolAppend(done, tool, name);
    assert (done + [tool])[..|done|] == done;
  }

  lemma NothingDescribed(name: string, text: string)
    ensures EditTools([], {}, map[name := text]) == [] && DescriptionDelta([], name, text) == 0 && !HasTool([], name)
  {
  }

  function CountTools(tools: seq<ToolDef>, name: string): nat {
    if tools == [] then 0
    else CountTools(tools[..|tools| - 1], name) + if tools[|tools| - 1].name == name then 1 else 0
  }

  /** The change in tool characters that the description edit really makes. */
  ghost function DescriptionChange(size: ToolDef -> nat, tools: seq<ToolDef>, name: string, text: string): int {
    ToolsSize(size, EditTools(tools, {}, map[name := text])) - ToolsSize(size, tools)
  }

  /** The size of a tool grows and shrinks with its description. */
  ghost predicate CountsDescription(size: ToolDef -> nat) {
    forall tool: ToolDef, text: string ::
      size(tool.(description := text)) == size(tool) - |tool.description| + |text|
  }

  lemma ToolCharsCountsDescription(f: FloatText)
    ensures CountsDescription(ToolCounter(f))
  {
  }

  /** The lengths of the descriptions that the edit overwrites. */
  function OverwrittenChars(tools: seq<ToolDef>, name: string): nat {
    if tools == [] then 0
    else
      OverwrittenChars(tools[..|tools| - 1], name)
      + if tools[|tools| - 1].name == name then |tools[|tools| - 1].description| else 0
  }

  /** The lengths of the descriptions that the edit writes. */
  function WrittenChars(tools: seq<ToolDef>, name: string, text: string): nat {
    if tools == [] then 0
    else WrittenChars(tools[..|tools| - 1], name, text) + if tools[|tools| - 1].name == name then |text| else 0
  }

  lemma {:induction false} DescriptionChangeIs(size: ToolDef -> nat, tools: seq<ToolDef>, name: string, text: string)
    requires CountsDescription(size)
    ensures DescriptionChange(size, tools, name, text)
        == WrittenChars(tools, name, text) - OverwrittenChars(tools, name)
  {
    hide ToolsSize, EditTools;
    if tools == [] {
      NoTools(size, name, text);
    } else {
      var front, tool := tools[..|tools| - 1], tools[|tools| - 1];
      DescriptionChangeIs(size, front, name, text);
      assert front + [tool] == tools;
      EditToolsAppend(front, tool, {}, map[name := text]);
      ToolsSizeAppend(size, front, tool);
      ToolsSizeAppend(size, EditTools(front, {}, map[name := text]), Described(tool, map[name := text]));
    }
  }

  lemma NoTools(size: ToolDef -> nat, name: string, text: string)
    ensures ToolsSize(size, []) == 0 && EditTools([], {}, map[name := text]) == []
  {
  }

  lemma {:induction false} OneToolOneDelta(tools: seq<ToolDef>, name: string, text: string)
    requires CountTools(tools, name) <= 1
    ensures DescriptionDelta(tools, name, text) == WrittenChars(tools, name, text) - OverwrittenChars(tools, name)
  {
    if tools != [] {
      var front := tools[..|tools| - 1];
      if tools[|tools| - 1].name == name { NoToolNoChange(front, name, text); }
      else { OneToolOneDelta(front, name, text); }
    }
  }

  lemma {:induction false} NoToolNoChange(tools: seq<ToolDef>, name: string, text: string)
    ensures CountTools(tools, name) == 0 ==>
      WrittenChars(tools, name, text) == OverwrittenChars(tools, name) == DescriptionDelta(tools, name, text) == 0
    ensures CountTools(tools, name) == 0 <==> !HasTool(tools, name)
  {
    if tools != [] {
      NoToolNoChange(tools[..|tools| - 1], name, text);
      assert tools == tools[..|tools| - 1] + [tools[|tools| - 1]];
    }
  }

  lemma TwoToolsMiscount(size: ToolDef -> nat, tools: seq<ToolDef>, name: string) returns (text: string)
    requires CountsDescription(size) && CountTools(tools, name) >= 2
    ensures DescriptionDelta(tools, name, text) < DescriptionChange(size, tools, name, text)
  {
    text := seq(OverwrittenChars(tools, name) + 1, _ => 'x');
    DescriptionChangeIs(size, tools, name, text);
    DescriptionDeltaAtMost(tools, name, text);
  }

  /** The reported delta is the real change for every new text exactly when at most one
      tool has that name. */
  lemma DescriptionDeltaConserved(size: ToolDef -> nat, tools: seq<ToolDef>, name: string)
    requires CountsDescription(size)
    ensures (forall text: string :: DescriptionDelta(tools, name, text) == DescriptionChange(size, tools, name, text))
      <==> CountTools(tools, name) <= 1
  {
    if CountTools(tools, name) <= 1 {
      forall text: string ensures DescriptionDelta(tools, name, text) == DescriptionChange(size, tools, name, text) {
        DescriptionChangeIs(size, tools, name, text);
        OneToolOneDelta(tools, name, text);
      }
    } else {
      var text := TwoToolsMiscount(size, tools, name);
    }
  }

  lemma {:induction false} DescriptionDeltaAtMost(tools: seq<ToolDef>, name: string, text: string)
    ensures DescriptionDelta(tools, name, text) <= |text|
    ensures CountTools(tools, name) >= 1 ==> WrittenChars(tools, name, text) >= |text|
    ensures CountTools(tools, name) >= 2 ==> WrittenChars(tools, name, text) >= 2 * |text|
  {
    if tools != [] { DescriptionDeltaAtMost(tools[..|tools| - 1], name, text); }
  }

  // ---- system parts ----

  lemma {:induction false} SystemCharsUpdate(system: seq<SystemPart>, i: nat, part: SystemPart)
    requires i < |system|
    ensures SystemChars(system[i := part]) == SystemChars(system) - |system[i].text| + |part.text|
    ensures SystemChars(Without(system, i)) == SystemChars(system) - |system[i].text|
  {
    var last := |system| - 1;
    var without := Without(system, i);
    if i == last {
      assert system[i := part][..last] == system[..last];
      assert Without(system, i) == system[..last];
    } else {
      SystemCharsUpdate(system[..last], i, part);
      assert system[i := part][..last] == system[..last][i := part];
      assert without[..|without| - 1] == Without(system[..last], i) && without[|without| - 1] == system[last];
    }
  }

  method ApplySystemPartToggle(ir: Request, index: int, enabled: bool)
    returns (after: Request, delta: int, applied: bool)
    ensures enabled ==> after == ir && applied
    ensures !enabled ==> (applied <==> 0 <= index < |ir.system|)
    ensures !enabled && applied ==> after == ir.(system := Without(ir.system, index))
    ensures !applied ==> after == ir
    ensures delta == SystemChars(after.system) - SystemChars(ir.system)
  {
    if enabled { return ir, 0, true; }
    if index < 0 || index >= |ir.system| { return ir, 0, false; }
    var removed := ir.system[index];
    SystemCharsUpdate(ir.system, index, removed);
    return ir.(system := Without(ir.system, index)), -|removed.text|, true;
  }

  method ApplySystemPartText(ir: Request, index: int, text: string)
    returns (after: Request, delta: int, applied: bool)
    ensures applied <==> 0 <= index < |ir.system|
    ensures applied ==> after == ir.(system := ir.system[index := ir.system[index].(text := text)])
    ensures !applied ==> after == ir
    ensures delta == SystemChars(after.system) - SystemChars(ir.system)
  {
    if index < 0 || index >= |ir.system| { return ir, 0, false; }
    var part := ir.system[index].(text := text);
    SystemCharsUpdate(ir.system, index, part);
    return ir.(system := ir.system[index := part]), |text| - |ir.system[index].text|, true;
  }

  // ---- tool results ----

  predicate IsResultFor(b: Block, id: string) { b.ToolResultBlock? && b.toolUseId == id }

  predicate HasResult(content: seq<Block>, id: string) { exists b | b in content :: IsResultFor(b, id) }

  /** A user message holds a result for `id`. */
  predicate HasUserResult(messages: seq<Message>, id: string) {
    messages != [] &&
    (var last := messages[|messages| - 1];
     || (last.role == "user" && HasResult(last.content, id))
     || HasUserResult(messages[..|messages| - 1], id))
  }

  lemma JoinedTextAppend(content: seq<Block>, x: Block)
    ensures JoinedText(content + [x]) == JoinedText(content) + if x.TextBlock? then x.text else ""
    ensures JoinedText([]) == ""
  {
    assert (content + [x])[..|content + [x]| - 1] == content;
  }

  /** The joined text is made of the text blocks alone, in their order. */
  lemma {:induction false} JoinedTextMeans(a: seq<Block>, b: seq<Block>, x: Block)
    ensures JoinedText(a + b) == JoinedText(a) + JoinedText(b)
    ensures JoinedText([x]) == if x.TextBlock? then x.text else ""
  {
    hide JoinedText;
    JoinedTextAppend([], x);
    assert [] + [x] == [x];
    if b == [] {
      assert a + b == a;
    } else {
      var front, last := b[..|b| - 1], b[|b| - 1];
      JoinedTextMeans(a, front, x);
      assert b == front + [last] && a + b == (a + front) + [last];
      JoinedTextAppend(a + front, last);
      JoinedTextAppend(front, last);
    }
  }

  /** A result cut to a limit: a short one stays, a long one keeps its first characters and
      says that it was cut. */
  ghost predicate CutTo(before: Block, after: Block, limit: nat)
    requires before.ToolResultBlock?
  {
    var text := JoinedText(before.content);
    if |text| <= limit then after == before
    else
      && after.ToolResultBlock? && after.toolUseId == before.toolUseId && after.isError == before.isError
      && after.providerData == before.providerData
      && |after.content| == 1 && after.content[0].TextBlock? && after.content[0].providerData == None
      && text[..limit] <= after.content[0].text && after.content[0].text[limit..] == " [truncated]"
  }

  /** The results for one id in user messages are cut, and nothing else is changed. */
  ghost predicate ResultsCut(before: seq<Message>, after: seq<Message>, id: string, limit: nat) {
    && |after| == |before|
    && forall m | 0 <= m < |before| ::
      && after[m].role == before[m].role && after[m].providerData == before[m].providerData
      && |after[m].content| == |before[m].content|
      && forall b | 0 <= b < |before[m].content| ::
        var block := before[m].content[b];
        if before[m].role == "user" && block.ToolResultBlock? && block.toolUseId == id then
          CutTo(block, after[m].content[b], limit)
        else after[m].content[b] == block
  }

  lemma TruncationCutsResults(messages: seq<Message>, id: string, limit: nat)
    ensures ResultsCut(messages, TruncateMessages(messages, id, limit), id, limit)
  {
    hide JoinedText;
  }

  function TruncateBlock(b: Block, id: string, limit: nat): Block {
    if IsResultFor(b, id) && |JoinedText(b.content)| > limit then
      b.(content := [TextBlock(JoinedText(b.content)[..limit] + " [truncated]", None)])
    else b
  }

  function TruncateContent(content: seq<Block>, id: string, limit: nat): seq<Block> {
    seq(|content|, i requires 0 <= i < |content| => TruncateBlock(content[i], id, limit))
  }

  function TruncateMessage(m: Message, id: string, limit: nat): Message {
    if m.role == "user" then m.(content := TruncateContent(m.content, id, limit)) else m
  }

  function TruncateMessages(messages: seq<Message>, id: string, limit: nat): seq<Message> {
    seq(|messages|, i requires 0 <= i < |messages| => TruncateMessage(messages[i], id, limit))
  }

  /** Raw characters of the results for `id`. */
  function ResultChars(content: seq<Block>, id: string): nat {
    if content == [] then 0
    else
      var last := content[|content| - 1];
      ResultChars(content[..|content| - 1], id) + if IsResultFor(last, id) then |JoinedText(last.content)| else 0
  }

  function UserResultChars(messages: seq<Message>, id: string): nat {
    if messages == [] then 0
    else
      var last := messages[|messages| - 1];
      UserResultChars(messages[..|messages| - 1], id)
      + if last.role == "user" then ResultChars(last.content, id) else 0
  }

  /** The text of the last result for `id`, if any. */
  function LastResultText(content: seq<Block>, id: string): Option<string> {
    if content == [] then None
    else
      var last := content[|content| - 1];
      if IsResultFor(last, id) then Some(JoinedText(last.content))
      else LastResultText(content[..|content| - 1], id)
  }

  function LastUserResultText(messages: seq<Message>, id: string): Option<string> {
    if messages == [] then None
    else
      var last := messages[|messages| - 1];
      var here := if last.role == "user" then LastResultText(last.content, id) else None;
      if here.Some? then here else LastUserResultText(messages[..|messages| - 1], id)
  }

  /** The block is a result for the id in a user message. */
  predicate IsUserResult(messages: seq<Message>, m: nat, b: nat, id: string) {
    && m < |messages| && b < |messages[m].content| && messages[m].role == "user"
    && IsResultFor(messages[m].content[b], id)
  }

  lemma {:induction false} LastTextInContent(content: seq<Block>, id: string, b: nat)
    requires b < |content| && IsResultFor(content[b], id)
    requires forall c | b < c < |content| :: !IsResultFor(content[c], id)
    ensures LastResultText(content, id) == Some(JoinedText(content[b].content))
  {
    if b < |content| - 1 { LastTextInContent(content[..|content| - 1], id, b); }
  }

  /** The text that the audit keeps is that of the last result for the id in the user messages,
      and there is one exactly when there is such a result. */
  lemma {:induction false} LastUserResultMeans(messages: seq<Message>, id: string, m: nat, b: nat)
    requires IsUserResult(messages, m, b, id)
    requires forall n: nat, c: nat | IsUserResult(messages, n, c, id) :: n < m || (n == m && c <= b)
    ensures LastUserResultText(messages, id) == Some(JoinedText(messages[m].content[b].content))
  {
    hide JoinedText;
    var last := |messages| - 1;
    if m == last {
      forall c | b < c < |messages[m].content| ensures !IsResultFor(messages[m].content[c], id) {
        assert !IsUserResult(messages, m, c, id);
      }
      LastTextInContent(messages[m].content, id, b);
    } else {
      forall n: nat, c: nat | IsUserResult(messages[..last], n, c, id) ensures n < m || (n == m && c <= b) {
        assert IsUserResult(messages, n, c, id);
      }
      LastUserResultMeans(messages[..last], id, m, b);
      if messages[last].role == "user" {
        HasResultText(messages[last].content, id);
        forall c | 0 <= c < |messages[last].content| ensures !IsResultFor(messages[last].content[c], id) {
          assert !IsUserResult(messages, last, c, id);
        }
      }
    }
  }

  lemma {:induction false} NoResultNoTruncation(content: seq<Block>, id: string, limit: nat)
    requires !HasResult(content, id)
    ensures TruncateContent(content, id, limit) == content
    ensures ResultChars(content, id) == 0
    ensures LastResultText(content, id) == None
  {
    if content != [] { NoResultNoTruncation(content[..|content| - 1], id, limit); }
  }

  lemma {:induction false} HasResultText(content: seq<Block>, id: string)
    ensures LastResultText(content, id).Some? <==> HasResult(content, id)
  {
    if content != [] {
      HasResultText(content[..|content| - 1], id);
      assert content == content[..|content| - 1] + [content[|content| - 1]];
    }
  }

  /** One more block at the end. */
  lemma TruncateAppend(content: seq<Block>, b: Block, id: string, limit: nat)
    ensures TruncateContent(content + [b], id, limit)
        == TruncateContent(content, id, limit) + [TruncateBlock(b, id, limit)]
    ensures ResultChars(content + [b], id)
         == ResultChars(content, id) + if IsResultFor(b, id) then |JoinedText(b.content)| else 0
    ensures LastResultText(content + [b], id)
         == if IsResultFor(b, id) then Some(JoinedText(b.content)) else LastResultText(content, id)
  {
    assert (content + [b])[..|content|] == content;
  }

  lemma JoinedTextOfOne(text: string)
    ensures JoinedText([TextBlock(text, None)]) == text
  {
    assert [TextBlock(text, None)][..0] == [];
  }

  method TruncateOneMessage(content: seq<Block>, id: string, limit: nat)
    returns (after: seq<Block>, delta: int, curated: Option<string>)
    ensures after == TruncateContent(content, id, limit)
    ensures delta == ResultChars(after, id) - ResultChars(content, id)
    ensures curated == LastResultText(after, id)
  {
    hide ResultChars, LastResultText, TruncateContent, JoinedText;
    after, delta, curated := [], 0, None;
    TruncateNothing(id, limit);
    for i := 0 to |content|
      invariant after == TruncateContent(content[..i], id, limit)
      invariant delta == ResultChars(after, id) - ResultChars(content[..i], id)
      invariant curated == LastResultText(after, id)
    {
      var block := content[i];
      assert content[..i + 1] == content[..i] + [block];
      var out := block;
      if IsResultFor(block, id) {
        var text := JoinedText(block.content);
        if |text| > limit {
          var truncated := text[..limit] + " [truncated]";
          delta := delta + |truncated| - |text|;
          out := block.(content := [TextBlock(truncated, None)]);
          JoinedTextOfOne(truncated);
          curated := Some(truncated);
        } else {
          curated := Some(text);
        }
      }
      TruncateAppend(content[..i], block, id, limit);
      TruncateAppend(after, out, id, limit);
      after := after + [out];
    }
    assert content[..|content|] == content;
  }

  lemma TruncateNothing(id: string, limit: nat)
    ensures TruncateContent([], id, limit) == [] && ResultChars([], id) == 0 && LastResultText([], id) == None
  {
  }

  lemma TruncateMessagesAppend(messages: seq<Message>, m: Message, id: string, limit: nat)
    ensures TruncateMessages(messages + [m], id, limit)
        == TruncateMessages(messages, id, limit) + [TruncateMessage(m, id, limit)]
    ensures UserResultChars(messages + [m], id)
         == UserResultChars(messages, id) + if m.role == "user" then ResultChars(m.content, id) else 0
    ensures HasUserResult(messages + [m], id)
      <==> HasUserResult(messages, id) || (m.role == "user" && HasResult(m.content, id))
    ensures LastUserResultText(messages + [m], id)
         == if m.role == "user" && LastResultText(m.content, id).Some? then LastResultText(m.content, id)
            else LastUserResultText(messages, id)
  {
    assert (messages + [m])[..|messages|] == messages;
  }

  method ApplyTruncateToolResult(ir: Request, id: string, limit: nat)
    returns (after: Request, delta: int, applied: bool, curated: Option<string>)
    ensures after == ir.(messages := TruncateMessages(ir.messages, id, limit))
    ensures ResultsCut(ir.messages, after.messages, id, limit)
    ensures delta == UserResultChars(after.messages, id) - UserResultChars(ir.messages, id)
    ensures curated == LastUserResultText(after.messages, id)
    ensures applied <==> HasUserResult(ir.messages, id)
  {
    hide UserResultChars, LastUserResultText, TruncateMessages, HasUserResult, ResultChars, LastResultText,
         TruncateContent, HasResult, ResultsCut;
    TruncationCutsResults(ir.messages, id, limit);
    var messages: seq<Message> := [];
    delta, applied, curated := 0, false, None;
    TruncateNoMessages(id, limit);
    for i := 0 to |ir.messages|
      invariant messages == TruncateMessages(ir.messages[..i], id, limit)
      invariant delta == UserResultChars(messages, id) - UserResultChars(ir.messages[..i], id)
      invariant curated == LastUserResultText(messages, id)
      invariant applied <==> HasUserResult(ir.messages[..i], id)
      invariant !applied ==> messages == ir.messages[..i] && delta == 0 && curated == None
    {
      var message := ir.messages[i];
      assert ir.messages[..i + 1] == ir.messages[..i] + [message];
      var out := message;
      if message.role == "user" && HasResult(message.content, id) {
        applied := true;
        var content, d, c := TruncateOneMessage(message.content, id, limit);
        TruncateKeepsIds(message.content, id, limit, id);
        HasResultText(content, id);
        out := message.(content := content);
        delta, curated := delta + d, c;
      } else if message.role == "user" {
        NoResultNoTruncation(message.content, id, limit);
      }
      TruncateMessagesAppend(ir.messages[..i], message, id, limit);
      TruncateMessagesAppend(messages, out, id, limit);
      messages := messages + [out];
    }
    assert ir.messages[..|ir.messages|] == ir.messages;
    if !applied { return ir, 0, false, None; }
    after := ir.(messages := messages);
  }

  lemma TruncateNoMessages(id: string, limit: nat)
    ensures TruncateMessages([], id, limit) == [] && UserResultChars([], id) == 0
    ensures LastUserResultText([], id) == None && !HasUserResult([], id)
  {
  }

  lemma TruncateKeepsIds(content: seq<Block>, id: string, limit: nat, other: string)
    ensures HasResult(content, other) <==> HasResult(TruncateContent(content, id, limit), other)
  {
    var after := TruncateContent(content, id, limit);
    forall i | 0 <= i < |content| ensures IsResultFor(content[i], other) <==> IsResultFor(after[i], other) {}
    if b :| b in content && IsResultFor(b, other) {
      var i :| 0 <= i < |content| && content[i] == b;
      assert after[i] in after;
    }
    if b :| b in after && IsResultFor(b, other) {
      var i :| 0 <= i < |after| && after[i] == b;
      assert content[i] in content;
    }
  }

  // ---- message blocks ----

  predicate HasBlock(messages: seq<Message>, msg: int, blk: int) {
    0 <= msg < |messages| && 0 <= blk < |messages[msg].content|
  }

  function WithContent(messages: seq<Message>, msg: nat, content: seq<Block>): seq<Message>
    requires msg < |messages|
  {
    messages[msg := messages[msg].(content := content)]
  }

  lemma {:induction false} ContentSizeUpdate(size: Block -> nat, content: seq<Block>, i: nat, b: Block)
    requires i < |content|
    ensures ContentSize(size, content[i := b]) == ContentSize(size, content) - size(content[i]) + size(b)
    ensures ContentSize(size, Without(content, i)) == ContentSize(size, content) - size(content[i])
  {
    var last := |content| - 1;
    var without := Without(content, i);
    if i == last {
      assert content[i := b][..last] == content[..last] && without == content[..last];
    } else {
      var front := content[..last];
      ContentSizeUpdate(size, front, i, b);
      assert content[i := b][..last] == front[i := b];
      assert without[..|without| - 1] == Without(front, i) && without[|without| - 1] == content[last];
    }
  }

  lemma {:induction false} MessagesSizeUpdate(size: Block -> nat, messages: seq<Message>, msg: nat, content: seq<Block>)
    requires msg < |messages|
    ensures MessagesSize(size, WithContent(messages, msg, content))
         == MessagesSize(size, messages) - ContentSize(size, messages[msg].content) + ContentSize(size, content)
  {
    hide ContentSize;
    var last := |messages| - 1;
    var after := WithContent(messages, msg, content);
    if msg == last {
      assert after[..last] == messages[..last];
    } else {
      MessagesSizeUpdate(size, messages[..last], msg, content);
      assert after[..last] == WithContent(messages[..last], msg, content);
    }
  }

  method ApplyMessageBlockToggle(f: FloatText, ir: Request, msg: int, blk: int)
    returns (after: Request, delta: int, applied: bool)
    ensures applied <==> HasBlock(ir.messages, msg, blk)
    ensures applied ==>
      after == ir.(messages := WithContent(ir.messages, msg, Without(ir.messages[msg].content, blk)))
    ensures !applied ==> after == ir
    ensures delta == MessagesChars(f, after.messages) - MessagesChars(f, ir.messages)
  {
    if msg < 0 || msg >= |ir.messages| { return ir, 0, false; }
    var message := ir.messages[msg];
    if blk < 0 || blk >= |message.content| { return ir, 0, false; }
    hide BlockCounter, ContentSize, MessagesSize;
    var removed: int := BlockCounter(f)(message.content[blk]);
    MessagesSizeUpdate(BlockCounter(f), ir.messages, msg, Without(message.content, blk));
    ContentSizeUpdate(BlockCounter(f), message.content, blk, message.content[blk]);
    return ir.(messages := WithContent(ir.messages, msg, Without(message.content, blk))), 0 - removed, true;
  }

  method ApplyMessageText(ir: Request, msg: int, blk: int, text: string)
    returns (after: Request, delta: int, applied: bool)
    ensures applied <==> HasBlock(ir.messages, msg, blk) && ir.messages[msg].content[blk].TextBlock?
    ensures applied ==>
      var content := ir.messages[msg].content;
      after == ir.(messages := WithContent(ir.messages, msg, content[blk := WithText(content[blk], text)]))
    ensures !applied ==> after == ir
    ensures delta == TextChars(after.messages) - TextChars(ir.messages)
  {
    if msg < 0 || msg >= |ir.messages| { return ir, 0, false; }
    var message := ir.messages[msg];
    if blk < 0 || blk >= |message.content| { return ir, 0, false; }
    var block := message.content[blk];
    if !block.TextBlock? { return ir, 0, false; }
    var content := message.content[blk := WithText(block, text)];
    MessagesSizeUpdate(TextCounter(), ir.messages, msg, content);
    ContentSizeUpdate(TextCounter(), message.content, blk, WithText(block, text));
    hide ContentSize, MessagesSize;
    return ir.(messages := WithContent(ir.messages, msg, content)), |text| - |block.text|, true;
  }

  /** Rewriting a text block changes the canonical size by the raw difference exactly when
      the old and the new text need equally many escape characters. */
  lemma MessageTextLedger(f: FloatText, messages: seq<Message>, msg: int, blk: int, text: string)
    requires HasBlock(messages, msg, blk) && messages[msg].content[blk].TextBlock?
    ensures var content := messages[msg].content;
            var after := WithContent(messages, msg, content[blk := WithText(content[blk], text)]);
            var canonical := MessagesChars(f, after) - MessagesChars(f, messages);
            var raw := TextChars(after) - TextChars(messages);
            raw == |text| - |content[blk].text| && (canonical == raw <==> Escapes(text) == Escapes(content[blk].text))
  {
    var content := messages[msg].content;
    var b := content[blk];
    TextBlockChars(f, text, b.providerData);
    TextBlockChars(f, b.text, b.providerData);
    hide MessagesSize, BlockChars, Escapes;
    BlockUpdate(TextCounter(), messages, msg, blk, WithText(b, text));
    BlockUpdate(BlockCounter(f), messages, msg, blk, WithText(b, text));
  }

  lemma BlockUpdate(size: Block -> nat, messages: seq<Message>, msg: nat, blk: nat, b: Block)
    requires HasBlock(messages, msg, blk)
    ensures var content := messages[msg].content;
            MessagesSize(size, WithContent(messages, msg, content[blk := b]))
              == MessagesSize(size, messages) - size(content[blk]) + size(b)
  {
    hide ContentSize, MessagesSize;
    var content := messages[msg].content;
    MessagesSizeUpdate(size, messages, msg, content[blk := b]);
    ContentSizeUpdate(size, content, blk, b);
  }
}
