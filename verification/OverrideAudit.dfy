/** Character accounting: the canonical text of a content block, the ledger
    entries, and the totals of a request. */
module OverrideAudit {
  import opened Options
  import opened JsonValues
  import opened Texts
  import opened Canonicalization
  import opened Ir

  /** One field of a printed block: an embedded value or a list of nested blocks. */
  datatype Cell = Value(v: Json) | Nested(blocks: seq<Block>)

  function ProviderValue(providerData: Option<Fields>): Json {
    match providerData
    case None => Null
    case Some(data) => Obj(data)
  }

  /** The fields of a block in the order they are printed. */
  function BlockFields(b: Block): seq<(string, Cell)> {
    match b
    case TextBlock(text, pd) =>
      [("type", Value(Str("text"))), ("text", Value(Str(text))), ("provider_data", Value(ProviderValue(pd)))]
    case ToolUseBlock(id, name, input, pd) =>
      [("type", Value(Str("tool_use"))), ("id", Value(Str(id))), ("name", Value(Str(name))),
       ("input", Value(Obj(input))), ("provider_data", Value(ProviderValue(pd)))]
    case ToolResultBlock(id, content, isError, pd) =>
      [("type", Value(Str("tool_result"))), ("tool_use_id", Value(Str(id))), ("content", Nested(content)),
       ("is_error", Value(Bool(isError))), ("provider_data", Value(ProviderValue(pd)))]
    case ThinkingBlock(text, pd) =>
      [("type", Value(Str("thinking"))), ("text", Value(Str(text))), ("provider_data", Value(ProviderValue(pd)))]
    case ImageBlock(source, pd) =>
      [("type", Value(Str("image"))), ("source", Value(Obj(source))), ("provider_data", Value(ProviderValue(pd)))]
    case UnknownBlock(raw) =>
      [("type", Value(Str("unknown"))), ("raw", Value(Obj(raw)))]
  }

  /** Field-ordered canonical JSON of one block. */
  function CanonicalBlockJson(f: FloatText, b: Block): string
    decreases b
  {
    ['{'] + Join(CellTexts(f, b, BlockFields(b)), ',') + ['}']
  }

  function CellTexts(f: FloatText, b: Block, cells: seq<(string, Cell)>): (texts: seq<string>)
    requires forall c | c in cells && c.1.Nested? :: b.ToolResultBlock? && c.1.blocks == b.content
    ensures |texts| == |cells|
    decreases b, |cells|
  {
    if cells == [] then []
    else
      var text := match cells[0].1
        case Value(v) => CanonicalJson(f, v)
        case Nested(blocks) => ['['] + Join(BlockTexts(f, b, b.content), ',') + [']'];
      [FieldText(cells[0].0, text)] + CellTexts(f, b, cells[1..])
  }

  function BlockTexts(f: FloatText, parent: Block, blocks: seq<Block>): (texts: seq<string>)
    requires parent.ToolResultBlock? && forall c | c in blocks :: c in parent.content
    ensures |texts| == |blocks|
    decreases parent, 0, |blocks|
  {
    if blocks == [] then []
    else
      assert blocks[0] in blocks;
      [CanonicalBlockJson(f, blocks[0])] + BlockTexts(f, parent, blocks[1..])
  }

  // ---- the canonical text of a block determines the block ----

  ghost predicate DataFloatFree(data: Fields) { FloatFree(Obj(data)) }

  ghost predicate BlockFloatFree(b: Block) {
    match b
    case UnknownBlock(raw) => DataFloatFree(raw)
    case TextBlock(_, pd) => pd.Some? ==> DataFloatFree(pd.value)
    case ThinkingBlock(_, pd) => pd.Some? ==> DataFloatFree(pd.value)
    case ImageBlock(source, pd) => DataFloatFree(source) && (pd.Some? ==> DataFloatFree(pd.value))
    case ToolUseBlock(_, _, input, pd) => DataFloatFree(input) && (pd.Some? ==> DataFloatFree(pd.value))
    case ToolResultBlock(_, content, _, pd) =>
      (pd.Some? ==> DataFloatFree(pd.value)) && forall c | c in content :: BlockFloatFree(c)
  }

  function CellText(f: FloatText, b: Block, cell: Cell): string
    requires cell.Nested? ==> b.ToolResultBlock? && cell.blocks == b.content
  {
    match cell
    case Value(v) => CanonicalJson(f, v)
    case Nested(blocks) => ['['] + Join(BlockTexts(f, b, b.content), ',') + [']']
  }

  lemma {:induction false} CellTextAt(f: FloatText, b: Block, cells: seq<(string, Cell)>, i: nat)
    requires forall c | c in cells && c.1.Nested? :: b.ToolResultBlock? && c.1.blocks == b.content
    requires i < |cells|
    ensures CellTexts(f, b, cells)[i] == FieldText(cells[i].0, CellText(f, b, cells[i].1))
  {
    if i > 0 { CellTextAt(f, b, cells[1..], i - 1); }
  }

  lemma {:induction false} BlockTextAt(f: FloatText, parent: Block, blocks: seq<Block>, i: nat)
    requires parent.ToolResultBlock? && (forall c | c in blocks :: c in parent.content) && i < |blocks|
    ensures BlockTexts(f, parent, blocks)[i] == CanonicalBlockJson(f, blocks[i])
  {
    if i > 0 { BlockTextAt(f, parent, blocks[1..], i - 1); }
  }

  /** Nested blocks stand under the key `content` and nowhere else. */
  ghost predicate CellOf(b: Block, c: (string, Cell)) {
    && (c.1.Nested? <==> c.0 == "content")
    && (c.1.Nested? ==> b.ToolResultBlock? && c.1.blocks == b.content)
    && (c.1.Value? ==> FloatFree(c.1.v))
  }

  ghost predicate CellsOf(b: Block, cells: seq<(string, Cell)>) {
    forall i | 0 <= i < |cells| :: CellOf(b, cells[i])
  }

  lemma BlockFieldsAreCells(b: Block)
    requires BlockFloatFree(b)
    ensures CellsOf(b, BlockFields(b))
  {
    forall i | 0 <= i < |BlockFields(b)| ensures CellOf(b, BlockFields(b)[i]) {
      match b
      case TextBlock(_, _) =>
      case ToolUseBlock(_, _, _, _) =>
      case ToolResultBlock(_, _, _, _) =>
      case ThinkingBlock(_, _) =>
      case ImageBlock(_, _) =>
      case UnknownBlock(_) =>
    }
  }

  lemma BlockFieldsDetermine(b: Block, c: Block)
    requires BlockFields(b) == BlockFields(c)
    ensures b == c
  {
    var m, n := BlockFields(b), BlockFields(c);
    assert m[0].1 == n[0].1 && m[1].1 == n[1].1;
    assert |m| > 2 ==> m[2].1 == n[2].1;
    assert |m| > 3 ==> m[3].1 == n[3].1 && m[4].1 == n[4].1;
  }

  /** A block's text followed by anything but a digit determines the block and where it ends. */
  lemma {:induction false} BlockDelimited(f: FloatText, b: Block, x: string, c: Block, y: string)
    requires BlockFloatFree(b) && BlockFloatFree(c) && Delimits(x) && Delimits(y)
    requires CanonicalBlockJson(f, b) + x == CanonicalBlockJson(f, c) + y
    ensures b == c && x == y
    decreases b, 4
  {
    var m, n := BlockFields(b), BlockFields(c);
    assert CellsOf(b, m) && CellsOf(c, n) by { BlockFieldsAreCells(b); BlockFieldsAreCells(c); }
    Enclosed('{', Join(CellTexts(f, b, m), ','), '}', x);
    Enclosed('{', Join(CellTexts(f, c, n), ','), '}', y);
    CellsDelimited(f, b, m, x, c, n, y);
    BlockFieldsDetermine(b, c);
  }

  lemma {:induction false} CellsDelimited(
      f: FloatText, b: Block, m: seq<(string, Cell)>, x: string, c: Block, n: seq<(string, Cell)>, y: string)
    requires BlockFloatFree(b) && BlockFloatFree(c) && CellsOf(b, m) && CellsOf(c, n)
    requires Join(CellTexts(f, b, m), ',') + (['}'] + x) == Join(CellTexts(f, c, n), ',') + (['}'] + y)
    ensures m == n && x == y
    decreases b, 3
  {
    var p, q := CellTexts(f, b, m), CellTexts(f, c, n);
    forall i | 0 <= i < |p| ensures OpensPart(p[i], '}') { CellTextAt(f, b, m, i); }
    forall i | 0 <= i < |q| ensures OpensPart(q[i], '}') { CellTextAt(f, c, n, i); }
    forall i, u, v | 0 <= i < |p| && i < |q| && Delimits(u) && Delimits(v) && p[i] + u == q[i] + v
      ensures p[i] == q[i]
    {
      CellDelimited(f, b, m, u, c, n, v, i);
    }
    JoinDelimited(p, x, q, y, '}');
    forall i | 0 <= i < |m| ensures i < |n| && m[i] == n[i] {
      assert p[i] + "" == q[i] + "";
      CellDelimited(f, b, m, "", c, n, "", i);
    }
  }

  lemma {:induction false} CellDelimited(
      f: FloatText, b: Block, m: seq<(string, Cell)>, x: string,
      c: Block, n: seq<(string, Cell)>, y: string, i: nat)
    requires BlockFloatFree(b) && BlockFloatFree(c) && CellsOf(b, m) && CellsOf(c, n)
    requires Delimits(x) && Delimits(y) && i < |m| && i < |n|
    requires CellTexts(f, b, m)[i] + x == CellTexts(f, c, n)[i] + y
    ensures m[i] == n[i]
    ensures CellTexts(f, b, m)[i] == CellTexts(f, c, n)[i]
    decreases b, 2
  {
    CellTextAt(f, b, m, i);
    CellTextAt(f, c, n, i);
    assert CellOf(b, m[i]) && CellOf(c, n[i]);
    FieldTextDelimited(m[i].0, CellText(f, b, m[i].1), x, n[i].0, CellText(f, c, n[i].1), y);
    if m[i].1.Value? {
      ValueDelimited(f, m[i].1.v, x, n[i].1.v, y);
    } else {
      NestedDelimited(f, b, x, c, y);
    }
  }

  lemma {:induction false} NestedDelimited(f: FloatText, b: Block, x: string, c: Block, y: string)
    requires b.ToolResultBlock? && c.ToolResultBlock? && BlockFloatFree(b) && BlockFloatFree(c)
    requires CellText(f, b, Nested(b.content)) + x == CellText(f, c, Nested(c.content)) + y
    ensures b.content == c.content && x == y
    ensures CellText(f, b, Nested(b.content)) == CellText(f, c, Nested(c.content))
    decreases b, 1
  {
    var p, q := BlockTexts(f, b, b.content), BlockTexts(f, c, c.content);
    forall i | 0 <= i < |p| ensures OpensPart(p[i], ']') { BlockTextAt(f, b, b.content, i); }
    forall i | 0 <= i < |q| ensures OpensPart(q[i], ']') { BlockTextAt(f, c, c.content, i); }
    forall i, u, v | 0 <= i < |p| && i < |q| && Delimits(u) && Delimits(v) && p[i] + u == q[i] + v
      ensures p[i] == q[i]
    {
      NestedItemDelimited(f, b, u, c, v, i);
    }
    Enclosed('[', Join(p, ','), ']', x);
    Enclosed('[', Join(q, ','), ']', y);
    JoinDelimited(p, x, q, y, ']');
    forall i | 0 <= i < |b.content| ensures b.content[i] == c.content[i] {
      assert p[i] + "" == q[i] + "";
      NestedItemDelimited(f, b, "", c, "", i);
    }
  }

  lemma {:induction false} NestedItemDelimited(f: FloatText, b: Block, x: string, c: Block, y: string, i: nat)
    requires b.ToolResultBlock? && c.ToolResultBlock? && BlockFloatFree(b) && BlockFloatFree(c)
    requires i < |b.content| && i < |c.content| && Delimits(x) && Delimits(y)
    requires BlockTexts(f, b, b.content)[i] + x == BlockTexts(f, c, c.content)[i] + y
    ensures b.content[i] == c.content[i]
    ensures BlockTexts(f, b, b.content)[i] == BlockTexts(f, c, c.content)[i]
    decreases b, 0
  {
    BlockTextAt(f, b, b.content, i);
    BlockTextAt(f, c, c.content, i);
    assert b.content[i] in b.content && c.content[i] in c.content;
    BlockDelimited(f, b.content[i], x, c.content[i], y);
  }

  /** Equal canonical texts come from equal content blocks. */
  lemma CanonicalBlockJsonInjective(f: FloatText, b: Block, c: Block)
    requires BlockFloatFree(b) && BlockFloatFree(c)
    ensures CanonicalBlockJson(f, b) == CanonicalBlockJson(f, c) <==> b == c
  {
    if CanonicalBlockJson(f, b) == CanonicalBlockJson(f, c) {
      assert CanonicalBlockJson(f, b) + "" == CanonicalBlockJson(f, c) + "";
      BlockDelimited(f, b, "", c, "");
    }
  }

  // ---- totals ----

  function BlockChars(f: FloatText, b: Block): nat { |CanonicalBlockJson(f, b)| }

  function ToolChars(f: FloatText, tool: ToolDef): nat {
    |tool.name| + |tool.description| + |CanonicalJson(f, Obj(tool.inputSchema))|
  }

  function SystemChars(system: seq<SystemPart>): nat {
    if system == [] then 0 else SystemChars(system[..|system| - 1]) + |system[|system| - 1].text|
  }

  /** The total size of a list of tools, for a given size of one tool. */
  function ToolsSize(size: ToolDef -> nat, tools: seq<ToolDef>): nat {
    if tools == [] then 0
    else ToolsSize(size, tools[..|tools| - 1]) + size(tools[|tools| - 1])
  }

  lemma ToolsSizeAppend(size: ToolDef -> nat, tools: seq<ToolDef>, tool: ToolDef)
    ensures ToolsSize(size, tools + [tool]) == ToolsSize(size, tools) + size(tool)
  {
    assert (tools + [tool])[..|tools|] == tools;
  }

  /** The sizes of one tool and of one block, as values. */
  function ToolCounter(f: FloatText): ToolDef -> nat { tool => ToolChars(f, tool) }
  function BlockCounter(f: FloatText): Block -> nat { block => BlockChars(f, block) }

  function ToolsChars(f: FloatText, tools: seq<ToolDef>): nat { ToolsSize(ToolCounter(f), tools) }

  /** The total size of the blocks of some messages, for a given size of one block. */
  function ContentSize(size: Block -> nat, content: seq<Block>): nat {
    if content == [] then 0
    else ContentSize(size, content[..|content| - 1]) + size(content[|content| - 1])
  }

  function MessagesSize(size: Block -> nat, messages: seq<Message>): nat {
    if messages == [] then 0
    else MessagesSize(size, messages[..|messages| - 1]) + ContentSize(size, messages[|messages| - 1].content)
  }

  function MessagesChars(f: FloatText, messages: seq<Message>): nat { MessagesSize(BlockCounter(f), messages) }

  /** The raw characters of the text blocks. */
  function TextCounter(): Block -> nat { (block: Block) => if block.TextBlock? then |block.text| else 0 }

  function TextChars(messages: seq<Message>): nat { MessagesSize(TextCounter(), messages) }

  /** The characters that escaping adds to a text. */
  function Escapes(s: string): nat {
    if s == "" then 0 else |EscapeChar(s[0])| - 1 + Escapes(s[1..])
  }

  lemma {:induction false} JsonStringLength(s: string)
    ensures |JsonString(s)| == |s| + Escapes(s) + 2
  {
    if s != "" { JsonStringLength(s[1..]); }
  }

  lemma JoinThree(x: string, y: string, z: string)
    ensures |Join([x, y, z], ',')| == |x| + |y| + |z| + 2
  {
    var parts, rest, last := [x, y, z], [y, z], [z];
    assert parts[1..] == rest && rest[1..] == last && last[1..] == [];
    assert JoinTail(last, ',') == [','] + z + JoinTail([], ',');
    assert |JoinTail(rest, ',')| == 1 + |y| + |JoinTail(last, ',')|;
  }

  /** The text of a block of three fields, none of them nested. */
  lemma ThreeCells(f: FloatText, b: Block, x: (string, Cell), y: (string, Cell), z: (string, Cell))
    requires x.1.Value? && y.1.Value? && z.1.Value?
    ensures |Join(CellTexts(f, b, [x, y, z]), ',')|
         == |FieldText(x.0, CanonicalJson(f, x.1.v))| + |FieldText(y.0, CanonicalJson(f, y.1.v))|
            + |FieldText(z.0, CanonicalJson(f, z.1.v))| + 2
  {
    var cells := [x, y, z];
    CellTextAt(f, b, cells, 0);
    CellTextAt(f, b, cells, 1);
    CellTextAt(f, b, cells, 2);
    assert CellText(f, b, x.1) == CanonicalJson(f, x.1.v) && CellText(f, b, y.1) == CanonicalJson(f, y.1.v)
        && CellText(f, b, z.1) == CanonicalJson(f, z.1.v);
    hide CellTexts, FieldText, CellText, CanonicalJson, Join;
    var parts := CellTexts(f, b, cells);
    assert parts == [parts[0], parts[1], parts[2]];
    JoinThree(parts[0], parts[1], parts[2]);
  }

  lemma BlockCharsIs(f: FloatText, text: string, pd: Option<Fields>)
    ensures BlockChars(f, TextBlock(text, pd))
         == |FieldText("type", CanonicalJson(f, Str("text")))| + |FieldText("text", JsonString(text))|
            + |FieldText("provider_data", CanonicalJson(f, ProviderValue(pd)))| + 4
  {
    StringText(f, text);
    hide JsonString, CellTexts, Join, FieldText, CanonicalJson, ProviderValue;
    var b := TextBlock(text, pd);
    var x, y, z := ("type", Value(Str("text"))), ("text", Value(Str(text))),
                   ("provider_data", Value(ProviderValue(pd)));
    ThreeCells(f, b, x, y, z);
    assert BlockFields(b) == [x, y, z];
    hide BlockFields;
    assert |CanonicalBlockJson(f, b)| == |Join(CellTexts(f, b, BlockFields(b)), ',')| + 2;
  }

  lemma StringText(f: FloatText, s: string)
    ensures CanonicalJson(f, Str(s)) == JsonString(s)
  {
  }

  /** A text block's canonical size grows with its text as printed. */
  lemma TextBlockChars(f: FloatText, text: string, pd: Option<Fields>)
    ensures BlockChars(f, TextBlock(text, pd)) == |text| + Escapes(text) + BlockChars(f, TextBlock("", pd))
  {
    hide JsonString, BlockChars, CanonicalJson, ProviderValue;
    BlockCharsIs(f, text, pd);
    BlockCharsIs(f, "", pd);
    JsonStringLength(text);
    JsonStringLength("");
    FieldTextLength("text", JsonString(text));
    FieldTextLength("text", JsonString(""));
    hide FieldText;
  }

  lemma FieldTextLength(key: string, text: string)
    ensures |FieldText(key, text)| == |JsonString(key)| + 1 + |text|
  {
    hide JsonString;
  }

  method CountCharsParts(f: FloatText, ir: Request) returns (system: nat, tools: nat, messages: nat)
    ensures system == SystemChars(ir.system)
    ensures tools == ToolsChars(f, ir.tools)
    ensures messages == MessagesChars(f, ir.messages)
  {
    hide BlockChars, ToolsChars, SystemChars;
    system, tools, messages := SystemChars(ir.system), ToolsChars(f, ir.tools), 0;
    for m := 0 to |ir.messages|
      invariant messages == MessagesSize(BlockCounter(f), ir.messages[..m])
    {
      var content := ir.messages[m].content;
      ghost var before := messages;
      for b := 0 to |content|
        invariant messages == before + ContentSize(BlockCounter(f), content[..b])
      {
        messages := messages + BlockChars(f, content[b]);
        assert content[..b + 1][..b] == content[..b];
      }
      assert content[..|content|] == content;
      assert ir.messages[..m + 1][..m] == ir.messages[..m];
    }
    assert ir.messages[..|ir.messages|] == ir.messages;
  }

  datatype AuditEntry = AuditEntry(
    kind: string, target: string, applied: bool, charsDelta: int, curatedValue: Option<string>)

  datatype Audit = Audit(
    entries: seq<AuditEntry>, charsBefore: nat, charsAfter: nat,
    systemCharsBefore: nat, systemCharsAfter: nat,
    toolsCharsBefore: nat, toolsCharsAfter: nat,
    messagesCharsBefore: nat, messagesCharsAfter: nat)
}
