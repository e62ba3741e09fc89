/** A reader of JSON text (RFC 8259), written without regard to the printer: the canonical text
    of a value, and that of a content block, is JSON for exactly that value. */
module JsonReader {
  import opened Options
  import opened JsonValues
  import opened Decimals
  import opened Texts
  import opened Ir
  import opened Canonicalization
  import opened OverrideAudit

  // ---- strings ----

  function HexValue(c: char): Option<nat> {
    if '0' <= c <= '9' then Some(c as int - '0' as int)
    else if 'a' <= c <= 'f' then Some(c as int - 'a' as int + 10)
    else if 'A' <= c <= 'F' then Some(c as int - 'A' as int + 10)
    else None
  }

  /** What a backslash and one letter stand for (RFC 8259, section 7). */
  function ShortEscape(c: char): Option<char> {
    match c
    case '\"' => Some('\"')
    case '\\' => Some('\\')
    case '/' => Some('/')
    case 'b' => Some(8 as char)
    case 'f' => Some(12 as char)
    case 'n' => Some(10 as char)
    case 'r' => Some(13 as char)
    case 't' => Some(9 as char)
    case _ => None
  }

  /** What a backslash, `u` and four hexadecimal digits stand for. */
  function LongEscape(digits: string): Option<char>
    requires |digits| == 4
  {
    match (HexValue(digits[0]), HexValue(digits[1]), HexValue(digits[2]), HexValue(digits[3]))
    case (Some(a), Some(b), Some(c), Some(d)) =>
      var code := ((a * 16 + b) * 16 + c) * 16 + d;
      if code < 0xD800 then Some(code as char) else None
    case _ => None
  }

  function Prepend(c: Option<char>, read: Option<(string, string)>): Option<(string, string)> {
    if c.Some? && read.Some? then Some(([c.value] + read.value.0, read.value.1)) else None
  }

  /** The text up to the closing quote of a JSON string, and what follows the quote. */
  function ReadString(s: string): (read: Option<(string, string)>)
    ensures read.Some? ==> |read.value.1| < |s|
  {
    if s == "" || (s[0] as int) < 0x20 then None
    else if s[0] == '\"' then Some(("", s[1..]))
    else if s[0] != '\\' then Prepend(Some(s[0]), ReadString(s[1..]))
    else if |s| >= 6 && s[1] == 'u' then Prepend(LongEscape(s[2..6]), ReadString(s[6..]))
    else if |s| >= 2 then Prepend(ShortEscape(s[1]), ReadString(s[2..]))
    else None
  }

  lemma EscapeIsRead(c: char, rest: string)
    ensures ReadString(EscapeChar(c) + rest) == Prepend(Some(c), ReadString(rest))
  {
    var s := EscapeChar(c) + rest;
    if |EscapeChar(c)| == 6 {
      assert s[6..] == rest && s[2..6] == EscapeChar(c)[2..6];
      HexIsRead(c as int / 16);
      HexIsRead(c as int % 16);
    } else if |EscapeChar(c)| == 2 {
      assert s[2..] == rest;
    } else {
      assert s[1..] == rest;
    }
  }

  lemma HexIsRead(d: nat)
    requires d < 16
    ensures HexValue(HexDigit(d)) == Some(d)
  {
  }

  /** A printed string is read back, whatever follows it. */
  lemma {:induction false} StringReadsBack(s: string, x: string)
    ensures ReadString(EscapedRest(s) + x) == Some((s, x))
  {
    if s == "" {
      assert (EscapedRest(s) + x)[1..] == x;
    } else {
      StringReadsBack(s[1..], x);
      var rest := EscapedRest(s[1..]);
      assert EscapedRest(s) + x == EscapeChar(s[0]) + (rest + x);
      EscapeIsRead(s[0], rest + x);
      assert [s[0]] + s[1..] == s;
    }
  }

  // ---- values ----

  /** How many characters of a number a text starts with; fractions and exponents are not read. */
  function NumberLength(s: string): (n: nat)
    ensures n <= |s| && (n < |s| ==> !IsDigit(s[n]) && s[n] != '-')
    ensures forall i | 0 <= i < n :: IsDigit(s[i]) || s[i] == '-'
  {
    if s == "" || !(IsDigit(s[0]) || s[0] == '-') then 0 else 1 + NumberLength(s[1..])
  }

  function ReadNumber(s: string): (read: Option<(Json, string)>)
    ensures read.Some? ==> |read.value.1| < |s|
  {
    var n := NumberLength(s);
    if n > 0 && IsIndexText(s[..n]) then Some((Int(ToInt(s[..n])), s[n..])) else None
  }

  /** The value that a text starts with, and what follows it. */
  function ReadValue(s: string): (read: Option<(Json, string)>)
    ensures read.Some? ==> |read.value.1| < |s|
    decreases |s|, 0
  {
    if "null" <= s then Some((Null, s[4..]))
    else if "true" <= s then Some((Bool(true), s[4..]))
    else if "false" <= s then Some((Bool(false), s[5..]))
    else if s == "" then None
    else if s[0] == '\"' then
      match ReadString(s[1..])
      case Some((text, rest)) => Some((Str(text), rest))
      case None => None
    else if s[0] == '[' then
      if "]" <= s[1..] then Some((List([]), s[2..]))
      else match ReadItems(s[1..])
        case Some((items, rest)) => Some((List(items), rest))
        case None => None
    else if s[0] == '{' then
      if "}" <= s[1..] then Some((Obj(map[]), s[2..]))
      else match ReadFields(s[1..])
        case Some((fields, rest)) => Some((Obj(fields), rest))
        case None => None
    else ReadNumber(s)
  }

  /** Values with commas between them, up to the closing bracket. */
  function ReadItems(s: string): (read: Option<(seq<Json>, string)>)
    ensures read.Some? ==> |read.value.1| < |s|
    decreases |s|, 1
  {
    match ReadValue(s)
    case None => None
    case Some((v, rest)) =>
      if "]" <= rest then Some(([v], rest[1..]))
      else if "," <= rest then
        match ReadItems(rest[1..])
        case Some((vs, rest')) => Some(([v] + vs, rest'))
        case None => None
      else None
  }

  /** Fields with commas between them, up to the closing brace; a later field of a name counts. */
  function ReadFields(s: string): (read: Option<(Fields, string)>)
    ensures read.Some? ==> |read.value.1| < |s|
    decreases |s|, 1
  {
    if !("\"" <= s) then None
    else match ReadString(s[1..])
      case None => None
      case Some((key, rest)) =>
        if !(":" <= rest) then None
        else match ReadValue(rest[1..])
          case None => None
          case Some((v, rest')) =>
            if "}" <= rest' then Some((map[key := v], rest'[1..]))
            else if "," <= rest' then
              match ReadFields(rest'[1..])
              case Some((fields, rest'')) => Some((map[key := v] + fields, rest''))
              case None => None
            else None
  }

  // ---- printed texts are read back ----

  /** The text is read as the value, whatever follows it but a digit or a minus sign. */
  ghost predicate ReadsAs(text: string, v: Json) {
    forall u | Follows(u) :: ReadValue(text + u) == Some((v, u))
  }

  ghost predicate Follows(u: string) { u == "" || (!IsDigit(u[0]) && u[0] != '-') }

  lemma StringIsRead(s: string)
    ensures ReadsAs(JsonString(s), Str(s))
  {
    forall u | Follows(u) ensures ReadValue(JsonString(s) + u) == Some((Str(s), u)) {
      Uncons('\"', EscapedRest(s), u);
      StringReadsBack(s, u);
    }
    hide ReadString, EscapedRest;
  }

  lemma {:induction false} NumberEnds(a: string, u: string)
    requires Follows(u) && forall c | c in a :: IsDigit(c) || c == '-'
    ensures NumberLength(a + u) == |a|
  {
    if a == "" {
      assert a + u == u;
    } else {
      assert a[0] in a && (a + u)[1..] == a[1..] + u;
      NumberEnds(a[1..], u);
    }
  }

  lemma NumbersAreNumbers(s: string)
    requires s != "" && (IsDigit(s[0]) || s[0] == '-')
    ensures ReadValue(s) == ReadNumber(s)
  {
    hide ReadNumber;
  }

  lemma IntHead(n: int)
    ensures var s := OfInt(n);
            && s != "" && IsIndexText(s) && ToInt(s) == n && (IsDigit(s[0]) || s[0] == '-')
            && forall c | c in s :: IsDigit(c) || c == '-'
  {
    PatternIsImage(OfInt(n), n);
    hide ToNat;
  }

  lemma IntIsRead(n: int)
    ensures ReadsAs(OfInt(n), Int(n))
  {
    hide ReadValue, OfInt, IsIndexText, ToInt, NumberLength, IsDigit, ReadsAs;
    IntHead(n);
    forall u | Follows(u) ensures ReadValue(OfInt(n) + u) == Some((Int(n), u)) {
      var s := OfInt(n) + u;
      NumberEnds(OfInt(n), u);
      LiteralThen(OfInt(n), u);
      assert s[..|OfInt(n)|] == OfInt(n) && s[0] == OfInt(n)[0];
      NumbersAreNumbers(s);
    }
    ReadsAsIs(OfInt(n), Int(n));
  }

  /** Parts that read as values, joined and closed, read as the list of them. */
  lemma {:induction false} ItemsAreRead(p: seq<string>, vs: seq<Json>, x: string)
    requires |p| == |vs| > 0 && forall i | 0 <= i < |p| :: ReadsAs(p[i], vs[i])
    ensures ReadItems(p[0] + (JoinTail(p[1..], ',') + ("]" + x))) == Some((vs, x))
  {
    hide ReadValue;
    var u := JoinTail(p[1..], ',') + ("]" + x);
    TailDelimits(p[1..], x, ']');
    assert ReadValue(p[0] + u) == Some((vs[0], u));
    if |p| == 1 {
      assert vs == [vs[0]];
    } else {
      ItemsAreRead(p[1..], vs[1..], x);
      assert vs == [vs[0]] + vs[1..];
    }
  }

  /** The values under some keys. */
  function ValuesOf(keys: seq<string>, vs: seq<Json>): Fields
    requires |keys| == |vs|
  {
    if keys == [] then map[] else map[keys[0] := vs[0]] + ValuesOf(keys[1..], vs[1..])
  }

  lemma {:induction false} FieldsAreRead(
      keys: seq<string>, texts: seq<string>, vs: seq<Json>, p: seq<string>, x: string)
    requires |keys| == |texts| == |vs| == |p| > 0
    requires forall i | 0 <= i < |p| :: ReadsAs(texts[i], vs[i]) && p[i] == FieldText(keys[i], texts[i])
    ensures ReadFields(p[0] + (JoinTail(p[1..], ',') + ("}" + x))) == Some((ValuesOf(keys, vs), x))
  {
    hide ReadValue, ReadString, JsonString;
    var u := JoinTail(p[1..], ',') + ("}" + x);
    TailDelimits(p[1..], x, '}');
    FieldIsRead(keys[0], texts[0], vs[0], u);
    hide ReadsAs, FieldText;
    if |p| == 1 {
      assert ValuesOf(keys, vs) == map[keys[0] := vs[0]] + map[] == map[keys[0] := vs[0]];
      assert "}" <= u && u[1..] == x;
    } else {
      FieldsAreRead(keys[1..], texts[1..], vs[1..], p[1..], x);
      assert !("}" <= u) && "," <= u;
    }
  }

  /** The name, the colon and the value of one field. */
  lemma FieldIsRead(key: string, text: string, v: Json, u: string)
    requires ReadsAs(text, v) && Follows(u)
    ensures var s := FieldText(key, text) + u;
            && "\"" <= s && ReadString(s[1..]) == Some((key, ":" + (text + u)))
            && ":" <= ":" + (text + u) && (":" + (text + u))[1..] == text + u
            && ReadValue(text + u) == Some((v, u))
  {
    hide ReadString, ReadValue;
    Assoc(JsonString(key), [':'] + text, u);
    Assoc([':'], text, u);
    Uncons('\"', EscapedRest(key), ":" + (text + u));
    StringReadsBack(key, ":" + (text + u));
  }

  lemma ReadsByHead(s: string)
    requires s != ""
    ensures s[0] == '[' ==>
      ReadValue(s) ==
        if "]" <= s[1..] then Some((List([]), s[2..]))
        else match ReadItems(s[1..])
          case Some((items, rest)) => Some((List(items), rest))
          case None => None
    ensures s[0] == '{' ==>
      ReadValue(s) ==
        if "}" <= s[1..] then Some((Obj(map[]), s[2..]))
        else match ReadFields(s[1..])
          case Some((fields, rest)) => Some((Obj(fields), rest))
          case None => None
  {
    hide ReadItems, ReadFields, ReadString, ReadNumber;
  }

  /** A closed list or object of such parts is read as one value. */
  lemma ListIsRead(p: seq<string>, vs: seq<Json>)
    requires |p| == |vs| && forall i | 0 <= i < |p| :: ReadsAs(p[i], vs[i]) && OpensPart(p[i], ']')
    ensures ReadsAs(['['] + Join(p, ',') + [']'], List(vs))
  {
    hide ReadValue, ReadItems, ReadsAs;
    var text := ['['] + Join(p, ',') + [']'];
    forall u | Follows(u) ensures ReadValue(text + u) == Some((List(vs), u)) {
      Enclosed('[', Join(p, ','), ']', u);
      JoinHead(p, u, ']');
      ReadsByHead(text + u);
      if p != [] { ItemsAreRead(p, vs, u); }
    }
    ReadsAsIs(text, List(vs));
  }

  lemma ReadsAsIs(text: string, v: Json)
    requires forall u | Follows(u) :: ReadValue(text + u) == Some((v, u))
    ensures ReadsAs(text, v)
  {
    hide ReadValue;
  }

  lemma ObjectIsRead(keys: seq<string>, texts: seq<string>, vs: seq<Json>, p: seq<string>)
    requires |keys| == |texts| == |vs| == |p|
    requires forall i | 0 <= i < |p| :: ReadsAs(texts[i], vs[i]) && p[i] == FieldText(keys[i], texts[i])
    ensures ReadsAs(['{'] + Join(p, ',') + ['}'], Obj(ValuesOf(keys, vs)))
  {
    hide ReadValue, ReadFields, ReadsAs, EscapedRest;
    var text := ['{'] + Join(p, ',') + ['}'];
    forall u | Follows(u) ensures ReadValue(text + u) == Some((Obj(ValuesOf(keys, vs)), u)) {
      Enclosed('{', Join(p, ','), '}', u);
      JoinHead(p, u, '}');
      ReadsByHead(text + u);
      if p != [] { FieldsAreRead(keys, texts, vs, p, u); }
    }
    ReadsAsIs(text, Obj(ValuesOf(keys, vs)));
  }

  lemma LiteralsAreRead()
    ensures ReadsAs("null", Null) && ReadsAs("true", Bool(true)) && ReadsAs("false", Bool(false))
  {
    forall u
      ensures ReadValue("null" + u) == Some((Null, u))
      ensures ReadValue("true" + u) == Some((Bool(true), u))
      ensures ReadValue("false" + u) == Some((Bool(false), u))
    {
      LiteralThen("null", u);
      LiteralThen("true", u);
      LiteralThen("false", u);
      assert ("true" + u)[0] == 't' && ("false" + u)[0] == 'f';
    }
    hide ReadValue;
  }

  lemma LiteralThen(a: string, u: string)
    ensures a <= a + u && (a + u)[|a|..] == u
  {
  }

  lemma {:induction false} ValuesOfKeys(fields: Fields, keys: seq<string>, vs: seq<Json>)
    requires |keys| == |vs| && forall i | 0 <= i < |keys| :: keys[i] in fields && vs[i] == fields[keys[i]]
    ensures forall k :: k in ValuesOf(keys, vs) <==> k in keys
    ensures forall k | k in keys :: ValuesOf(keys, vs)[k] == fields[k]
  {
    if keys != [] {
      ValuesOfKeys(fields, keys[1..], vs[1..]);
      assert keys == [keys[0]] + keys[1..];
    }
  }

  /** The canonical text of a value without floats is JSON for that value. */
  lemma {:induction false} CanonicalReadsBack(f: FloatText, v: Json)
    requires FloatFree(v)
    ensures ReadsAs(CanonicalJson(f, v), v)
    decreases v, 1
  {
    hide ReadsAs, ItemTexts, FieldTexts, SortedKeys;
    LiteralsAreRead();
    match v {
      case Int(n) => IntIsRead(n);
      case Str(s) => StringIsRead(s);
      case List(items) => ListReadsBack(f, v);
      case Obj(fields) => ObjectReadsBack(f, v);
      case _ =>
    }
  }

  lemma {:induction false} ListReadsBack(f: FloatText, v: Json)
    requires v.List? && FloatFree(v)
    ensures ReadsAs(['['] + Join(ItemTexts(f, v.items), ',') + [']'], v)
    decreases v, 0
  {
    hide ReadsAs, ItemTexts, CanonicalJson;
    var p := ItemTexts(f, v.items);
    forall i | 0 <= i < |v.items| ensures ReadsAs(p[i], v.items[i]) && OpensPart(p[i], ']') {
      ItemTextAt(f, v.items, i);
      assert v.items[i] in v.items;
      CanonicalReadsBack(f, v.items[i]);
      HeadTellsKind(f, v.items[i]);
    }
    ListIsRead(p, v.items);
  }

  lemma {:induction false} ObjectReadsBack(f: FloatText, v: Json)
    requires v.Obj? && FloatFree(v)
    ensures ReadsAs(['{'] + Join(FieldTexts(f, v, SortedKeys(v.fields.Keys)), ',') + ['}'], v)
    decreases v, 0
  {
    hide ReadsAs, FieldTexts, FieldText, CanonicalJson, SortedKeys, ValuesOf, Join;
    var fields, keys := v.fields, SortedKeys(v.fields.Keys);
    var p := FieldTexts(f, v, keys);
    forall k | k in fields ensures ReadsAs(CanonicalJson(f, fields[k]), fields[k]) {
      CanonicalReadsBack(f, fields[k]);
    }
    hide FloatFree;
    forall i | 0 <= i < |keys| ensures p[i] == FieldText(keys[i], CanonicalJson(f, fields[keys[i]])) {
      FieldTextAt(f, v, keys, i);
    }
    var texts := seq(|keys|, i requires 0 <= i < |keys| => CanonicalJson(f, fields[keys[i]]));
    var vs := seq(|keys|, i requires 0 <= i < |keys| => fields[keys[i]]);
    ObjectIsRead(keys, texts, vs, p);
    ValuesOfKeys(fields, keys, vs);
    assert ValuesOf(keys, vs) == fields;
  }

  // ---- content blocks ----

  /** The object that the canonical text of a block is JSON for. */
  function BlockJson(b: Block): Json {
    match b
    case TextBlock(text, pd) =>
      Obj(map["type" := Str("text"), "text" := Str(text), "provider_data" := DataJson(pd)])
    case ToolUseBlock(id, name, input, pd) =>
      Obj(map["type" := Str("tool_use"), "id" := Str(id), "name" := Str(name), "input" := Obj(input),
              "provider_data" := DataJson(pd)])
    case ToolResultBlock(id, content, isError, pd) =>
      Obj(map["type" := Str("tool_result"), "tool_use_id" := Str(id), "content" := List(BlockJsons(content)),
              "is_error" := Bool(isError), "provider_data" := DataJson(pd)])
    case ThinkingBlock(text, pd) =>
      Obj(map["type" := Str("thinking"), "text" := Str(text), "provider_data" := DataJson(pd)])
    case ImageBlock(source, pd) =>
      Obj(map["type" := Str("image"), "source" := Obj(source), "provider_data" := DataJson(pd)])
    case UnknownBlock(raw) => Obj(map["type" := Str("unknown"), "raw" := Obj(raw)])
  }

  function DataJson(data: Option<Fields>): Json { if data.None? then Null else Obj(data.value) }

  function BlockJsons(blocks: seq<Block>): (out: seq<Json>)
    ensures |out| == |blocks| && forall i | 0 <= i < |blocks| :: out[i] == BlockJson(blocks[i])
  {
    if blocks == [] then [] else [BlockJson(blocks[0])] + BlockJsons(blocks[1..])
  }

  function CellJson(c: Cell): Json {
    match c
    case Value(v) => v
    case Nested(blocks) => List(BlockJsons(blocks))
  }

  function CellNames(cells: seq<(string, Cell)>): seq<string> {
    seq(|cells|, i requires 0 <= i < |cells| => cells[i].0)
  }

  function CellValues(cells: seq<(string, Cell)>): seq<Json> {
    seq(|cells|, i requires 0 <= i < |cells| => CellJson(cells[i].1))
  }

  lemma OneField(keys: seq<string>, vs: seq<Json>)
    requires |keys| == |vs| == 1
    ensures ValuesOf(keys, vs) == map[keys[0] := vs[0]]
  {
  }

  lemma TwoFields(keys: seq<string>, vs: seq<Json>)
    requires |keys| == |vs| == 2
    ensures ValuesOf(keys, vs)
         == map[keys[0] := vs[0], keys[1] := vs[1]]
  {
    OneField(keys[1..], vs[1..]);
    var tail: Fields := map[keys[1] := vs[1]];
    assert ValuesOf(keys, vs) == map[keys[0] := vs[0]] + tail;
    hide ValuesOf;
  }

  lemma ThreeFields(keys: seq<string>, vs: seq<Json>)
    requires |keys| == |vs| == 3
    ensures ValuesOf(keys, vs)
         == map[keys[0] := vs[0], keys[1] := vs[1], keys[2] := vs[2]]
  {
    TwoFields(keys[1..], vs[1..]);
    var tail: Fields := map[keys[1] := vs[1], keys[2] := vs[2]];
    assert ValuesOf(keys, vs) == map[keys[0] := vs[0]] + tail;
    hide ValuesOf;
  }

  lemma FourFields(keys: seq<string>, vs: seq<Json>)
    requires |keys| == |vs| == 4
    ensures ValuesOf(keys, vs)
         == map[keys[0] := vs[0], keys[1] := vs[1], keys[2] := vs[2], keys[3] := vs[3]]
  {
    ThreeFields(keys[1..], vs[1..]);
    var tail: Fields := map[keys[1] := vs[1], keys[2] := vs[2], keys[3] := vs[3]];
    assert ValuesOf(keys, vs) == map[keys[0] := vs[0]] + tail;
    hide ValuesOf;
  }

  lemma FiveFields(keys: seq<string>, vs: seq<Json>)
    requires |keys| == |vs| == 5
    ensures ValuesOf(keys, vs)
         == map[keys[0] := vs[0], keys[1] := vs[1], keys[2] := vs[2], keys[3] := vs[3], keys[4] := vs[4]]
  {
    FourFields(keys[1..], vs[1..]);
    var tail: Fields := map[keys[1] := vs[1], keys[2] := vs[2], keys[3] := vs[3], keys[4] := vs[4]];
    assert ValuesOf(keys, vs) == map[keys[0] := vs[0]] + tail;
    hide ValuesOf;
  }

  /** The fields of a block make up its object. */
  lemma CellsMakeTheBlock(b: Block)
    ensures Obj(ValuesOf(CellNames(BlockFields(b)), CellValues(BlockFields(b)))) == BlockJson(b)
  {
    hide ValuesOf, BlockJsons;
    var keys, vs := CellNames(BlockFields(b)), CellValues(BlockFields(b));
    if |keys| == 2 { TwoFields(keys, vs); }
    else if |keys| == 3 { ThreeFields(keys, vs); }
    else { FiveFields(keys, vs); }
  }

  /** The canonical text of a block without floats is JSON for the block's own fields. */
  lemma {:induction false} BlockReadsBack(f: FloatText, b: Block)
    requires BlockFloatFree(b)
    ensures ReadsAs(CanonicalBlockJson(f, b), BlockJson(b))
    decreases b, 1
  {
    hide ReadsAs, CellTexts, FieldText, BlockJson, ValuesOf, CanonicalJson;
    var cells := BlockFields(b);
    var p := CellTexts(f, b, cells);
    var keys, vs := CellNames(cells), CellValues(cells);
    var texts := seq(|cells|, i requires 0 <= i < |cells| => CellText(f, b, cells[i].1));
    forall i | 0 <= i < |cells| ensures ReadsAs(texts[i], vs[i]) && p[i] == FieldText(keys[i], texts[i]) {
      CellTextAt(f, b, cells, i);
      CellReadsBack(f, b, cells[i].1);
    }
    ObjectIsRead(keys, texts, vs, p);
    CellsMakeTheBlock(b);
  }

  lemma {:induction false} CellReadsBack(f: FloatText, b: Block, c: Cell)
    requires BlockFloatFree(b) && exists key :: (key, c) in BlockFields(b)
    ensures ReadsAs(CellText(f, b, c), CellJson(c))
    decreases b, 0
  {
    hide ReadsAs, CanonicalJson;
    match c {
      case Value(v) => CanonicalReadsBack(f, v);
      case Nested(blocks) =>
        var p := BlockTexts(f, b, b.content);
        forall i | 0 <= i < |p| ensures ReadsAs(p[i], BlockJson(b.content[i])) && OpensPart(p[i], ']') {
          BlockTextAt(f, b, b.content, i);
          assert b.content[i] in b.content;
          BlockReadsBack(f, b.content[i]);
        }
        ListIsRead(p, BlockJsons(b.content));
    }
  }
}
