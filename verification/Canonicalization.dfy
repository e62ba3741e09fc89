/** Canonical compact JSON text (RFC 8259 sections 4, 5 and 7), and the proof that
    it can be decoded in only one way.

    `floatText` stands for the interpreter's shortest decimal form of a float that
    is not printed as an integer. */
module Canonicalization {
  import opened JsonValues
  import opened Decimals
  import opened Texts

  type FloatText = real -> string

  function HexDigit(d: nat): char
    requires d < 16
  {
    "0123456789abcdef"[d]
  }

  /** One character of a JSON string: short escapes, `\u00XX` for other controls. */
  function EscapeChar(c: char): string {
    if c == '\"' then "\\\""
    else if c == '\\' then "\\\\"
    else if c == '\n' then "\\n"
    else if c == '\r' then "\\r"
    else if c == '\t' then "\\t"
    else if c == '\U{0C}' then "\\f"
    else if c == '\U{08}' then "\\b"
    else if c as int < 0x20 then "\\u00" + [HexDigit(c as int / 16), HexDigit(c as int % 16)]
    else [c]
  }

  /** The escaped characters and the closing quote. */
  function EscapedRest(s: string): string {
    if s == "" then ['\"'] else EscapeChar(s[0]) + EscapedRest(s[1..])
  }

  /** A quoted JSON string in which only quotes, backslashes and controls are escaped. */
  function JsonString(s: string): string { ['\"'] + EscapedRest(s) }

  function CanonicalNumber(floatText: FloatText, r: real): string {
    if r.Floor as real == r && -1e21 < r < 1e21 then OfInt(r.Floor) else floatText(r)
  }

  function CanonicalJson(floatText: FloatText, v: Json): string
    decreases v
  {
    match v
    case Null => "null"
    case Bool(b) => if b then "true" else "false"
    case Int(n) => OfInt(n)
    case Float(r) => CanonicalNumber(floatText, r)
    case Str(s) => JsonString(s)
    case List(items) => ['['] + Join(ItemTexts(floatText, items), ',') + [']']
    case Obj(fields) => ['{'] + Join(FieldTexts(floatText, v, SortedKeys(fields.Keys)), ',') + ['}']
  }

  function ItemTexts(floatText: FloatText, items: seq<Json>): (texts: seq<string>)
    ensures |texts| == |items|
    decreases items
  {
    if items == [] then []
    else [CanonicalJson(floatText, items[0])] + ItemTexts(floatText, items[1..])
  }

  function FieldTexts(floatText: FloatText, v: Json, keys: seq<string>): (texts: seq<string>)
    requires v.Obj? && forall k | k in keys :: k in v.fields
    ensures |texts| == |keys|
    decreases v, |keys|
  {
    if keys == [] then []
    else
      [FieldText(keys[0], CanonicalJson(floatText, v.fields[keys[0]]))]
      + FieldTexts(floatText, v, keys[1..])
  }

  /** A field as printed: its key as a JSON string, a colon and the text of its value. */
  function FieldText(key: string, text: string): string { JsonString(key) + ([':'] + text) }

  // ---- strings ----

  lemma HexDigitsInjective(d: nat, e: nat)
    requires d < 16 && e < 16 && HexDigit(d) == HexDigit(e)
    ensures d == e
  {
    assert HexDigit(d) == if d < 10 then DigitChar(d) else ('a' as int + (d - 10)) as char;
    assert HexDigit(e) == if e < 10 then DigitChar(e) else ('a' as int + (e - 10)) as char;
  }

  /** No escape is a proper prefix of another, and no two characters share one. */
  lemma EscapeCharPrefix(c: char, d: char)
    requires EscapeChar(c) <= EscapeChar(d)
    ensures c == d
  {
    var s, t := EscapeChar(c), EscapeChar(d);
    assert s[0] == t[0];
    if |s| > 1 {
      assert s[1] == t[1];
      if |s| == 6 {
        assert s[4] == t[4] && s[5] == t[5];
        HexDigitsInjective(c as int / 16, d as int / 16);
        HexDigitsInjective(c as int % 16, d as int % 16);
      }
    }
  }

  lemma EscapeCharDelimited(c: char, x: string, d: char, y: string)
    requires EscapeChar(c) + x == EscapeChar(d) + y
    ensures c == d && x == y
  {
    var a, b := EscapeChar(c), EscapeChar(d);
    var n := if |a| <= |b| then |a| else |b|;
    assert (a + x)[..n] == a[..n] && (b + y)[..n] == b[..n];
    if |a| <= |b| { EscapeCharPrefix(c, d); } else { EscapeCharPrefix(d, c); }
    assert (a + x)[|a|..] == x && (b + y)[|b|..] == y;
  }

  lemma EscapeCharHead(c: char)
    ensures EscapeChar(c) != "" && EscapeChar(c)[0] != '\"'
  {
  }

  lemma Assoc(a: string, b: string, c: string)
    ensures (a + b) + c == a + (b + c)
  {
  }

  lemma Uncons(c: char, a: string, x: string)
    ensures (([c] + a) + x)[0] == c && (([c] + a) + x)[1..] == a + x
  {
  }

  lemma EscapedStep(s: string, x: string)
    ensures var a := EscapedRest(s) + x;
            && a != ""
            && (s == "" ==> a[0] == '\"' && a[1..] == x)
            && (s != "" ==> a[0] != '\"' && a == EscapeChar(s[0]) + (EscapedRest(s[1..]) + x))
  {
    if s == "" {
      Uncons('\"', "", x);
    } else {
      EscapeCharHead(s[0]);
      Assoc(EscapeChar(s[0]), EscapedRest(s[1..]), x);
    }
  }

  lemma {:induction false} EscapedDelimited(s: string, x: string, t: string, y: string)
    requires EscapedRest(s) + x == EscapedRest(t) + y
    ensures s == t && x == y
  {
    EscapedStep(s, x);
    EscapedStep(t, y);
    if s != "" {
      EscapeCharDelimited(s[0], EscapedRest(s[1..]) + x, t[0], EscapedRest(t[1..]) + y);
      EscapedDelimited(s[1..], x, t[1..], y);
      assert s == [s[0]] + s[1..] && t == [t[0]] + t[1..];
    }
  }

  lemma JsonStringDelimited(s: string, x: string, t: string, y: string)
    requires JsonString(s) + x == JsonString(t) + y
    ensures s == t && x == y
  {
    Uncons('\"', EscapedRest(s), x);
    Uncons('\"', EscapedRest(t), y);
    EscapedDelimited(s, x, t, y);
  }

  // ---- values ----

  /** The first character of a text tells the kind of the value. */
  function Kind(v: Json): nat {
    match v
    case Null => 0
    case Bool(b) => if b then 1 else 2
    case Int(_) => 3
    case Float(_) => 4
    case Str(_) => 5
    case List(_) => 6
    case Obj(_) => 7
  }

  lemma HeadTellsKind(f: FloatText, v: Json)
    requires !v.Float?
    ensures CanonicalJson(f, v) != ""
    ensures var c := CanonicalJson(f, v)[0];
            && c != ']' && c != '}' && c != ','
            && (Kind(v) == 0 <==> c == 'n') && (Kind(v) == 1 <==> c == 't') && (Kind(v) == 2 <==> c == 'f')
            && (Kind(v) == 3 <==> c == '-' || IsDigit(c)) && (Kind(v) == 5 <==> c == '\"')
            && (Kind(v) == 6 <==> c == '[') && (Kind(v) == 7 <==> c == '{')
  {
  }

  ghost predicate Delimits(x: string) { x == "" || !IsDigit(x[0]) }

  /** Whenever both texts are followed by anything but a digit, they end at the same place. */
  ghost predicate Separable(p: string, q: string) {
    forall u, v | Delimits(u) && Delimits(v) && p + u == q + v :: p == q
  }

  ghost predicate OpensPart(p: string, close: char) {
    p != "" && p[0] != ',' && p[0] != close
  }

  lemma {:induction false} JoinTailDelimited(
      p: seq<string>, x: string, q: seq<string>, y: string, close: char)
    requires !IsDigit(close) && close != ','
    requires forall i | 0 <= i < |p| && i < |q| :: Separable(p[i], q[i])
    requires JoinTail(p, ',') + ([close] + x) == JoinTail(q, ',') + ([close] + y)
    ensures p == q && x == y
  {
    TailDelimits(p, x, close);
    TailDelimits(q, y, close);
    if p != [] && q != [] {
      var u := JoinTail(p[1..], ',') + ([close] + x);
      var v := JoinTail(q[1..], ',') + ([close] + y);
      PartDelimited(p[0], u, q[0], v, p[1..], x, q[1..], y, close);
      JoinTailDelimited(p[1..], x, q[1..], y, close);
      assert p == [p[0]] + p[1..] && q == [q[0]] + q[1..];
    }
  }

  lemma PartDelimited(
      a: string, u: string, b: string, v: string,
      p: seq<string>, x: string, q: seq<string>, y: string, close: char)
    requires !IsDigit(close) && close != ',' && Separable(a, b)
    requires u == JoinTail(p, ',') + ([close] + x) && v == JoinTail(q, ',') + ([close] + y)
    requires a + u == b + v
    ensures a == b && u == v
  {
    TailDelimits(p, x, close);
    TailDelimits(q, y, close);
    assert (a + u)[|a|..] == u && (b + v)[|b|..] == v;
  }

  lemma TailDelimits(p: seq<string>, x: string, close: char)
    requires !IsDigit(close) && close != ','
    ensures var s := JoinTail(p, ',') + ([close] + x);
            && Delimits(s) && s != ""
            && (p == [] ==> s[0] == close && s[1..] == x)
            && (p != [] ==> s[0] == ',' && s[1..] == p[0] + (JoinTail(p[1..], ',') + ([close] + x)))
  {
    if p == [] { assert JoinTail(p, ',') + ([close] + x) == [close] + x; }
  }

  lemma JoinHead(p: seq<string>, x: string, close: char)
    requires p != [] ==> OpensPart(p[0], close)
    ensures var s := Join(p, ',') + ([close] + x);
            && s != ""
            && (p == [] ==> s[0] == close && s[1..] == x)
            && (p != [] ==> s[0] != close && s == p[0] + (JoinTail(p[1..], ',') + ([close] + x)))
  {
    if p == [] { assert Join(p, ',') + ([close] + x) == [close] + x; }
  }

  /** A closed, comma-separated list of separable parts can be taken apart in one way. */
  lemma JoinDelimited(p: seq<string>, x: string, q: seq<string>, y: string, close: char)
    requires !IsDigit(close) && close != ','
    requires forall i | 0 <= i < |p| && i < |q| :: Separable(p[i], q[i])
    requires forall i | 0 <= i < |p| :: OpensPart(p[i], close)
    requires forall i | 0 <= i < |q| :: OpensPart(q[i], close)
    requires Join(p, ',') + ([close] + x) == Join(q, ',') + ([close] + y)
    ensures p == q && x == y
  {
    JoinHead(p, x, close);
    JoinHead(q, y, close);
    if p != [] && q != [] {
      var u := JoinTail(p[1..], ',') + ([close] + x);
      var v := JoinTail(q[1..], ',') + ([close] + y);
      PartDelimited(p[0], u, q[0], v, p[1..], x, q[1..], y, close);
      JoinTailDelimited(p[1..], x, q[1..], y, close);
      assert p == [p[0]] + p[1..] && q == [q[0]] + q[1..];
    }
  }

  lemma {:induction false} ItemTextAt(f: FloatText, items: seq<Json>, i: nat)
    requires i < |items|
    ensures ItemTexts(f, items)[i] == CanonicalJson(f, items[i])
  {
    if i > 0 { ItemTextAt(f, items[1..], i - 1); }
  }

  lemma {:induction false} FieldTextAt(f: FloatText, v: Json, keys: seq<string>, i: nat)
    requires v.Obj? && (forall k | k in keys :: k in v.fields) && i < |keys|
    ensures FieldTexts(f, v, keys)[i] == FieldText(keys[i], CanonicalJson(f, v.fields[keys[i]]))
  {
    if i > 0 { FieldTextAt(f, v, keys[1..], i - 1); }
  }

  /** A text followed by anything but a digit determines the value and where it ends. */
  lemma {:induction false} ValueDelimited(f: FloatText, v: Json, x: string, w: Json, y: string)
    requires FloatFree(v) && FloatFree(w) && Delimits(x) && Delimits(y)
    requires CanonicalJson(f, v) + x == CanonicalJson(f, w) + y
    ensures v == w && x == y
    decreases v, 1
  {
    var s, t := CanonicalJson(f, v), CanonicalJson(f, w);
    HeadTellsKind(f, v);
    HeadTellsKind(f, w);
    assert s[0] == (s + x)[0] == (t + y)[0] == t[0];
    assert s == t ==> (s + x)[|s|..] == x && (t + y)[|t|..] == y;
    assert Kind(v) == Kind(w);
    if v.Int? {
      OfIntDelimited(v.n, x, w.n, y);
    } else if v.Str? {
      JsonStringDelimited(v.s, x, w.s, y);
    } else if v.List? {
      ItemsDelimited(f, v, x, w, y);
    } else if v.Obj? {
      FieldsDelimited(f, v, x, w, y);
    }
  }

  lemma {:induction false} ItemsDelimited(f: FloatText, v: Json, x: string, w: Json, y: string)
    requires v.List? && w.List? && FloatFree(v) && FloatFree(w)
    requires CanonicalJson(f, v) + x == CanonicalJson(f, w) + y
    ensures v == w && x == y
    decreases v, 0
  {
    var p, q := ItemTexts(f, v.items), ItemTexts(f, w.items);
    forall i | 0 <= i < |p| ensures OpensPart(p[i], ']') {
      ItemTextAt(f, v.items, i);
      assert v.items[i] in v.items;
      HeadTellsKind(f, v.items[i]);
    }
    forall i | 0 <= i < |q| ensures OpensPart(q[i], ']') {
      ItemTextAt(f, w.items, i);
      assert w.items[i] in w.items;
      HeadTellsKind(f, w.items[i]);
    }
    forall i, a, b | 0 <= i < |p| && i < |q| && Delimits(a) && Delimits(b) && p[i] + a == q[i] + b
      ensures p[i] == q[i]
    {
      ItemTextAt(f, v.items, i);
      ItemTextAt(f, w.items, i);
      ValueDelimited(f, v.items[i], a, w.items[i], b);
    }
    Enclosed('[', Join(p, ','), ']', x);
    Enclosed('[', Join(q, ','), ']', y);
    JoinDelimited(p, x, q, y, ']');
    forall i | 0 <= i < |v.items| ensures v.items[i] == w.items[i] {
      ItemTextAt(f, v.items, i);
      ItemTextAt(f, w.items, i);
      assert p[i] + "" == q[i] + "";
      ValueDelimited(f, v.items[i], "", w.items[i], "");
    }
  }

  lemma FieldTextDelimited(j: string, a: string, x: string, k: string, b: string, y: string)
    requires FieldText(j, a) + x == FieldText(k, b) + y
    ensures j == k && a + x == b + y
  {
    Assoc(JsonString(j), [':'] + a, x);
    Assoc(JsonString(k), [':'] + b, y);
    JsonStringDelimited(j, ([':'] + a) + x, k, ([':'] + b) + y);
    Uncons(':', a, x);
    Uncons(':', b, y);
  }

  lemma {:induction false} FieldDelimited(
      f: FloatText, v: Json, j: string, a: string, w: Json, k: string, b: string)
    requires v.Obj? && w.Obj? && j in v.fields && k in w.fields && FloatFree(v) && FloatFree(w)
    requires Delimits(a) && Delimits(b)
    requires FieldText(j, CanonicalJson(f, v.fields[j])) + a == FieldText(k, CanonicalJson(f, w.fields[k])) + b
    ensures j == k && v.fields[j] == w.fields[k]
    decreases v, 0, 0
  {
    FieldTextDelimited(j, CanonicalJson(f, v.fields[j]), a, k, CanonicalJson(f, w.fields[k]), b);
    ValueDelimited(f, v.fields[j], a, w.fields[k], b);
  }

  /** The fields of an object as printed. */
  function SortedFieldTexts(f: FloatText, v: Json): seq<string>
    requires v.Obj?
  {
    FieldTexts(f, v, SortedKeys(v.fields.Keys))
  }

  lemma {:induction false} FieldsSeparable(f: FloatText, v: Json, w: Json, i: nat)
    requires v.Obj? && w.Obj? && FloatFree(v) && FloatFree(w)
    requires i < |SortedFieldTexts(f, v)| && i < |SortedFieldTexts(f, w)|
    ensures Separable(SortedFieldTexts(f, v)[i], SortedFieldTexts(f, w)[i])
    decreases v, 0, 1
  {
    var ks, ls := SortedKeys(v.fields.Keys), SortedKeys(w.fields.Keys);
    FieldTextAt(f, v, ks, i);
    FieldTextAt(f, w, ls, i);
    hide CanonicalJson, FieldTexts, FieldText, SortedKeys, FloatFree;
    var p, q := SortedFieldTexts(f, v)[i], SortedFieldTexts(f, w)[i];
    forall a, b | Delimits(a) && Delimits(b) && p + a == q + b ensures p == q {
      FieldDelimited(f, v, ks[i], a, w, ls[i], b);
    }
  }

  lemma {:induction false} FieldsDetermine(f: FloatText, v: Json, w: Json)
    requires v.Obj? && w.Obj? && FloatFree(v) && FloatFree(w)
    requires SortedFieldTexts(f, v) == SortedFieldTexts(f, w)
    ensures v == w
    decreases v, 0, 1
  {
    var ks, ls := SortedKeys(v.fields.Keys), SortedKeys(w.fields.Keys);
    hide CanonicalJson, FieldText, FloatFree;
    forall i | 0 <= i < |ks| ensures i < |ls| && ks[i] == ls[i] && v.fields[ks[i]] == w.fields[ls[i]] {
      FieldTextAt(f, v, ks, i);
      FieldTextAt(f, w, ls, i);
      FieldDelimited(f, v, ks[i], "", w, ls[i], "");
    }
    SameFields(v.fields, ks, w.fields, ls);
  }

  lemma {:induction false} FieldsDelimited(f: FloatText, v: Json, x: string, w: Json, y: string)
    requires v.Obj? && w.Obj? && FloatFree(v) && FloatFree(w)
    requires CanonicalJson(f, v) + x == CanonicalJson(f, w) + y
    ensures v == w && x == y
    decreases v, 0, 2
  {
    ObjText(f, v, x);
    ObjText(f, w, y);
    var p, q := SortedFieldTexts(f, v), SortedFieldTexts(f, w);
    hide *;
    forall i | 0 <= i < |p| && i < |q| ensures Separable(p[i], q[i]) { FieldsSeparable(f, v, w, i); }
    JoinDelimited(p, x, q, y, '}');
    FieldsDetermine(f, v, w);
  }

  lemma ObjText(f: FloatText, v: Json, x: string)
    requires v.Obj?
    ensures (CanonicalJson(f, v) + x)[1..] == Join(SortedFieldTexts(f, v), ',') + (['}'] + x)
    ensures forall i | 0 <= i < |SortedFieldTexts(f, v)| :: OpensPart(SortedFieldTexts(f, v)[i], '}')
  {
    var texts := SortedFieldTexts(f, v);
    Enclosed('{', Join(texts, ','), '}', x);
    forall i | 0 <= i < |texts| ensures OpensPart(texts[i], '}') {
      FieldTextAt(f, v, SortedKeys(v.fields.Keys), i);
    }
  }

  lemma SameFields(a: Fields, ks: seq<string>, b: Fields, ls: seq<string>)
    requires (forall k :: k in ks <==> k in a) && (forall k :: k in ls <==> k in b)
    requires |ks| == |ls|
    requires forall i | 0 <= i < |ks| :: ks[i] == ls[i] && a[ks[i]] == b[ls[i]]
    ensures a == b
  {
    assert ks == ls;
    forall k ensures k in a <==> k in b { assert k in ks <==> k in ls; }
    forall k | k in a ensures k in b && a[k] == b[k] {
      assert k in ks;
    }
  }

  lemma Enclosed(open: char, body: string, close: char, x: string)
    ensures (([open] + body + [close]) + x)[1..] == body + ([close] + x)
  {
  }

  /** Equal canonical texts come from equal values. */
  lemma CanonicalJsonInjective(f: FloatText, v: Json, w: Json)
    requires FloatFree(v) && FloatFree(w)
    ensures CanonicalJson(f, v) == CanonicalJson(f, w) <==> v == w
  {
    if CanonicalJson(f, v) == CanonicalJson(f, w) {
      assert CanonicalJson(f, v) + "" == CanonicalJson(f, w) + "";
      ValueDelimited(f, v, "", w, "");
    }
  }

  /** With floats the printer is not injective: an integral float prints as the integer. */
  lemma IntegralFloatCollides(f: FloatText, n: int)
    requires -1_000_000_000_000_000_000_000 < n < 1_000_000_000_000_000_000_000
    ensures CanonicalJson(f, Float(n as real)) == CanonicalJson(f, Int(n))
  {
  }

  lemma FieldTextsAre(f: FloatText, value: Fields, texts: seq<string>)
    requires var keys := SortedKeys(value.Keys);
             && |texts| == |keys|
             && forall i | 0 <= i < |keys| :: texts[i] == FieldText(keys[i], CanonicalJson(f, value[keys[i]]))
    ensures ['{'] + Join(texts, ',') + ['}'] == CanonicalJson(f, Obj(value))
  {
    var keys := SortedKeys(value.Keys);
    var expected := FieldTexts(f, Obj(value), keys);
    forall i | 0 <= i < |keys| ensures texts[i] == expected[i] {
      FieldTextAt(f, Obj(value), keys, i);
    }
    assert texts == expected;
  }

  /** The mapping printer, run over the keys in whatever order they were inserted. */
  method CanonicalMapping(f: FloatText, value: Fields, insertionOrder: seq<string>) returns (text: string)
    requires forall i, j | 0 <= i < j < |insertionOrder| :: insertionOrder[i] != insertionOrder[j]
    requires forall k :: k in insertionOrder <==> k in value.Keys
    ensures text == CanonicalJson(f, Obj(value))
  {
    hide CanonicalJson, FieldText, SortKeys, SortedKeys;
    var fields: seq<string> := [];
    var keys := SortKeys(insertionOrder);
    SortKeysIgnoresOrder(insertionOrder, value.Keys);
    for i := 0 to |keys|
      invariant |fields| == i
      invariant forall j | 0 <= j < i :: fields[j] == FieldText(keys[j], CanonicalJson(f, value[keys[j]]))
    {
      fields := fields + [FieldText(keys[i], CanonicalJson(f, value[keys[i]]))];
    }
    FieldTextsAre(f, value, fields);
    text := ['{'] + Join(fields, ',') + ['}'];
  }
}
