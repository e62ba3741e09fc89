/** The token counter: a bounded cache in front of the provider's counting endpoint, shared by
    calls that overlap while they wait for it. */
module Counting {
  import opened Options
  import opened JsonValues
  import opened Texts

  type Headers = map<string, string>

  const AUTH_HEADER_KEYS := {"x-api-key", "authorization", "anthropic-version", "anthropic-beta"}
  const COUNT_KEYS := {"model", "messages", "system", "tools", "tool_choice", "thinking"}

  /** The identity headers of a request that are present and not empty. */
  function RelevantAuthHeaders(headers: Headers): Headers {
    map key | key in AUTH_HEADER_KEYS && key in headers && headers[key] != "" :: headers[key]
  }

  /** What the counter takes from its runtime: the JSON reader and writer, and the digest. */
  datatype Runtime = Runtime(loads: string -> Option<Json>, dumps: Fields -> string, digest: string -> string)

  // ---- the posted bytes ----

  /** The fields the endpoint accepts. */
  function Projected(data: Fields): Fields { map k | k in data && k in COUNT_KEYS :: data[k] }

  /** The bytes to post; `None` when the payload is JSON but not an object. */
  function StripForCount(rt: Runtime, payload: string): Option<string> {
    match rt.loads(payload)
    case None => Some(payload)
    case Some(Obj(data)) => Some(rt.dumps(Projected(data)))
    case Some(_) => None
  }

  /** Payloads that differ only in fields the endpoint rejects are posted alike. */
  lemma OnlyCountedFieldsMatter(rt: Runtime, a: string, b: string)
    requires rt.loads(a).Some? && rt.loads(a).value.Obj? && rt.loads(b).Some? && rt.loads(b).value.Obj?
    requires forall k | k in COUNT_KEYS :: Lookup(rt.loads(a).value.fields, k) == Lookup(rt.loads(b).value.fields, k)
    ensures StripForCount(rt, a) == StripForCount(rt, b)
  {
    var x, y := rt.loads(a).value.fields, rt.loads(b).value.fields;
    forall k | k in COUNT_KEYS ensures (k in x <==> k in y) && (k in x ==> x[k] == y[k]) {
      assert Lookup(x, k) == Lookup(y, k);
    }
    assert Projected(x) == Projected(y);
  }

  /** For a writer that the reader undoes: the posted bytes hold the six counted fields as the
      payload does, and nothing else. */
  lemma PostedHoldsTheCounted(rt: Runtime, payload: string, key: string)
    requires forall fields :: rt.loads(rt.dumps(fields)) == Some(Obj(fields))
    requires rt.loads(payload).Some? && rt.loads(payload).value.Obj?
    ensures var data, posted := rt.loads(payload).value.fields, StripForCount(rt, payload);
            && posted.Some? && rt.loads(posted.value).Some? && rt.loads(posted.value).value.Obj?
            && Lookup(rt.loads(posted.value).value.fields, key) ==
                 if key in {"model", "messages", "system", "tools", "tool_choice", "thinking"} then Lookup(data, key)
                 else None
  {
    var data := rt.loads(payload).value.fields;
    assert rt.loads(rt.dumps(Projected(data))) == Some(Obj(Projected(data)));
  }

  /** Hence two payloads are posted alike exactly when they agree on those fields. */
  lemma PostedAlikeExactly(rt: Runtime, a: string, b: string)
    requires forall fields :: rt.loads(rt.dumps(fields)) == Some(Obj(fields))
    requires rt.loads(a).Some? && rt.loads(a).value.Obj? && rt.loads(b).Some? && rt.loads(b).value.Obj?
    ensures StripForCount(rt, a) == StripForCount(rt, b) <==>
      forall k | k in {"model", "messages", "system", "tools", "tool_choice", "thinking"} ::
        Lookup(rt.loads(a).value.fields, k) == Lookup(rt.loads(b).value.fields, k)
  {
    var counted := {"model", "messages", "system", "tools", "tool_choice", "thinking"};
    forall k | k in counted
      ensures StripForCount(rt, a) == StripForCount(rt, b) ==>
        Lookup(rt.loads(a).value.fields, k) == Lookup(rt.loads(b).value.fields, k)
    {
      PostedHoldsTheCounted(rt, a, k);
      PostedHoldsTheCounted(rt, b, k);
    }
    if forall k | k in counted :: Lookup(rt.loads(a).value.fields, k) == Lookup(rt.loads(b).value.fields, k) {
      OnlyCountedFieldsMatter(rt, a, b);
    }
  }

  // ---- the cache key ----

  function IdentityText(keys: seq<string>, auth: Headers): string
    requires forall k | k in keys :: k in auth
  {
    if keys == [] then ""
    else
      assert keys[0] in keys;
      keys[0] + ("=" + (auth[keys[0]] + ("\0" + IdentityText(keys[1..], auth))))
  }

  /** The text that is digested: the identity in key order, then the posted bytes. */
  function KeyText(stripped: string, auth: Headers): string { Identity(auth) + ("|" + stripped) }

  function Identity(auth: Headers): string { IdentityText(SortedKeys(auth.Keys), auth) }

  function CacheKey(rt: Runtime, stripped: string, auth: Headers): string { rt.digest(KeyText(stripped, auth)) }

  /** Header names as they occur, and values without NUL. */
  predicate PlainHeaders(auth: Headers) {
    forall k | k in auth :: '=' !in k && !StartsWith(k, "|") && '\0' !in auth[k]
  }

  lemma CutAtSeparator(a: string, x: string, b: string, y: string, sep: char)
    requires sep !in a && sep !in b && a + ([sep] + x) == b + ([sep] + y)
    ensures a == b && x == y
  {
    var s := a + ([sep] + x);
    assert s[|a|] == sep && s[|b|] == sep;
    assert |a| == |b|;
    assert a == s[..|a|] && b == s[..|b|] && x == s[|a| + 1..] && y == s[|b| + 1..];
  }

  lemma {:induction false} IdentityDelimited(
      ks: seq<string>, a: Headers, p: string, ls: seq<string>, b: Headers, q: string)
    requires (forall k | k in ks :: k in a) && (forall k | k in ls :: k in b) && PlainHeaders(a) && PlainHeaders(b)
    requires IdentityText(ks, a) + ("|" + p) == IdentityText(ls, b) + ("|" + q)
    ensures ks == ls && p == q && forall k | k in ks :: a[k] == b[k]
  {
    FirstPair(ks, a, p);
    FirstPair(ls, b, q);
    if ks == [] || ls == [] {
      assert p == ("|" + p)[1..] && q == ("|" + q)[1..];
    } else {
      assert ks[0] in ks && ls[0] in ls;
      var x, y := IdentityText(ks[1..], a) + ("|" + p), IdentityText(ls[1..], b) + ("|" + q);
      CutAtSeparator(ks[0], a[ks[0]] + ("\0" + x), ls[0], b[ls[0]] + ("\0" + y), '=');
      CutAtSeparator(a[ks[0]], x, b[ls[0]], y, '\0');
      IdentityDelimited(ks[1..], a, p, ls[1..], b, q);
      assert ks == [ks[0]] + ks[1..] && ls == [ls[0]] + ls[1..];
    }
  }

  lemma FirstPair(ks: seq<string>, a: Headers, p: string)
    requires (forall k | k in ks :: k in a) && PlainHeaders(a)
    ensures ks == [] ==> IdentityText(ks, a) + ("|" + p) == "|" + p
    ensures ks != [] ==>
      && ks[0] in a && IdentityText(ks, a) + ("|" + p)
           == ks[0] + ("=" + (a[ks[0]] + ("\0" + (IdentityText(ks[1..], a) + ("|" + p)))))
      && (IdentityText(ks, a) + ("|" + p))[0] != '|'
  {
    if ks != [] {
      var k, rest := ks[0], IdentityText(ks[1..], a);
      assert k in ks && !StartsWith(k, "|");
      PairThen(k, a[k], rest, "|" + p);
    }
  }

  lemma Associates(a: string, b: string, c: string)
    ensures (a + b) + c == a + (b + c)
  {
  }

  /** What follows one pair can be appended inside. */
  lemma PairThen(k: string, v: string, rest: string, tail: string)
    ensures (k + ("=" + (v + ("\0" + rest)))) + tail == k + ("=" + (v + ("\0" + (rest + tail))))
    ensures !StartsWith(k, "|") ==> (k + ("=" + (v + ("\0" + (rest + tail)))))[0] != '|'
  {
    Associates("\0", rest, tail);
    Associates(v, "\0" + rest, tail);
    Associates("=", v + ("\0" + rest), tail);
    Associates(k, "=" + (v + ("\0" + rest)), tail);
    assert k != "" && k[0] == '|' ==> "|" <= k;
  }

  // ---- which identities can share a digested text ----

  /** The identity texts, up to where the posted bytes begin, are one inside the other. */
  predicate Comparable(a: Headers, b: Headers) {
    Identity(a) + "|" <= Identity(b) + "|" || Identity(b) + "|" <= Identity(a) + "|"
  }

  lemma KeyTextSplits(p: string, a: Headers)
    ensures KeyText(p, a) == (Identity(a) + "|") + p
  {
    Associates(Identity(a), "|", p);
  }

  /** Two identities share a digested text for some posted bytes exactly when their texts are
      comparable, and for the same posted bytes exactly when their texts are equal. */
  lemma KeyTextsMeetExactly(a: Headers, b: Headers)
    ensures (exists p, q :: KeyText(p, a) == KeyText(q, b)) <==> Comparable(a, b)
    ensures forall p :: KeyText(p, a) == KeyText(p, b) <==> Identity(a) == Identity(b)
  {
    hide Identity, KeyText;
    var x, y := Identity(a) + "|", Identity(b) + "|";
    forall p, q
      ensures KeyText(p, a) == KeyText(q, b) ==> x <= y || y <= x
      ensures KeyText(p, a) == KeyText(p, b) <==> Identity(a) == Identity(b)
    {
      KeyTextSplits(p, a);
      KeyTextSplits(q, b);
      KeyTextSplits(p, b);
      SameTailSameHead(x, y, p);
      SameTailSameHead(Identity(a), Identity(b), "|");
      if x + p == y + q { HeadsAreComparable(x, p, y, q); }
    }
    if x <= y {
      Meet(a, b);
    } else if y <= x {
      Meet(b, a);
    }
  }

  /** An identity whose text ends where a longer one goes on shares the rest of it. */
  lemma Meet(a: Headers, b: Headers)
    requires Identity(a) + "|" <= Identity(b) + "|"
    ensures KeyText((Identity(b) + "|")[|Identity(a)| + 1..], a) == KeyText("", b)
  {
    hide Identity, KeyText;
    var x, y := Identity(a) + "|", Identity(b) + "|";
    KeyTextSplits(y[|x|..], a);
    KeyTextSplits("", b);
    assert x + y[|x|..] == y && y + "" == y;
  }

  lemma HeadsAreComparable(x: string, p: string, y: string, q: string)
    requires x + p == y + q
    ensures x <= y || y <= x
  {
    assert (x + p)[..|x|] == x && (y + q)[..|y|] == y;
  }

  lemma SameTailSameHead(x: string, y: string, p: string)
    ensures x + p == y + p <==> x == y
  {
    if x + p == y + p {
      assert |x| == |y| && (x + p)[..|x|] == x && (y + p)[..|y|] == y;
    }
  }

  /** The digested text determines the identity and the posted bytes exactly when the texts
      of different identities are not comparable. */
  lemma KeysTellApartExactly(a: Headers, b: Headers)
    ensures (forall p, q | KeyText(p, a) == KeyText(q, b) :: p == q && a == b) <==> (Comparable(a, b) ==> a == b)
  {
    hide Identity, KeyText, Comparable;
    KeyTextsMeetExactly(a, b);
    forall p, q ensures KeyText(p, a) == KeyText(q, a) ==> p == q {
      KeyTextSplits(p, a);
      KeyTextSplits(q, a);
      SameHeadSameTail(Identity(a) + "|", p, q);
    }
  }

  lemma SameHeadSameTail(x: string, p: string, q: string)
    ensures x + p == x + q <==> p == q
  {
    assert (x + p)[|x|..] == p && (x + q)[|x|..] == q;
  }

  /** Plain identities are comparable only when they are the same. */
  lemma PlainNeverMeet(a: Headers, b: Headers)
    requires PlainHeaders(a) && PlainHeaders(b)
    ensures Comparable(a, b) <==> a == b
  {
    hide Identity, PlainHeaders, KeyText;
    KeyTextsMeetExactly(a, b);
    if Comparable(a, b) {
      var p, q :| KeyText(p, a) == KeyText(q, b);
      KeyTextInjective(p, a, q, b);
    }
    hide Comparable;
  }

  /** The digested text tells the identity and the posted bytes apart. */
  lemma KeyTextInjective(p: string, a: Headers, q: string, b: Headers)
    requires PlainHeaders(a) && PlainHeaders(b) && KeyText(p, a) == KeyText(q, b)
    ensures p == q && a == b
  {
    hide SortedKeys, PlainHeaders;
    IdentityDelimited(SortedKeys(a.Keys), a, p, SortedKeys(b.Keys), b, q);
    forall k ensures k in a <==> k in b { assert k in SortedKeys(a.Keys) <==> k in SortedKeys(b.Keys); }
    assert forall k | k in a :: k in SortedKeys(a.Keys);
  }

  /** The filter keeps the four identity headers that have a value, as they are. */
  lemma RelevantAreTheFour(h: Headers, key: string)
    ensures key in RelevantAuthHeaders(h) <==>
      key in {"x-api-key", "authorization", "anthropic-version", "anthropic-beta"} && key in h && h[key] != ""
    ensures key in RelevantAuthHeaders(h) ==> RelevantAuthHeaders(h)[key] == h[key]
  {
  }

  /** The names that the filter keeps are plain, so only a NUL inside a kept value is not. */
  lemma RelevantArePlain(h: Headers)
    ensures PlainHeaders(RelevantAuthHeaders(h))
      <==> forall k | k in RelevantAuthHeaders(h) :: '\0' !in RelevantAuthHeaders(h)[k]
  {
    forall k | k in AUTH_HEADER_KEYS ensures '=' !in k && !StartsWith(k, "|") { KeyIsPlain(k); }
  }

  lemma KeyIsPlain(k: string)
    requires k in AUTH_HEADER_KEYS
    ensures '=' !in k && !StartsWith(k, "|")
  {
    match k {
      case "x-api-key" => assert k[0] == 'x';
      case "authorization" => assert k[0] == 'a';
      case "anthropic-version" => assert k[0] == 'a';
      case _ => assert k == "anthropic-beta" && k[0] == 'a';
    }
  }

  /** For identities filtered from any two requests without NUL in the kept values, the
      digested texts are the same exactly when the posted bytes and the identities are. */
  lemma RelevantKeysTellApart(p: string, g: Headers, q: string, h: Headers)
    requires forall k | k in RelevantAuthHeaders(g) :: '\0' !in RelevantAuthHeaders(g)[k]
    requires forall k | k in RelevantAuthHeaders(h) :: '\0' !in RelevantAuthHeaders(h)[k]
    ensures KeyText(p, RelevantAuthHeaders(g)) == KeyText(q, RelevantAuthHeaders(h))
      <==> p == q && RelevantAuthHeaders(g) == RelevantAuthHeaders(h)
  {
    RelevantArePlain(g);
    RelevantArePlain(h);
    hide RelevantAuthHeaders, PlainHeaders, KeyText;
    var a, b := RelevantAuthHeaders(g), RelevantAuthHeaders(h);
    if KeyText(p, a) == KeyText(q, b) { KeyTextInjective(p, a, q, b); }
  }

  /** Other header names would not do: a name holding `=`, or starting with `|`, can stand for
      something else. */
  lemma NamesCollide(k: string, l: string, v: string, p: string)
    ensures KeyText(p, map[k + ("=" + l) := v]) == KeyText(p, map[k := l + ("=" + v)])
    ensures KeyText(p, map["|" + k := v]) == KeyText(k + ("=" + (v + ("\0" + ("|" + p)))), map[])
    ensures Comparable(map[k + ("=" + l) := v], map[k := l + ("=" + v)]) && Comparable(map["|" + k := v], map[])
  {
    var z := "\0" + "";
    OneKey(map[k + ("=" + l) := v], k + ("=" + l));
    OneKey(map[k := l + ("=" + v)], k);
    Associates(k, "=" + l, "=" + (v + z));
    Associates("=", l, "=" + (v + z));
    Associates(l, "=" + v, z);
    Associates("=", v, z);
    OneKey(map["|" + k := v], "|" + k);
    Associates("|", k, "=" + (v + z));
    PairThen("|" + k, v, "", "|" + p);
    Associates("|", k, "=" + (v + ("\0" + ("|" + p))));
    NoKeys();
    assert "" + ("|" + p) == "|" + p;
    hide Identity;
    var rest := k + ("=" + (v + ("\0" + ("|" + p))));
    assert "" + ("|" + rest) == "|" + rest;
    hide Comparable;
    KeyTextsMeetExactly(map[k + ("=" + l) := v], map[k := l + ("=" + v)]);
    KeyTextsMeetExactly(map["|" + k := v], map[]);
  }

  lemma NoKeys()
    ensures Identity(map[]) == ""
  {
    var none: Headers := map[];
    assert none.Keys == {};
  }

  /** A NUL inside a value lets two identities share a key. */
  lemma NulCollides(v: string, w: string)
    ensures var a := map["authorization" := v + ("\0" + ("x-api-key" + ("=" + w)))];
            var b := map["authorization" := v, "x-api-key" := w];
            a != b && Comparable(a, b) && forall stripped :: KeyText(stripped, a) == KeyText(stripped, b)
  {
    var a := map["authorization" := v + ("\0" + ("x-api-key" + ("=" + w)))];
    var b := map["authorization" := v, "x-api-key" := w];
    assert "x-api-key" in b && "x-api-key" !in a;
    assert Le("authorization", "x-api-key") by { assert "authorization"[0] == 'a' && "x-api-key"[0] == 'x'; }
    OneKey(a, "authorization");
    TwoKeys(b, "authorization", "x-api-key");
    SharedIdentity("authorization", v, "x-api-key", w);
    hide Identity;
  }

  /** Two values of one header share a digested text only when one of them, closed by a NUL and
      the bar, begins the other: any other NUL is harmless. */
  lemma OneHeaderMeets(k: string, v: string, w: string)
    ensures Comparable(map[k := v], map[k := w]) <==> v + "\0|" <= w + "\0|" || w + "\0|" <= v + "\0|"
  {
    OneKey(map[k := v], k);
    OneKey(map[k := w], k);
    hide Identity;
    var head, x, y := k + "=", v + "\0|", w + "\0|";
    assert Identity(map[k := v]) + "|" == head + x && Identity(map[k := w]) + "|" == head + y;
    HeadsCancel(head, x, y);
    HeadsCancel(head, y, x);
  }

  lemma HeadsCancel(head: string, x: string, y: string)
    ensures head + x <= head + y <==> x <= y
  {
    var a, b := head + x, head + y;
    assert a[|head|..] == x && b[|head|..] == y;
    if a <= b {
      assert b[..|a|] == a;
      assert y[..|x|] == b[|head|..|a|] == x;
    }
    if x <= y { assert y[..|x|] == x && b[..|a|] == head + y[..|x|]; }
  }

  lemma SharedIdentity(k: string, v: string, l: string, w: string)
    ensures k + ("=" + ((v + ("\0" + (l + ("=" + w)))) + ("\0" + "")))
         == k + ("=" + (v + ("\0" + (l + ("=" + (w + ("\0" + "")))))))
  {
    var z := "\0" + "";
    Associates(v, "\0" + (l + ("=" + w)), z);
    Associates("\0", l + ("=" + w), z);
    Associates(l, "=" + w, z);
    Associates("=", w, z);
  }

  lemma PairText(keys: seq<string>, auth: Headers)
    requires keys != [] && forall k | k in keys :: k in auth
    ensures keys[0] in auth && forall k | k in keys[1..] :: k in keys
    ensures IdentityText(keys, auth)
         == keys[0] + ("=" + (auth[keys[0]] + ("\0" + IdentityText(keys[1..], auth))))
  {
    assert keys[0] in keys;
  }

  lemma OneKey(a: Headers, k: string)
    requires a.Keys == {k}
    ensures Identity(a) == k + ("=" + (a[k] + ("\0" + "")))
  {
    var keys := [k];
    IncreasingUnique(SortedKeys(a.Keys), keys);
    PairText(keys, a);
    assert keys[1..] == [] && IdentityText([], a) == "";
    hide SortedKeys, IdentityText;
  }

  lemma TwoKeys(b: Headers, k: string, l: string)
    requires b.Keys == {k, l} && Le(k, l) && k != l
    ensures Identity(b) == k + ("=" + (b[k] + ("\0" + (l + ("=" + (b[l] + ("\0" + "")))))))
  {
    hide SortedKeys, Le;
    var keys, rest := [k, l], [l];
    IncreasingUnique(SortedKeys(b.Keys), keys);
    PairText(keys, b);
    PairText(rest, b);
    assert keys[1..] == rest && rest[1..] == [] && IdentityText([], b) == "";
    hide IdentityText;
  }
}
