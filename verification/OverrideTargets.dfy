/** The target grammar of overrides, and the shift from a position in the
    original request to its position after earlier removals. */
module OverrideTargets {
  import opened Options
  import opened Decimals
  import opened Texts

  function ToolTarget(name: string): string { "tool:" + name }
  function SystemTarget(index: int): string { "system:" + OfInt(index) }
  function ToolResultTarget(id: string): string { "toolresult:" + id }
  function SamplingTarget(field: string): string { "sampling:" + field }
  function ProviderExtrasTarget(key: string): string { "provider_extras:" + key }
  function MessageBlockTarget(msg: int, blk: int): string {
    "msg:" + OfInt(msg) + ":blk:" + OfInt(blk)
  }

  function ParsePrefixed(target: string, prefix: string): Option<string> {
    if StartsWith(target, prefix) then Some(target[|prefix|..]) else None
  }

  function ParsePrefixedInt(target: string, prefix: string): Option<int> {
    match ParsePrefixed(target, prefix)
    case None => None
    case Some(raw) => if IsIndexText(raw) then Some(ToInt(raw)) else None
  }

  function ParseToolName(target: string): Option<string> { ParsePrefixed(target, "tool:") }
  function ParseSystemIndex(target: string): Option<int> { ParsePrefixedInt(target, "system:") }
  function ParseToolResultId(target: string): Option<string> { ParsePrefixed(target, "toolresult:") }
  function ParseSamplingField(target: string): Option<string> { ParsePrefixed(target, "sampling:") }
  function ParseProviderExtrasKey(target: string): Option<string> {
    ParsePrefixed(target, "provider_extras:")
  }

  function ParseMessageTarget(target: string): Option<(int, int)> {
    var parts := Split(target, ':');
    if |parts| != 4 || parts[0] != "msg" || parts[2] != "blk" then None
    else if !IsIndexText(parts[1]) || !IsIndexText(parts[3]) then None
    else Some((ToInt(parts[1]), ToInt(parts[3])))
  }

  lemma PrefixedIsExact(target: string, prefix: string, value: string)
    ensures ParsePrefixed(target, prefix) == Some(value) <==> target == prefix + value
  {
    if StartsWith(target, prefix) { assert target == prefix + target[|prefix|..]; }
    if target == prefix + value { assert target[|prefix|..] == value; }
  }

  /** Each name parser accepts exactly what its printer writes. */
  lemma NameTargetsAreExact(target: string, value: string)
    ensures ParseToolName(target) == Some(value) <==> target == ToolTarget(value)
    ensures ParseToolResultId(target) == Some(value) <==> target == ToolResultTarget(value)
    ensures ParseSamplingField(target) == Some(value) <==> target == SamplingTarget(value)
    ensures ParseProviderExtrasKey(target) == Some(value) <==> target == ProviderExtrasTarget(value)
  {
    PrefixedIsExact(target, "tool:", value);
    PrefixedIsExact(target, "toolresult:", value);
    PrefixedIsExact(target, "sampling:", value);
    PrefixedIsExact(target, "provider_extras:", value);
  }

  /** The system parser accepts exactly what the printer writes, for every integer. */
  lemma SystemTargetIsExact(target: string, index: int)
    ensures ParseSystemIndex(target) == Some(index) <==> target == SystemTarget(index)
  {
    PrefixedIsExact(target, "system:", OfInt(index));
    PatternIsImage(OfInt(index), index);
    if StartsWith(target, "system:") {
      PatternIsImage(target[|"system:"|..], index);
    }
  }

  lemma IndexTextHasNoColon(s: string)
    requires IsIndexText(s)
    ensures ':' !in s
  {
    if s[0] == '-' { assert s == "-" + s[1..]; }
  }

  lemma SplitMessageTarget(a: string, b: string)
    requires ':' !in a && ':' !in b
    ensures Split("msg:" + a + ":blk:" + b, ':') == ["msg", a, "blk", b]
  {
    var tail := "blk" + [':'] + b;
    var rest := a + [':'] + tail;
    assert "msg:" + a + ":blk:" + b == "msg" + [':'] + rest;
    SplitHead("msg", rest, ':');
    SplitHead(a, tail, ':');
    SplitHead("blk", b, ':');
    SplitWhole(b, ':');
    hide Split;
  }

  /** The message parser accepts exactly what the printer writes, for every pair of integers. */
  lemma MessageTargetIsExact(target: string, msg: int, blk: int)
    ensures ParseMessageTarget(target) == Some((msg, blk)) <==> target == MessageBlockTarget(msg, blk)
  {
    PatternIsImage(OfInt(msg), msg);
    PatternIsImage(OfInt(blk), blk);
    IndexTextHasNoColon(OfInt(msg));
    IndexTextHasNoColon(OfInt(blk));
    SplitMessageTarget(OfInt(msg), OfInt(blk));
    if ParseMessageTarget(target) == Some((msg, blk)) {
      var parts := Split(target, ':');
      PatternIsImage(parts[1], msg);
      PatternIsImage(parts[3], blk);
      JoinSplit(target, ':');
      JoinSplit(MessageBlockTarget(msg, blk), ':');
      assert parts == ["msg", OfInt(msg), "blk", OfInt(blk)];
    }
  }

  /** An index less the number of removed indices before it. */
  function ShiftAfterRemovals(index: int, removed: set<int>): int {
    index - |set prior | prior in removed && prior < index|
  }

  function AdjustSystemIndex(index: int, removed: set<int>): int {
    ShiftAfterRemovals(index, removed)
  }

  function AdjustBlkIndex(msg: int, blk: int, removedBlk: map<int, set<int>>): Option<int> {
    var removed := if msg in removedBlk then removedBlk[msg] else {};
    if blk in removed then None else Some(ShiftAfterRemovals(blk, removed))
  }

  /** The items of `xs` whose original positions are not in `off`. */
  function Keep<T>(xs: seq<T>, off: set<int>): seq<T> {
    if xs == [] then []
    else
      var last := |xs| - 1;
      Keep(xs[..last], off) + if last in off then [] else [xs[last]]
  }

  /** The removals that hit an existing position. */
  function InRange(off: set<int>, n: nat): set<int> {
    set i | i in off && 0 <= i < n
  }

  lemma {:induction false} KeepLength<T>(xs: seq<T>, off: set<int>)
    ensures |Keep(xs, off)| == ShiftAfterRemovals(|xs|, InRange(off, |xs|))
  {
    var n := |xs|;
    var here := InRange(off, n);
    assert (set p | p in here && p < n) == here;
    if xs != [] {
      KeepLength(xs[..n - 1], off);
      var before := InRange(off, n - 1);
      assert (set p | p in before && p < n - 1) == before;
      assert here == before + if n - 1 in off then {n - 1} else {};
    }
  }

  lemma {:induction false} KeepPrefix<T>(xs: seq<T>, off: set<int>, i: nat)
    requires i <= |xs|
    ensures Keep(xs[..i], off) <= Keep(xs, off)
  {
    if i == |xs| {
      assert xs[..i] == xs;
    } else {
      var front := xs[..|xs| - 1];
      KeepPrefix(front, off, i);
      assert front[..i] == xs[..i];
    }
  }

  /** A surviving position is found at its shifted place. */
  lemma {:induction false} ShiftFindsSurvivor<T>(xs: seq<T>, off: set<int>, i: int)
    requires 0 <= i < |xs| && i !in off
    ensures 0 <= ShiftAfterRemovals(i, InRange(off, |xs|)) < |Keep(xs, off)|
    ensures Keep(xs, off)[ShiftAfterRemovals(i, InRange(off, |xs|))] == xs[i]
  {
    KeepLength(xs[..i], off);
    var here, before := InRange(off, |xs|), InRange(off, i);
    assert (set p | p in here && p < i) == before == (set p | p in before && p < i);
    KeepPrefix(xs, off, i + 1);
    assert xs[..i + 1][..i] == xs[..i];
  }

  /** A position outside the list stays outside the shrunk list. */
  lemma ShiftStaysOutside<T>(xs: seq<T>, off: set<int>, i: int)
    requires !(0 <= i < |xs|)
    ensures !(0 <= ShiftAfterRemovals(i, InRange(off, |xs|)) < |Keep(xs, off)|)
  {
    KeepLength(xs, off);
    var here := InRange(off, |xs|);
    if i < 0 {
      assert (set p | p in here && p < i) == {};
    } else {
      assert (set p | p in here && p < i) == here == (set p | p in here && p < |xs|);
    }
  }

  lemma {:induction false} KeepUpdate<T>(xs: seq<T>, off: set<int>, i: nat, x: T)
    requires i < |xs| && i !in off
    ensures |Keep(xs[..i], off)| < |Keep(xs, off)|
    ensures Keep(xs[i := x], off) == Keep(xs, off)[|Keep(xs[..i], off)| := x]
  {
    var last := |xs| - 1;
    if i == last {
      assert xs[i := x][..last] == xs[..last];
    } else {
      KeepUpdate(xs[..last], off, i, x);
      assert xs[i := x][..last] == xs[..last][i := x];
      assert xs[..last][..i] == xs[..i];
    }
  }

  lemma {:induction false} KeepMore<T>(xs: seq<T>, off: set<int>, i: nat)
    requires i < |xs| && i !in off
    ensures |Keep(xs[..i], off)| < |Keep(xs, off)|
    ensures Keep(xs, off + {i}) == Without(Keep(xs, off), |Keep(xs[..i], off)|)
  {
    var last := |xs| - 1;
    var front := Keep(xs[..last], off);
    if i == last {
      KeepOnlyLooksInside(xs[..last], off, off + {i});
    } else {
      KeepMore(xs[..last], off, i);
      assert xs[..last][..i] == xs[..i];
      var a := |Keep(xs[..i], off)|;
      assert last !in off ==> Without(front + [xs[last]], a) == Without(front, a) + [xs[last]];
    }
  }

  lemma {:induction false} KeepOnlyLooksInside<T>(xs: seq<T>, off: set<int>, off': set<int>)
    requires InRange(off, |xs|) == InRange(off', |xs|)
    ensures Keep(xs, off) == Keep(xs, off')
  {
    if xs != [] {
      var last := |xs| - 1;
      assert last in off <==> last in InRange(off, |xs|);
      assert last in off' <==> last in InRange(off', |xs|);
      assert InRange(off, last) == InRange(off, |xs|) - {last};
      assert InRange(off', last) == InRange(off', |xs|) - {last};
      KeepOnlyLooksInside(xs[..last], off, off');
    }
  }

  /** A list without the element at an index. */
  function Without<T>(xs: seq<T>, i: nat): seq<T>
    requires i < |xs|
  {
    xs[..i] + xs[i + 1..]
  }

  /** Editing the shrunk list at the shifted place is editing the original list
      at the original place. */
  lemma EditAtShiftedPlace<T>(xs: seq<T>, off: set<int>, i: int, x: T)
    requires 0 <= i < |xs| && i !in off
    ensures var a := ShiftAfterRemovals(i, InRange(off, |xs|));
            && 0 <= a < |Keep(xs, off)|
            && Keep(xs, off)[a] == xs[i]
            && Keep(xs[i := x], off) == Keep(xs, off)[a := x]
            && Keep(xs, off + {i}) == Without(Keep(xs, off), a)
  {
    ShiftFindsSurvivor(xs, off, i);
    KeepUpdate(xs, off, i, x);
    KeepMore(xs, off, i);
    KeepLength(xs[..i], off);
    var here, before := InRange(off, |xs|), InRange(off, i);
    assert (set p | p in here && p < i) == before == (set p | p in before && p < i);
  }
}
