/** Sampling and provider-extras edits: shape checks and dotted-path set/delete. */
module OverrideOpsMetadata {
  import opened Options
  import opened JsonValues
  import opened Texts
  import opened Ir

  // ---- sampling ----

  predicate SamplingValueValid(field: string, v: Json) {
    if field == "max_tokens" then v.Int? && v.n >= 1
    else if field == "temperature" || field == "top_p" then v.Null? || v.Int? || v.Float?
    else if field == "top_k" then v.Null? || v.Int?
    else if field == "stop_sequences" then v.List? && forall x | x in v.items :: x.Str?
    else false
  }

  function SetSampling(s: Sampling, field: string, v: Json): Sampling
    requires SamplingValueValid(field, v)
  {
    if field == "max_tokens" then s.(maxTokens := v.n)
    else if field == "temperature" then s.(temperature := v)
    else if field == "top_p" then s.(topP := v)
    else if field == "top_k" then s.(topK := v)
    else
      s.(stopSequences := seq(|v.items|, i requires 0 <= i < |v.items| =>
                                           assert v.items[i] in v.items; v.items[i].s))
  }

  /** The new request, the character delta (always 0) and whether the edit applied. */
  function ApplySamplingSet(ir: Request, field: string, v: Json): (Request, int, bool) {
    if SamplingValueValid(field, v) then (ir.(sampling := SetSampling(ir.sampling, field, v)), 0, true)
    else (ir, 0, false)
  }

  // ---- nested paths ----

  type Path = p: seq<string> | p != [] witness ["x"]

  predicate IsForbiddenSegment(segment: string) {
    || segment == "constructor"
    || (StartsWith(segment, "__") && EndsWith(segment, "__") && |segment| >= 4)
  }

  /** What a dotted path reads in nested dictionaries. */
  function GetPath(node: Fields, path: Path): Option<Json>
    decreases |path|
  {
    if path[0] !in node then None
    else if |path| == 1 then Some(node[path[0]])
    else match node[path[0]]
      case Obj(child) => GetPath(child, path[1..])
      case _ => None
  }

  /** Set the leaf, creating empty dictionaries on the way; `None` when the way is
      blocked by a value that is not a dictionary. */
  function SetNestedPath(node: Fields, path: Path, value: Json): Option<Fields>
    decreases |path|
  {
    if |path| == 1 then Some(node[path[0] := value])
    else
      match (if path[0] in node then node[path[0]] else Obj(map[]))
      case Obj(child) =>
        (match SetNestedPath(child, path[1..], value)
         case None => None
         case Some(child') => Some(node[path[0] := Obj(child')]))
      case _ => None
  }

  /** `Blocked`: a segment is not a dictionary. `Absent`: a segment is missing, nothing
      changes. `Reached`: the leaf is gone and emptied dictionaries on the way are pruned. */
  datatype Deletion = Blocked | Absent | Reached(fields: Fields)

  function DeleteNestedPath(node: Fields, path: Path): Deletion
    decreases |path|
  {
    if |path| == 1 then Reached(node - {path[0]})
    else if path[0] !in node then Absent
    else match node[path[0]]
      case Obj(child) =>
        Propagate(node, path[0], DeleteNestedPath(child, path[1..]))
      case _ => Blocked
  }

  /** What the outcome below a dictionary makes of the dictionary itself. */
  function Propagate(parent: Fields, key: string, below: Deletion): Deletion {
    match below
    case Reached(child) => Reached(if child == map[] then parent - {key} else parent[key := Obj(child)])
    case other => other
  }

  function PropagateAll(chain: seq<(Fields, string)>, below: Deletion): Deletion {
    if chain == [] then below
    else
      var last := |chain| - 1;
      PropagateAll(chain[..last], Propagate(chain[last].0, chain[last].1, below))
  }

  /** The walk down that remembers its parents, and the walk back up that prunes them. */
  method DeleteNestedPathLoop(root: Fields, path: Path) returns (ok: bool, after: Fields)
    ensures match DeleteNestedPath(root, path)
            case Blocked => !ok && after == root
            case Absent => ok && after == root
            case Reached(fields) => ok && after == fields
  {
    var chain: seq<(Fields, string)> := [];
    var node := root;
    var last := |path| - 1;
    for i := 0 to last
      invariant PropagateAll(chain, DeleteNestedPath(node, path[i..])) == DeleteNestedPath(root, path)
    {
      ghost var below := DeleteNestedPath(node, path[i..]);
      if path[i] !in node { PropagateAllKeepsOutcome(chain, Absent); return true, root; }
      if !node[path[i]].Obj? { PropagateAllKeepsOutcome(chain, Blocked); return false, root; }
      assert path[i..][1..] == path[i + 1..];
      chain := chain + [(node, path[i])];
      node := node[path[i]].fields;
      assert chain[..|chain| - 1] + [chain[|chain| - 1]] == chain;
    }
    assert path[last..] == [path[last]];
    after := node - {path[last]};
    var k := |chain|;
    assert chain[..k] == chain;
    while k > 0
      invariant 0 <= k <= |chain|
      invariant PropagateAll(chain[..k], Reached(after)) == DeleteNestedPath(root, path)
    {
      k := k - 1;
      var (parent, key) := chain[k];
      assert chain[..k + 1][..k] == chain[..k];
      after := if after == map[] then parent - {key} else parent[key := Obj(after)];
    }
    ok := true;
  }

  lemma {:induction false} PropagateAllKeepsOutcome(chain: seq<(Fields, string)>, below: Deletion)
    requires !below.Reached?
    ensures PropagateAll(chain, below) == below
  {
    if chain != [] { PropagateAllKeepsOutcome(chain[..|chain| - 1], below); }
  }

  /** The new request, the character delta (always 0) and whether the edit applied. */
  function ApplyProviderExtrasSet(ir: Request, key: string, value: Json): (Request, int, bool) {
    match EditExtras(ir.providerExtras, key, value)
    case None => (ir, 0, false)
    case Some(extras) => (ir.(providerExtras := extras), 0, true)
  }

  /** Every segment of the key is there and none is forbidden. */
  predicate AcceptedKey(key: string) {
    key != "" && forall segment | segment in Split(key, '.') :: segment != "" && !IsForbiddenSegment(segment)
  }

  /** A dotted key is accepted unless a part of it is empty, `constructor` or a dunder name. */
  lemma AcceptedKeysAre(key: string)
    ensures AcceptedKey(key) <==> forall part | part in Split(key, '.') ::
      part !in {"", "constructor"} && !(|part| >= 4 && part[..2] == "__" && part[|part| - 2..] == "__")
  {
    if key == "" { assert Split(key, '.')[0] == ""; }
  }

  function EditExtras(extras: Fields, key: string, value: Json): Option<Fields> {
    var path: Path := Split(key, '.');
    if !AcceptedKey(key) then None
    else if value.Null? then
      match DeleteNestedPath(extras, path)
      case Blocked => None
      case Absent => Some(extras)
      case Reached(extras') => Some(extras')
    else SetNestedPath(extras, path, value)
  }

  // ---- laws ----

  ghost predicate Unrelated(p: Path, q: Path) { !(p <= q) && !(q <= p) }

  lemma UnrelatedTails(p: Path, q: Path)
    requires Unrelated(p, q) && p[0] == q[0]
    ensures |p| > 1 && |q| > 1 && Unrelated(p[1..], q[1..])
  {
    assert p == [p[0]] + p[1..] && q == [q[0]] + q[1..];
    assert p[1..] <= q[1..] ==> p <= q;
    assert q[1..] <= p[1..] ==> q <= p;
  }

  /** A successful set reads back its value and leaves unrelated paths alone. */
  lemma {:induction false} SetReadsBack(node: Fields, path: Path, value: Json, other: Path)
    requires SetNestedPath(node, path, value).Some?
    ensures var after := SetNestedPath(node, path, value).value;
            && GetPath(after, path) == Some(value)
            && (Unrelated(path, other) ==> GetPath(after, other) == GetPath(node, other))
    decreases |path|
  {
    if |path| > 1 {
      var child := if path[0] in node then node[path[0]].fields else map[];
      if Unrelated(path, other) && other[0] == path[0] {
        UnrelatedTails(path, other);
        SetReadsBack(child, path[1..], value, other[1..]);
      } else {
        SetReadsBack(child, path[1..], value, path[1..]);
      }
    } else {
      assert path <= other <==> other[0] == path[0];
    }
  }

  /** A proper prefix of the path holds a value that is not a dictionary. */
  ghost predicate BlockedAt(node: Fields, path: Path) {
    exists k | 0 < k < |path| :: GetPath(node, path[..k]).Some? && !GetPath(node, path[..k]).value.Obj?
  }

  /** Set fails exactly when the way is blocked. */
  lemma {:induction false} SetFailsWhenBlocked(node: Fields, path: Path, value: Json)
    ensures SetNestedPath(node, path, value).None? <==> BlockedAt(node, path)
    decreases |path|
  {
    if |path| > 1 {
      assert path[..1][0] == path[0] && |path[..1]| == 1;
      assert GetPath(node, path[..1]) == if path[0] in node then Some(node[path[0]]) else None;
      var head := if path[0] in node then node[path[0]] else Obj(map[]);
      if head.Obj? {
        SetFailsWhenBlocked(head.fields, path[1..], value);
        forall k | 1 < k < |path| ensures GetPath(node, path[..k]) == GetPath(head.fields, path[1..][..k - 1]) {
          assert path[..k][1..] == path[1..][..k - 1];
        }
        if BlockedAt(head.fields, path[1..]) {
          var k :| 0 < k < |path[1..]| && GetPath(head.fields, path[1..][..k]).Some?
                   && !GetPath(head.fields, path[1..][..k]).value.Obj?;
          assert GetPath(node, path[..k + 1]) == GetPath(head.fields, path[1..][..k + 1 - 1]);
        }
      }
    }
  }

  /** The dictionary that holds the leaf of a path, or would hold it, exists. */
  predicate HasHolder(node: Fields, path: Path) {
    |path| == 1 ||
    var holder := GetPath(node, path[..|path| - 1]);
    holder.Some? && holder.value.Obj?
  }

  /** Delete is blocked exactly when set is, and reaches the leaf exactly when the
      dictionary that would hold it exists. */
  lemma {:induction false} DeleteOutcome(node: Fields, path: Path)
    ensures DeleteNestedPath(node, path).Blocked? <==> BlockedAt(node, path)
    ensures DeleteNestedPath(node, path).Reached? <==> HasHolder(node, path)
    decreases |path|
  {
    SetFailsWhenBlocked(node, path, Null);
    if |path| > 1 && path[0] in node && node[path[0]].Obj? {
      var child := node[path[0]].fields;
      DeleteOutcome(child, path[1..]);
      SetFailsWhenBlocked(child, path[1..], Null);
      if |path| > 2 { assert path[..|path| - 1][1..] == path[1..][..|path[1..]| - 1]; }
    }
  }

  /** A completed delete removes the leaf, leaves unrelated paths alone, and leaves no
      empty dictionary on the way. */
  lemma {:induction false} DeleteRemovesAndPrunes(node: Fields, path: Path, other: Path)
    requires DeleteNestedPath(node, path).Reached?
    ensures var after := DeleteNestedPath(node, path).fields;
            && GetPath(after, path) == None
            && (Unrelated(path, other) ==> GetPath(after, other) == GetPath(node, other))
            && forall k | 0 < k < |path| :: GetPath(after, path[..k]) != Some(Obj(map[]))
    decreases |path|
  {
    var after := DeleteNestedPath(node, path).fields;
    if |path| > 1 {
      var child := node[path[0]].fields;
      var child' := DeleteNestedPath(child, path[1..]).fields;
      var otherTail: Path := if |other| > 1 then other[1..] else path[1..];
      DeleteRemovesAndPrunes(child, path[1..], otherTail);
      if Unrelated(path, other) && other[0] == path[0] {
        UnrelatedTails(path, other);
      }
      forall k | 0 < k < |path| ensures GetPath(after, path[..k]) != Some(Obj(map[])) {
        if k > 1 && child' != map[] {
          assert path[..k][1..] == path[1..][..k - 1];
          assert GetPath(after, path[..k]) == GetPath(child', path[1..][..k - 1]);
        }
      }
    } else {
      assert path <= other <==> other[0] == path[0];
    }
  }

  /** The leaf is absent and no dictionary on the way is empty. */
  ghost predicate CleanlyAbsent(node: Fields, path: Path) {
    && GetPath(node, path) == None
    && forall k | 0 < k < |path| :: GetPath(node, path[..k]) != Some(Obj(map[]))
  }

  lemma CleanlyAbsentStep(node: Fields, path: Path)
    requires |path| > 1 && path[0] in node && node[path[0]].Obj?
    ensures CleanlyAbsent(node, path)
      <==> node[path[0]].fields != map[] && CleanlyAbsent(node[path[0]].fields, path[1..])
  {
    var child := node[path[0]].fields;
    assert GetPath(node, path[..1]) == Some(Obj(child));
    forall k | 1 < k < |path| ensures GetPath(node, path[..k]) == GetPath(child, path[1..][..k - 1]) {
      assert path[..k][1..] == path[1..][..k - 1];
    }
    if CleanlyAbsent(node, path) {
      forall k | 0 < k < |path[1..]| ensures GetPath(child, path[1..][..k]) != Some(Obj(map[])) {
        assert GetPath(node, path[..k + 1]) == GetPath(child, path[1..][..k + 1 - 1]);
      }
    }
  }

  lemma {:induction false} DeleteAfterSetIsReached(node: Fields, path: Path, value: Json)
    requires SetNestedPath(node, path, value).Some?
    ensures DeleteNestedPath(SetNestedPath(node, path, value).value, path).Reached?
    decreases |path|
  {
    if |path| > 1 {
      var child := if path[0] in node then node[path[0]].fields else map[];
      DeleteAfterSetIsReached(child, path[1..], value);
    }
  }

  /** A path created from nothing is deleted without trace. */
  lemma {:induction false} DeleteFreshPath(path: Path, value: Json)
    ensures SetNestedPath(map[], path, value).Some?
    ensures DeleteNestedPath(SetNestedPath(map[], path, value).value, path) == Reached(map[])
    decreases |path|
  {
    var after := if |path| == 1 then map[path[0] := value] else map[];
    if |path| > 1 {
      DeleteFreshPath(path[1..], value);
    }
    assert forall v: Json :: map[path[0] := v] - {path[0]} == map[];
  }

  /** Delete after set restores the original exactly when the leaf was absent and no
      dictionary on the way was empty. */
  lemma {:induction false} DeleteUndoesSet(node: Fields, path: Path, value: Json)
    requires SetNestedPath(node, path, value).Some?
    ensures DeleteNestedPath(SetNestedPath(node, path, value).value, path) == Reached(node)
      <==> CleanlyAbsent(node, path)
    decreases |path|
  {
    DeleteAfterSetIsReached(node, path, value);
    var after := SetNestedPath(node, path, value).value;
    if |path| == 1 {
      assert after - {path[0]} == node - {path[0]};
      assert path[0] !in node ==> node - {path[0]} == node;
    } else if path[0] in node {
      var child := node[path[0]].fields;
      DeleteUndoesSet(child, path[1..], value);
      CleanlyAbsentStep(node, path);
      var back := DeleteNestedPath(after[path[0]].fields, path[1..]).fields;
      if back == map[] {
        assert path[0] !in after - {path[0]};
      } else {
        assert after[path[0] := Obj(back)] == node <==> back == child;
      }
    } else {
      DeleteFreshPath(path[1..], value);
      assert after - {path[0]} == node;
      forall k | 0 < k < |path| ensures GetPath(node, path[..k]) == None { assert path[..k][0] == path[0]; }
    }
  }
}
