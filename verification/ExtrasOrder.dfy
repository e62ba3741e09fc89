/** Which edits of the provider extras can be exchanged: two edits of nested dictionaries
    commute on every dictionary exactly when their paths and values say so. */
module ExtrasOrder {
  import opened Options
  import opened JsonValues
  import opened OverrideOpsMetadata

  /** One edit, a blocked one changing nothing: a null deletes, anything else is set. */
  function EditPath(node: Fields, path: Path, value: Json): Fields {
    if value.Null? then
      match DeleteNestedPath(node, path)
      case Reached(after) => after
      case _ => node
    else
      match SetNestedPath(node, path, value)
      case Some(after) => after
      case None => node
  }

  /** Editing a path inside a value leaves that value as it is: it is not a dictionary, the
      way is blocked within it, the new leaf is there already, or nothing is there to delete
      and to prune. */
  ghost predicate Keeps(v: Json, path: Path, w: Json) {
    v.Obj? ==>
      || BlockedAt(v.fields, path)
      || (if w.Null? then
            || !HasHolder(v.fields, path)
            || (v.fields != map[] && CleanlyAbsent(v.fields, path))
          else GetPath(v.fields, path) == Some(w))
  }

  /** The path of one edit leads into a value that the other sets and that it leaves alone. */
  ghost predicate Inside(p: Path, v: Json, q: Path, w: Json) {
    p < q && !v.Null? && Keeps(v, q[|p|..], w)
  }

  /** The exact condition for two edits to commute. */
  ghost predicate Independent(p: Path, v: Json, q: Path, w: Json) {
    || Unrelated(p, q)
    || (v.Null? && w.Null?)
    || (p == q && v == w)
    || Inside(p, v, q, w)
    || Inside(q, w, p, v)
  }

  ghost predicate CommuteOn(node: Fields, p: Path, v: Json, q: Path, w: Json) {
    EditPath(EditPath(node, p, v), q, w) == EditPath(EditPath(node, q, w), p, v)
  }

  // ---- one edit, seen from the dictionary it starts in ----

  /** What an edit of a longer path makes of the value under its first key. */
  function EditCell(cell: Option<Json>, rest: Path, value: Json): Option<Json> {
    match cell
    case None => if value.Null? then None else Some(Obj(EditPath(map[], rest, value)))
    case Some(Obj(child)) =>
      if value.Null? && DeleteNestedPath(child, rest) == Reached(map[]) then None
      else Some(Obj(EditPath(child, rest, value)))
    case Some(_) => cell
  }

  function PutCell(node: Fields, key: string, cell: Option<Json>): Fields {
    if cell.Some? then node[key := cell.value] else node - {key}
  }

  /** The effect of an edit on the value under the first key. */
  function FirstCell(cell: Option<Json>, path: Path, value: Json): Option<Json> {
    if |path| > 1 then EditCell(cell, path[1..], value)
    else if value.Null? then None else Some(value)
  }

  lemma FreshSet(path: Path, value: Json)
    ensures SetNestedPath(map[], path, value).Some?
  {
    DeleteFreshPath(path, value);
  }

  /** An edit changes the value under its first key only, by what was under it. */
  lemma EditIsLocal(node: Fields, path: Path, value: Json)
    ensures EditPath(node, path, value) == PutCell(node, path[0], FirstCell(Lookup(node, path[0]), path, value))
  {
    if value.Null? { DeleteIsLocal(node, path); } else { SetIsLocal(node, path, value); }
    hide EditPath, FirstCell;
  }

  lemma UnchangedCell(node: Fields, key: string)
    ensures PutCell(node, key, Lookup(node, key)) == node
  {
    if key in node { assert node[key := node[key]] == node; } else { assert node - {key} == node; }
  }

  lemma SetIsLocal(node: Fields, path: Path, value: Json)
    requires !value.Null?
    ensures EditPath(node, path, value) == PutCell(node, path[0], FirstCell(Lookup(node, path[0]), path, value))
  {
    UnchangedCell(node, path[0]);
    if |path| > 1 { FreshSet(path[1..], value); }
  }

  lemma DeleteIsLocal(node: Fields, path: Path)
    ensures EditPath(node, path, Null) == PutCell(node, path[0], FirstCell(Lookup(node, path[0]), path, Null))
  {
    UnchangedCell(node, path[0]);
  }

  lemma PutCells(node: Fields, k: string, a: Option<Json>, l: string, b: Option<Json>)
    ensures k != l ==> PutCell(PutCell(node, k, a), l, b) == PutCell(PutCell(node, l, b), k, a)
    ensures k == l ==> PutCell(PutCell(node, k, a), l, b) == PutCell(node, k, b)
    ensures Lookup(PutCell(node, k, a), l) == if k == l then a else Lookup(node, l)
  {
  }

  /** Two edits commute when they start at different keys, or commute under the same key. */
  lemma CellsDecide(node: Fields, p: Path, v: Json, q: Path, w: Json)
    requires p[0] == q[0] ==>
      FirstCell(FirstCell(Lookup(node, p[0]), p, v), q, w) == FirstCell(FirstCell(Lookup(node, q[0]), q, w), p, v)
    ensures CommuteOn(node, p, v, q, w)
  {
    EditIsLocal(node, p, v);
    EditIsLocal(node, q, w);
    EditIsLocal(EditPath(node, p, v), q, w);
    EditIsLocal(EditPath(node, q, w), p, v);
    hide FirstCell, EditPath, PutCell, Lookup;
    var a, b := FirstCell(Lookup(node, p[0]), p, v), FirstCell(Lookup(node, q[0]), q, w);
    PutCells(node, p[0], a, q[0], FirstCell(Lookup(EditPath(node, p, v), q[0]), q, w));
    PutCells(node, q[0], b, p[0], FirstCell(Lookup(EditPath(node, q, w), p[0]), p, v));
  }

  // ---- what one edit leaves behind ----

  lemma {:induction false} SetLeavesSomething(node: Fields, path: Path, value: Json)
    requires !value.Null?
    ensures EditPath(node, path, value) != map[]
  {
    EditIsLocal(node, path, value);
    assert path[0] in EditPath(node, path, value);
  }

  lemma {:induction false} NothingToDelete(path: Path)
    ensures EditPath(map[], path, Null) == map[]
  {
    var nothing: Fields := map[];
    assert nothing - {path[0]} == nothing;
  }

  /** Deleting from a dictionary that is left empty reached its leaf, or it was empty. */
  lemma EmptiedIsReached(node: Fields, path: Path)
    ensures EditPath(node, path, Null) == map[] && node != map[] ==> DeleteNestedPath(node, path) == Reached(map[])
  {
  }

  // ---- edits that commute ----

  /** What is under a key, as a dictionary. */
  function Under(cell: Option<Json>): Fields {
    if cell.Some? && cell.value.Obj? then cell.value.fields else map[]
  }

  /** The same on one cell, given that the edits commute on every dictionary under it. */
  lemma CellsCommute(cell: Option<Json>, p: Path, v: Json, q: Path, w: Json)
    requires forall child: Fields :: CommuteOn(child, p, v, q, w)
    ensures EditCell(EditCell(cell, p, v), q, w) == EditCell(EditCell(cell, q, w), p, v)
  {
    assert CommuteOn(Under(cell), p, v, q, w);
    if !v.Null? && !w.Null? {
      SetsCommute(cell, p, v, q, w);
    } else if !v.Null? {
      SetAndDeleteCommute(cell, p, v, q);
    } else if !w.Null? {
      assert CommuteOn(Under(cell), q, w, p, Null);
      SetAndDeleteCommute(cell, q, w, p);
    } else if cell == Some(Obj(Under(cell))) {
      DeletionsCommute(Under(cell), p, q);
    }
    hide EditPath, DeleteNestedPath;
  }

  lemma SetsCommute(cell: Option<Json>, p: Path, v: Json, q: Path, w: Json)
    requires !v.Null? && !w.Null? && CommuteOn(Under(cell), p, v, q, w)
    ensures EditCell(EditCell(cell, p, v), q, w) == EditCell(EditCell(cell, q, w), p, v)
  {
    hide EditPath;
  }

  lemma SetAndDeleteCommute(cell: Option<Json>, p: Path, v: Json, q: Path)
    requires !v.Null? && CommuteOn(Under(cell), p, v, q, Null)
    ensures EditCell(EditCell(cell, p, v), q, Null) == EditCell(EditCell(cell, q, Null), p, v)
  {
    hide EditPath, DeleteNestedPath;
    var f := Under(cell);
    NothingToDelete(q);
    SetLeavesSomething(EditPath(f, q, Null), p, v);
    ReachedIsEdited(f, q);
    ReachedIsEdited(EditPath(f, p, v), q);
  }

  lemma ReachedIsEdited(node: Fields, path: Path)
    ensures DeleteNestedPath(node, path).Reached? ==> DeleteNestedPath(node, path).fields == EditPath(node, path, Null)
  {
  }

  lemma DeletionsCommute(f: Fields, p: Path, q: Path)
    requires CommuteOn(f, p, Null, q, Null)
    ensures EditCell(EditCell(Some(Obj(f)), p, Null), q, Null) == EditCell(EditCell(Some(Obj(f)), q, Null), p, Null)
  {
    hide EditPath, DeleteNestedPath;
    NothingToDelete(p);
    NothingToDelete(q);
    EmptiedIsReached(f, p);
    EmptiedIsReached(f, q);
    EmptiedIsReached(EditPath(f, p, Null), q);
    EmptiedIsReached(EditPath(f, q, Null), p);
    ReachedIsEdited(f, p);
    ReachedIsEdited(f, q);
    ReachedIsEdited(EditPath(f, p, Null), q);
    ReachedIsEdited(EditPath(f, q, Null), p);
  }

  lemma {:induction false} UnrelatedCommute(node: Fields, p: Path, v: Json, q: Path, w: Json)
    requires Unrelated(p, q)
    ensures CommuteOn(node, p, v, q, w)
    decreases |p|
  {
    hide CommuteOn, EditCell;
    if p[0] == q[0] {
      UnrelatedTails(p, q);
      forall child: Fields ensures CommuteOn(child, p[1..], v, q[1..], w) {
        UnrelatedCommute(child, p[1..], v, q[1..], w);
      }
      CellsCommute(Lookup(node, p[0]), p[1..], v, q[1..], w);
    }
    CellsDecide(node, p, v, q, w);
  }

  lemma {:induction false} DeletesCommute(node: Fields, p: Path, q: Path)
    ensures CommuteOn(node, p, Null, q, Null)
    decreases |p|
  {
    hide CommuteOn;
    if p[0] == q[0] && |p| > 1 && |q| > 1 {
      hide EditCell;
      forall child: Fields ensures CommuteOn(child, p[1..], Null, q[1..], Null) {
        DeletesCommute(child, p[1..], q[1..]);
      }
      CellsCommute(Lookup(node, p[0]), p[1..], Null, q[1..], Null);
    }
    CellsDecide(node, p, Null, q, Null);
  }

  /** Setting a value undoes whatever was edited inside its place. */
  lemma {:induction false} SetOverwrites(node: Fields, q: Path, w: Json, p: Path, v: Json)
    requires p <= q && !v.Null?
    ensures EditPath(EditPath(node, q, w), p, v) == EditPath(node, p, v)
    decreases |p|
  {
    hide EditPath, PutCell, EditCell;
    EditIsLocal(node, q, w);
    EditIsLocal(node, p, v);
    EditIsLocal(EditPath(node, q, w), p, v);
    var cell := Lookup(node, p[0]);
    if |p| > 1 {
      assert p[1..] <= q[1..];
      SetOverwrites(Under(cell), q[1..], w, p[1..], v);
      SetOverwritesCell(cell, q[1..], w, p[1..], v);
    }
    assert FirstCell(FirstCell(cell, q, w), p, v) == FirstCell(cell, p, v);
    PutCells(node, q[0], FirstCell(cell, q, w), p[0], FirstCell(cell, p, v));
  }

  lemma SetOverwritesCell(cell: Option<Json>, q: Path, w: Json, p: Path, v: Json)
    requires !v.Null? && EditPath(EditPath(Under(cell), q, w), p, v) == EditPath(Under(cell), p, v)
    ensures EditCell(EditCell(cell, q, w), p, v) == EditCell(cell, p, v)
  {
    hide EditPath, DeleteNestedPath;
    NothingToDelete(q);
    ReachedIsEdited(Under(cell), q);
  }

  // ---- edits inside a value that was set ----

  lemma {:induction false} SetUnchanged(node: Fields, path: Path, w: Json)
    ensures SetNestedPath(node, path, w) == Some(node) <==> GetPath(node, path) == Some(w)
    decreases |path|
  {
    PutSame(node, path[0], w);
    if |path| > 1 && path[0] in node && node[path[0]].Obj? {
      var child := node[path[0]].fields;
      SetUnchanged(child, path[1..], w);
      if SetNestedPath(child, path[1..], w).Some? {
        PutSame(node, path[0], Obj(SetNestedPath(child, path[1..], w).value));
      }
    }
  }

  lemma PutSame(node: Fields, key: string, x: Json)
    ensures node[key := x] == node <==> key in node && node[key] == x
  {
    if key in node && node[key] == x { assert node[key := x] == node; }
    assert node[key := x][key] == x;
  }

  lemma {:induction false} DeleteUnchanged(node: Fields, path: Path)
    requires DeleteNestedPath(node, path).Reached?
    ensures DeleteNestedPath(node, path).fields == node <==> CleanlyAbsent(node, path)
    decreases |path|
  {
    var key := path[0];
    if |path| == 1 {
      assert key !in node ==> node - {key} == node;
    } else {
      var child := node[key].fields;
      DeleteUnchanged(child, path[1..]);
      CleanlyAbsentStep(node, path);
      var child' := DeleteNestedPath(child, path[1..]).fields;
      assert key !in node - {key};
      assert node[key := Obj(child')] == node <==> child' == child;
    }
  }

  /** An edit leaves the value under its first key alone exactly when the value keeps. */
  lemma KeepsIsCell(v: Json, path: Path, w: Json)
    ensures EditCell(Some(v), path, w) == Some(v) <==> Keeps(v, path, w)
  {
    if v.Obj? {
      SetFailsWhenBlocked(v.fields, path, w);
      DeleteOutcome(v.fields, path);
      SetUnchanged(v.fields, path, w);
      if DeleteNestedPath(v.fields, path).Reached? { DeleteUnchanged(v.fields, path); }
    }
    hide SetNestedPath, DeleteNestedPath, BlockedAt, HasHolder, CleanlyAbsent, GetPath;
  }

  /** Once a value is set, an edit inside it has no effect exactly when the value keeps. */
  lemma {:induction false} SetKeeps(node: Fields, p: Path, v: Json, q: Path, w: Json)
    requires p < q && !v.Null? && SetNestedPath(node, p, v).Some?
    ensures EditPath(EditPath(node, p, v), q, w) == EditPath(node, p, v) <==> Keeps(v, q[|p|..], w)
    decreases |p|
  {
    hide EditCell, EditPath, Keeps, SetNestedPath, DeleteNestedPath;
    var key, after := p[0], EditPath(node, p, v);
    EditIsLocal(node, p, v);
    EditIsLocal(after, q, w);
    var cell := FirstCell(Lookup(node, key), p, v);
    PutCells(node, key, FirstCell(Lookup(node, key), p, v), key, cell);
    if |p| == 1 {
      KeepsIsCell(v, q[1..], w);
    } else {
      assert q[1..][|p[1..]|..] == q[|p|..];
      var f := SetUnder(node, p, v);
      SetKeeps(f, p[1..], v, q[1..], w);
      SetLeavesSomething(f, p[1..], v);
      FullCellKept(EditPath(f, p[1..], v), q[1..], w);
    }
    CellKept(after, key, FirstCell(cell, q, w));
  }

  lemma CellKept(node: Fields, key: string, cell: Option<Json>)
    requires key in node
    ensures PutCell(node, key, cell) == node <==> cell == Some(node[key])
  {
    if cell.Some? { PutSame(node, key, cell.value); } else { assert key !in node - {key}; }
  }

  /** A dictionary that is not empty is kept exactly when the edit inside it changes nothing. */
  lemma FullCellKept(child: Fields, rest: Path, w: Json)
    requires child != map[]
    ensures EditCell(Some(Obj(child)), rest, w) == Some(Obj(child)) <==> EditPath(child, rest, w) == child
  {
    ReachedIsEdited(child, rest);
  }

  /** The dictionary in which a successful set of a longer path goes on. */
  lemma SetUnder(node: Fields, p: Path, v: Json) returns (child: Fields)
    requires |p| > 1 && !v.Null? && SetNestedPath(node, p, v).Some?
    ensures SetNestedPath(child, p[1..], v).Some?
    ensures FirstCell(Lookup(node, p[0]), p, v) == Some(Obj(EditPath(child, p[1..], v)))
  {
    child := if p[0] in node then node[p[0]].fields else map[];
  }

  // ---- the exact condition ----

  /** Setting a fresh path and deleting a path that leads to it leaves nothing. */
  lemma {:induction false} DeleteFreshPrefix(q: Path, w: Json, p: Path)
    requires p <= q && !w.Null?
    ensures EditPath(EditPath(map[], q, w), p, Null) == map[]
    decreases |p|
  {
    var nothing: Fields := map[];
    EditIsLocal(nothing, q, w);
    EditIsLocal(EditPath(nothing, q, w), p, Null);
    if |p| > 1 {
      assert p[1..] <= q[1..];
      DeleteFreshPrefix(q[1..], w, p[1..]);
      SetLeavesSomething(nothing, q[1..], w);
      EmptiedIsReached(EditPath(nothing, q[1..], w), p[1..]);
    }
    hide EditPath, DeleteNestedPath;
    PutCells(nothing, q[0], FirstCell(None, q, w), p[0], None);
    assert nothing - {p[0]} == nothing;
  }

  /** The edits at a path and at one it leads to do not commute on the empty dictionary
      unless the condition holds. */
  lemma PrefixMatters(p: Path, v: Json, q: Path, w: Json)
    requires p <= q && !(v.Null? && w.Null?) && !(p == q && v == w) && !Inside(p, v, q, w)
    ensures !CommuteOn(map[], p, v, q, w)
  {
    hide EditPath, Keeps, SetNestedPath;
    if !v.Null? {
      SetOverwrites(map[], q, w, p, v);
      FreshSet(p, v);
      if p != q {
        SetKeeps(map[], p, v, q, w);
      } else if w.Null? {
        DeleteFreshPrefix(p, v, q);
        SetLeavesSomething(map[], p, v);
      } else {
        SetOverwrites(map[], p, v, q, w);
        SetReadsBackFresh(p, v);
        SetReadsBackFresh(q, w);
      }
    } else {
      DeleteFreshPrefix(q, w, p);
      NothingToDelete(p);
      SetLeavesSomething(map[], q, w);
    }
  }

  lemma SetReadsBackFresh(p: Path, v: Json)
    requires !v.Null?
    ensures GetPath(EditPath(map[], p, v), p) == Some(v)
  {
    FreshSet(p, v);
    SetReadsBack(map[], p, v, p);
  }

  /** A set and an edit inside the value it sets, which keeps, commute. */
  lemma InsideCommutes(node: Fields, p: Path, v: Json, q: Path, w: Json)
    requires Inside(p, v, q, w)
    ensures CommuteOn(node, p, v, q, w)
  {
    hide EditPath, Keeps;
    SetOverwrites(node, q, w, p, v);
    if SetNestedPath(node, p, v).Some? {
      SetKeeps(node, p, v, q, w);
    } else {
      BlockedPrefix(node, p, v, q, w);
    }
  }

  /** Where a path is blocked, so is every longer one. */
  lemma BlockedPrefix(node: Fields, p: Path, v: Json, q: Path, w: Json)
    requires p <= q && !v.Null? && SetNestedPath(node, p, v).None?
    ensures EditPath(node, p, v) == node && EditPath(node, q, w) == node
  {
    SetFailsWhenBlocked(node, p, v);
    var k :| 0 < k < |p| && GetPath(node, p[..k]).Some? && !GetPath(node, p[..k]).value.Obj?;
    assert p[..k] == q[..k];
    SetFailsWhenBlocked(node, q, w);
    DeleteOutcome(node, q);
  }

  /** Two edits commute on every dictionary exactly when they are independent. */
  lemma CommutesExactly(p: Path, v: Json, q: Path, w: Json)
    ensures (forall node: Fields :: CommuteOn(node, p, v, q, w)) <==> Independent(p, v, q, w)
  {
    if Independent(p, v, q, w) {
      forall node: Fields ensures CommuteOn(node, p, v, q, w) {
        if Unrelated(p, q) {
          UnrelatedCommute(node, p, v, q, w);
        } else if v.Null? && w.Null? {
          DeletesCommute(node, p, q);
        } else if Inside(p, v, q, w) {
          InsideCommutes(node, p, v, q, w);
        } else if Inside(q, w, p, v) {
          InsideCommutes(node, q, w, p, v);
        }
      }
    } else if p <= q {
      PrefixMatters(p, v, q, w);
    } else {
      PrefixMatters(q, w, p, v);
      assert CommuteOn(map[], p, v, q, w) <==> CommuteOn(map[], q, w, p, v);
    }
    hide EditPath, Independent;
  }
}
