/** The session's override store: insertion-ordered overrides per scope, at most one per
    kind and target. */
module OverrideState {
  import opened Options
  import opened JsonValues
  import opened OverrideTypes
  import opened OverridePlan
  import opened OverrideOrder
  import opened Ir

  type Scope = (string, string)
  type ScopeParams = (Option<string>, Option<string>)

  const LEGACY_SCOPE_ID := "__legacy__"

  /** A value or its fallback: `None` and the empty string both fall back. */
  function OrElse(value: Option<string>, fallback: string): string {
    if value.Some? && value.value != "" then value.value else fallback
  }

  function NormalizeScope(scope: Option<ScopeParams>): Scope {
    match scope
    case None => (LEGACY_SCOPE_ID, LEGACY_SCOPE_ID)
    case Some((run, track)) =>
      var runId := OrElse(run, LEGACY_SCOPE_ID);
      (runId, OrElse(track, runId))
  }

  /** A name is given. */
  predicate Given(name: Option<string>) { name != None && name != Some("") }

  /** Both names are given and the same, neither is given, or one is given and is what the
      other stands for. */
  predicate SameName(a: Option<string>, b: Option<string>, missing: string) {
    if Given(a) && Given(b) then a == b
    else if Given(a) then a == Some(missing)
    else if Given(b) then b == Some(missing)
    else true
  }

  /** Two scopes are one exactly when they name the same run, a run not given being the legacy
      one, and the same track of it, a track not given being the run's own. */
  lemma ScopesAreOne(run: Option<string>, track: Option<string>, run': Option<string>, track': Option<string>)
    ensures NormalizeScope(Some((run, track))) == NormalizeScope(Some((run', track')))
      <==> SameName(run, run', "__legacy__") && SameName(track, track', if Given(run) then run.value else "__legacy__")
    ensures NormalizeScope(None) == NormalizeScope(Some((None, None)))
  {
  }

  /** Where a key sits in an ordered dictionary, or its length. */
  function IndexOf(os: seq<Override>, kind: OverrideKind, target: string): (i: nat)
    ensures i <= |os|
    ensures i < |os| ==> os[i].kind == kind && os[i].target == target
    ensures forall j | 0 <= j < i :: !(os[j].kind == kind && os[j].target == target)
  {
    if os == [] then 0
    else if os[0].kind == kind && os[0].target == target then 0
    else 1 + IndexOf(os[1..], kind, target)
  }

  predicate HasKey(os: seq<Override>, kind: OverrideKind, target: string) {
    IndexOf(os, kind, target) < |os|
  }

  /** An assignment to an ordered dictionary: an existing key keeps its place, a new one goes last. */
  function Put(os: seq<Override>, o: Override): seq<Override> {
    var i := IndexOf(os, o.kind, o.target);
    if i < |os| then os[i := o] else os + [o]
  }

  /** An ordered dictionary without a key, if it was there. */
  function Removed(os: seq<Override>, kind: OverrideKind, target: string): seq<Override> {
    var i := IndexOf(os, kind, target);
    if i < |os| then os[..i] + os[i + 1..] else os
  }

  /** The overrides listed under a normalized scope. */
  function Listed(overrides: map<Scope, seq<Override>>, s: Scope): seq<Override> {
    if s in overrides then overrides[s] else []
  }

  class OverrideStore {
    var overrides: map<Scope, seq<Override>>
    var enabled: map<Scope, bool>

    /** No two overrides of a scope share kind and target, none is a removal marker, and
        only disabled scopes are recorded. */
    ghost predicate Valid()
      reads this
    {
      && (forall s | s in overrides :: UniqueKeys(overrides[s]) && forall o | o in overrides[s] :: !o.value.NoneV?)
      && (forall s | s in enabled :: !enabled[s])
    }

    /** The overrides of a scope in insertion order. */
    ghost function Contents(scope: Option<ScopeParams>): seq<Override>
      reads this
    {
      Listed(overrides, NormalizeScope(scope))
    }

    constructor ()
      ensures Valid()
      ensures overrides == map[] && enabled == map[]
    {
      overrides, enabled := map[], map[];
    }

    method IsEnabled(scope: Option<ScopeParams>) returns (on: bool)
      requires Valid()
      ensures on <==> NormalizeScope(scope) !in enabled
    {
      var s := NormalizeScope(scope);
      on := if s in enabled then enabled[s] else true;
    }

    method SetEnabled(value: bool, scope: Option<ScopeParams>)
      requires Valid()
      modifies this`enabled
      ensures Valid()
      ensures NormalizeScope(scope) !in enabled <==> value
      ensures forall s: Scope | s != NormalizeScope(scope) :: s in enabled <==> s in old(enabled)
    {
      var s := NormalizeScope(scope);
      enabled := if value then enabled - {s} else enabled[s := false];
    }

    method ScopedOverrides(scope: Option<ScopeParams>) returns (scoped: seq<Override>)
      requires Valid()
      modifies this`overrides
      ensures Valid() && scoped == Contents(scope)
      ensures NormalizeScope(scope) in overrides
      ensures forall s: Scope :: Listed(overrides, s) == Listed(old(overrides), s)
    {
      var s := NormalizeScope(scope);
      if s !in overrides {
        overrides := overrides[s := []];
      }
      scoped := overrides[s];
    }

    /** Insert, replace or (for `None`) remove one override of one scope. */
    method Upsert(o: Override, scope: Option<ScopeParams>)
      requires Valid()
      modifies this`overrides
      ensures Valid()
      ensures Contents(scope)
           == if o.value.NoneV? then Removed(old(Contents(scope)), o.kind, o.target) else Put(old(Contents(scope)), o)
      ensures forall s: Scope | s != NormalizeScope(scope) :: Listed(overrides, s) == Listed(old(overrides), s)
    {
      var scoped := ScopedOverrides(scope);
      PutKeepsKeysUnique(scoped, o);
      RemovedKeepsKeysUnique(scoped, o.kind, o.target);
      scoped := if o.value.NoneV? then Removed(scoped, o.kind, o.target) else Put(scoped, o);
      overrides := overrides[NormalizeScope(scope) := scoped];
    }

    method Remove(kind: OverrideKind, target: string, scope: Option<ScopeParams>) returns (removed: bool)
      requires Valid()
      modifies this`overrides
      ensures Valid()
      ensures removed <==> HasKey(old(Contents(scope)), kind, target)
      ensures Contents(scope) == Removed(old(Contents(scope)), kind, target)
      ensures forall s: Scope | s != NormalizeScope(scope) :: Listed(overrides, s) == Listed(old(overrides), s)
    {
      var scoped := ScopedOverrides(scope);
      RemovedKeepsKeysUnique(scoped, kind, target);
      removed := HasKey(scoped, kind, target);
      overrides := overrides[NormalizeScope(scope) := Removed(scoped, kind, target)];
    }

    method GetAll(scope: Option<ScopeParams>) returns (all: seq<Override>)
      requires Valid()
      modifies this`overrides
      ensures Valid() && all == Contents(scope) && UniqueKeys(all)
      ensures forall s: Scope :: Listed(overrides, s) == Listed(old(overrides), s)
    {
      all := ScopedOverrides(scope);
    }

    /** Without a scope everything goes, with one only that scope. */
    method Clear(scope: Option<ScopeParams>)
      requires Valid()
      modifies this
      ensures Valid()
      ensures Contents(scope) == [] && NormalizeScope(scope) !in enabled
      ensures scope.None? ==> overrides == map[] && enabled == map[]
      ensures scope.Some? ==> forall s: Scope | s != NormalizeScope(scope) ::
                Listed(overrides, s) == Listed(old(overrides), s) && (s in enabled <==> s in old(enabled))
    {
      if scope.None? {
        overrides, enabled := map[], map[];
        return;
      }
      var s := NormalizeScope(scope);
      overrides, enabled := overrides - {s}, enabled - {s};
    }

    /** Whatever order the store's overrides are listed in, the edited request is the same,
        provider extras aside, and entirely so when the edits of the extras are independent. */
    lemma AnyOrderWillDo(loads: Loads, scope: Option<ScopeParams>, listed: seq<Override>, ir: Request)
      requires Valid() && multiset(listed) == multiset(Contents(scope))
      ensures OneShot(loads, listed, ir).(providerExtras := map[])
           == OneShot(loads, Contents(scope), ir).(providerExtras := map[])
      ensures IndependentExtras(loads, Contents(scope)) ==>
        OneShot(loads, listed, ir) == OneShot(loads, Contents(scope), ir)
    {
      OrderIndependence(loads, Contents(scope), listed, ir);
    }
  }

  /** An override put under a key that is there takes its place, and goes last otherwise; a
      removal takes out that one place. */
  lemma PlacesAreKept(os: seq<Override>, o: Override, i: nat)
    requires UniqueKeys(os) && i <= |os|
    requires if i < |os| then SameKey(os[i], o) else forall j | 0 <= j < |os| :: !SameKey(os[j], o)
    ensures Put(os, o) == if i < |os| then os[i := o] else os + [o]
    ensures Removed(os, o.kind, o.target) == if i < |os| then os[..i] + os[i + 1..] else os
  {
    var k := IndexOf(os, o.kind, o.target);
    if k < |os| && i < |os| { OnlyAt(os, o.kind, o.target, i); }
  }

  lemma PutKeepsKeysUnique(os: seq<Override>, o: Override)
    requires UniqueKeys(os)
    ensures UniqueKeys(Put(os, o))
    ensures forall x | x in Put(os, o) :: x == o || x in os
  {
    var i := IndexOf(os, o.kind, o.target);
    if i < |os| {
      var put := os[i := o];
      forall a, b | 0 <= a < b < |os| ensures !SameKey(put[a], put[b]) {
        assert !SameKey(os[a], os[b]);
      }
    }
  }

  lemma RemovedKeepsKeysUnique(os: seq<Override>, kind: OverrideKind, target: string)
    requires UniqueKeys(os)
    ensures UniqueKeys(Removed(os, kind, target)) && !HasKey(Removed(os, kind, target), kind, target)
    ensures forall x | x in Removed(os, kind, target) :: x in os
  {
    var i := IndexOf(os, kind, target);
    var rest := Removed(os, kind, target);
    if i < |os| {
      forall a | 0 <= a < |rest| ensures rest[a] == os[if a < i then a else a + 1] {}
      forall a, b | 0 <= a < b < |rest| ensures !SameKey(rest[a], rest[b]) {
        assert !SameKey(os[if a < i then a else a + 1], os[if b < i then b else b + 1]);
      }
      forall a | 0 <= a < |rest| ensures !(rest[a].kind == kind && rest[a].target == target) {
        assert a >= i ==> !SameKey(os[i], os[a + 1]);
      }
    }
  }

  /** The last write to a key is the one that is read; other keys keep theirs. */
  lemma PutReadsBack(os: seq<Override>, o: Override, kind: OverrideKind, target: string)
    requires UniqueKeys(os)
    ensures HasKey(Put(os, o), o.kind, o.target) && Put(os, o)[IndexOf(Put(os, o), o.kind, o.target)] == o
    ensures !(kind == o.kind && target == o.target) ==>
      (HasKey(Put(os, o), kind, target) <==> HasKey(os, kind, target))
      && (HasKey(os, kind, target) ==>
            Put(os, o)[IndexOf(Put(os, o), kind, target)] == os[IndexOf(os, kind, target)])
  {
    hide IndexOf, UniqueKeys;
    PutKeepsKeysUnique(os, o);
    OnlyAt(Put(os, o), o.kind, o.target, IndexOf(os, o.kind, o.target));
    if !(kind == o.kind && target == o.target) { PutKeepsOthers(os, o, kind, target); }
    hide Put;
  }

  lemma PutKeepsOthers(os: seq<Override>, o: Override, kind: OverrideKind, target: string)
    requires UniqueKeys(os) && !(kind == o.kind && target == o.target)
    ensures HasKey(Put(os, o), kind, target) <==> HasKey(os, kind, target)
    ensures HasKey(os, kind, target) ==>
              Put(os, o)[IndexOf(Put(os, o), kind, target)] == os[IndexOf(os, kind, target)]
  {
    hide IndexOf, UniqueKeys;
    PutKeepsKeysUnique(os, o);
    var after := Put(os, o);
    var k := IndexOf(os, kind, target);
    if k < |os| {
      OnlyAt(after, kind, target, k);
    } else {
      var m := IndexOf(after, kind, target);
      if m < |after| { OnlyAt(os, kind, target, m); }
    }
  }

  lemma OnlyAt(os: seq<Override>, kind: OverrideKind, target: string, i: nat)
    requires UniqueKeys(os) && i < |os| && os[i].kind == kind && os[i].target == target
    ensures IndexOf(os, kind, target) == i
  {
    var k := IndexOf(os, kind, target);
    if k < i { assert SameKey(os[k], os[i]); }
  }
}
