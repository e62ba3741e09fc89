/** The order in which a store's overrides are listed: it never matters for the system, the
    tools, the messages and the sampling, and for the provider extras exactly when their
    edits are independent. */
module OverrideOrder {
  import opened Options
  import opened JsonValues
  import opened Texts
  import opened Ir
  import opened OverrideTypes
  import opened OverrideTargets
  import opened OverrideOpsMetadata
  import opened OverridePlan
  import opened Overrides
  import opened ExtrasOrder
  import opened Sanitize

  /** One of the steps leaves the extras alone, or their edits are independent. */
  ghost predicate StepsIndependent(a: PlanStep, b: PlanStep) {
    a.SetExtra? && b.SetExtra? && AcceptedKey(a.key) && AcceptedKey(b.key) ==>
      Independent(Split(a.key, '.'), a.v, Split(b.key, '.'), b.v)
  }

  lemma ExtendIsEdit(extras: Fields, step: PlanStep)
    ensures ExtendExtras(extras, step)
         == if step.SetExtra? && AcceptedKey(step.key) then EditPath(extras, Split(step.key, '.'), step.v) else extras
  {
    hide Split, AcceptedKey, SetNestedPath, DeleteNestedPath;
  }

  lemma StepsCommuteOn(extras: Fields, a: PlanStep, b: PlanStep)
    ensures ExtendExtras(ExtendExtras(extras, a), b) == ExtendExtras(ExtendExtras(extras, b), a)
      <==> (a.SetExtra? && b.SetExtra? && AcceptedKey(a.key) && AcceptedKey(b.key) ==>
              CommuteOn(extras, Split(a.key, '.'), a.v, Split(b.key, '.'), b.v))
  {
    hide ExtendExtras, EditPath, AcceptedKey, Split;
    ExtendIsEdit(extras, a);
    ExtendIsEdit(extras, b);
    ExtendIsEdit(ExtendExtras(extras, a), b);
    ExtendIsEdit(ExtendExtras(extras, b), a);
  }

  /** Two steps commute on all extras exactly when they are independent. */
  lemma ExtrasCommuteExactly(a: PlanStep, b: PlanStep)
    ensures (forall extras: Fields ::
               ExtendExtras(ExtendExtras(extras, a), b) == ExtendExtras(ExtendExtras(extras, b), a))
      <==> StepsIndependent(a, b)
  {
    hide ExtendExtras, AcceptedKey, Split, Independent, CommuteOn;
    forall extras: Fields
      ensures ExtendExtras(ExtendExtras(extras, a), b) == ExtendExtras(ExtendExtras(extras, b), a)
        <==> (a.SetExtra? && b.SetExtra? && AcceptedKey(a.key) && AcceptedKey(b.key) ==>
                CommuteOn(extras, Split(a.key, '.'), a.v, Split(b.key, '.'), b.v))
    {
      StepsCommuteOn(extras, a, b);
    }
    if a.SetExtra? && b.SetExtra? { CommutesExactly(Split(a.key, '.'), a.v, Split(b.key, '.'), b.v); }
  }

  /** Any two overrides of the list edit the extras independently; edits of unrelated paths
      are, by definition. */
  ghost predicate IndependentExtras(loads: Loads, os: seq<Override>) {
    forall x, y | x in os && y in os :: StepsIndependent(Meaning(loads, x), Meaning(loads, y))
  }

  /** Moving one override to the end. */
  lemma {:induction false} MoveExtrasToEnd(loads: Loads, os: seq<Override>, i: nat, extras: Fields)
    requires IndependentExtras(loads, os) && i < |os|
    ensures ExtrasOf(loads, os, extras) == ExtrasOf(loads, Without(os, i) + [os[i]], extras)
  {
    hide ExtrasOf, ExtendExtras, Meaning, StepsIndependent;
    var last := |os| - 1;
    if i == last {
      assert Without(os, i) + [os[i]] == os;
    } else {
      var front := os[..last];
      var rest := Without(front, i);
      assert forall x | x in front :: x in os;
      MoveExtrasToEnd(loads, front, i, extras);
      assert os == front + [os[last]] && Without(os, i) == rest + [os[last]];
      PlanAppend(loads, front, os[last], extras);
      PlanAppend(loads, rest, os[i], extras);
      PlanAppend(loads, rest, os[last], extras);
      PlanAppend(loads, rest + [os[last]], os[i], extras);
      assert os[i] in os && os[last] in os;
      ExtrasCommuteExactly(Meaning(loads, os[i]), Meaning(loads, os[last]));
    }
  }

  /** Permuting independent edits of the extras does not change their result. */
  lemma {:induction false} PermutedExtras(loads: Loads, a: seq<Override>, b: seq<Override>, extras: Fields)
    requires multiset(a) == multiset(b) && IndependentExtras(loads, b)
    ensures ExtrasOf(loads, a, extras) == ExtrasOf(loads, b, extras)
    decreases |a|
  {
    hide ExtrasOf, ExtendExtras, Meaning, StepsIndependent;
    assert |multiset(a)| == |a| && |multiset(b)| == |b|;
    if a != [] {
      var front, x := a[..|a| - 1], a[|a| - 1];
      assert a == front + [x];
      assert x in multiset(b);
      var i :| 0 <= i < |b| && b[i] == x;
      var rest := Without(b, i);
      WithoutIsLess(front, x, b, i);
      MoveExtrasToEnd(loads, b, i, extras);
      assert forall y | y in rest :: y in b;
      PermutedExtras(loads, front, rest, extras);
      PlanAppend(loads, front, x, extras);
      PlanAppend(loads, rest, x, extras);
    } else {
      assert b == [];
    }
  }

  /** Permuting a store's overrides never changes the resulting system, tools, messages or
      sampling, and when its edits of the extras are independent it changes nothing at all. */
  lemma OrderIndependence(loads: Loads, a: seq<Override>, b: seq<Override>, ir: Request)
    requires UniqueKeys(a) && multiset(a) == multiset(b)
    ensures OneShot(loads, a, ir).(providerExtras := map[]) == OneShot(loads, b, ir).(providerExtras := map[])
    ensures IndependentExtras(loads, a) ==> OneShot(loads, a, ir) == OneShot(loads, b, ir)
  {
    hide PlanOf, ExtrasOf, Edit, Sanitized, PreservesResults;
    UniqueKeysPermute(a, b);
    PermutedPlan(loads, a, b);
    if IndependentExtras(loads, a) { PermutedExtras(loads, b, a, ir.providerExtras); }
  }

  /** For two overrides the condition is exact: it fails exactly when some request tells the
      two orders apart. */
  lemma TwoOverridesCommuteExactly(loads: Loads, x: Override, y: Override)
    requires !SameKey(x, y) && !SameKey(y, x)
    ensures (forall ir: Request :: OneShot(loads, [x, y], ir) == OneShot(loads, [y, x], ir))
      <==> StepsIndependent(Meaning(loads, x), Meaning(loads, y))
  {
    hide Meaning, StepsIndependent, SameKey;
    var a, b := Meaning(loads, x), Meaning(loads, y);
    ExtrasCommuteExactly(a, b);
    forall ir: Request
      ensures OneShot(loads, [x, y], ir) == OneShot(loads, [y, x], ir)
        <==> ExtendExtras(ExtendExtras(ir.providerExtras, a), b) == ExtendExtras(ExtendExtras(ir.providerExtras, b), a)
    {
      TwoOverrides(loads, x, y, ir);
    }
    if !StepsIndependent(a, b) {
      var extras: Fields :| ExtendExtras(ExtendExtras(extras, a), b) != ExtendExtras(ExtendExtras(extras, b), a);
      var ir := RequestWith(extras);
      assert OneShot(loads, [x, y], ir) != OneShot(loads, [y, x], ir);
    }
    hide OneShot, ExtendExtras;
  }

  function RequestWith(extras: Fields): (ir: Request)
    ensures ir.providerExtras == extras
  {
    var hello := Message("user", [TextBlock("hello", None)], None);
    Request("", "", [], [], [hello], Sampling(1, Null, Null, Null, []), Metadata(None, None, None, map[]),
            false, extras)
  }

  lemma TwoOverrides(loads: Loads, x: Override, y: Override, ir: Request)
    requires !SameKey(x, y) && !SameKey(y, x)
    ensures OneShot(loads, [x, y], ir) == OneShot(loads, [y, x], ir)
      <==> ExtendExtras(ExtendExtras(ir.providerExtras, Meaning(loads, x)), Meaning(loads, y))
           == ExtendExtras(ExtendExtras(ir.providerExtras, Meaning(loads, y)), Meaning(loads, x))
  {
    hide Meaning, ExtendExtras, Edit, Sanitized, PreservesResults, PlanOf, ExtrasOf, SameKey;
    PlanOfNothing(loads, ir.providerExtras);
    PlanAppend(loads, [], x, ir.providerExtras);
    PlanAppend(loads, [], y, ir.providerExtras);
    PlanAppend(loads, [x], y, ir.providerExtras);
    PlanAppend(loads, [y], x, ir.providerExtras);
    assert [] + [x] == [x] && [] + [y] == [y] && [x] + [y] == [x, y] && [y] + [x] == [y, x];
    KeysAreSlots(loads, x, y);
    StepsCommute(EMPTY_PLAN, Meaning(loads, x), Meaning(loads, y));
    hide Extend, SameSlot;
  }

  /** Setting `a.b` and deleting `a`, in the two orders. */
  lemma RelatedExtrasDiffer(loads: Loads, ir: Request)
    requires loads("1") == Some(Int(1)) && loads("null") == Some(Null) && ir.providerExtras == map[]
    ensures var set' := Override(ProviderExtrasSet, ProviderExtrasTarget("a.b"), StrV("1"));
            var delete := Override(ProviderExtrasSet, ProviderExtrasTarget("a"), StrV("null"));
            && OneShot(loads, [set', delete], ir).providerExtras == map[]
            && OneShot(loads, [delete, set'], ir).providerExtras == map["a" := Obj(map["b" := Int(1)])]
  {
    var set' := Override(ProviderExtrasSet, ProviderExtrasTarget("a.b"), StrV("1"));
    var delete := Override(ProviderExtrasSet, ProviderExtrasTarget("a"), StrV("null"));
    MeaningOfExtra(loads, "a.b", "1", Int(1));
    MeaningOfExtra(loads, "a", "null", Null);
    hide Meaning, ProviderExtrasTarget;
    PathsOfTheExample();
    TwoExtras(loads, set', delete, ir);
    TwoExtras(loads, delete, set', ir);
    hide OneShot, ExtendExtras;
  }

  lemma MeaningOfExtra(loads: Loads, key: string, text: string, v: Json)
    requires loads(text) == Some(v)
    ensures Meaning(loads, Override(ProviderExtrasSet, ProviderExtrasTarget(key), StrV(text))) == SetExtra(key, v)
  {
    hide ProviderExtrasTarget, ParsePrefixed;
    NameTargetsAreExact(ProviderExtrasTarget(key), key);
    hide ParseProviderExtrasKey;
  }

  lemma TwoExtras(loads: Loads, x: Override, y: Override, ir: Request)
    ensures OneShot(loads, [x, y], ir).providerExtras
         == ExtendExtras(ExtendExtras(ir.providerExtras, Meaning(loads, x)), Meaning(loads, y))
  {
    hide Meaning, ExtendExtras, PlanOf, ExtrasOf, Extend, Edit, Sanitized, PreservesResults;
    PlanOfNothing(loads, ir.providerExtras);
    PlanAppend(loads, [], x, ir.providerExtras);
    PlanAppend(loads, [x], y, ir.providerExtras);
    assert [] + [x] == [x] && [x] + [y] == [x, y];
  }

  lemma PathsOfTheExample()
    ensures ExtendExtras(map[], SetExtra("a.b", Int(1))) == map["a" := Obj(map["b" := Int(1)])]
    ensures ExtendExtras(map[], SetExtra("a", Null)) == map[]
    ensures ExtendExtras(map["a" := Obj(map["b" := Int(1)])], SetExtra("a", Null)) == map[]
  {
    SplitWhole("a", '.');
    SplitWhole("b", '.');
    SplitHead("a", "b", '.');
    assert "a" + ['.'] + "b" == "a.b";
    var path := ["a", "b"];
    assert path[1..] == ["b"];
    var one: Fields := map["a" := Obj(map["b" := Int(1)])];
    var nothing: Fields := map[];
    assert one - {"a"} == nothing && nothing - {"a"} == nothing;
    assert nothing["a" := Obj(nothing["b" := Int(1)])] == one;
  }
}
