/** InitObjects on the heap: the registry loop, the validation loop and the sort. */
module Runtime {
  import opened Builder
  import opened KubeObjects
  import opened Names
  import opened Objects
  import opened PhaseOneHeap
  import opened RuntimeModel
  import opened Seqs
  import opened Wrappers

  /** The wrappers and everything they own. */
  ghost function Reach(objs: seq<RuntimeObject>): set<object>
    reads objs
  {
    if objs == [] then {} else Reach(objs[..|objs| - 1]) + objs[|objs| - 1].Footprint()
  }

  lemma {:induction false} ReachesEach(objs: seq<RuntimeObject>)
    ensures forall i :: 0 <= i < |objs| ==> objs[i].Footprint() <= Reach(objs)
  {
    if objs != [] {
      var init := objs[..|objs| - 1];
      ReachesEach(init);
      forall i | 0 <= i < |init| ensures objs[i].Footprint() <= Reach(objs) {
        assert init[i] == objs[i];
      }
    }
  }

  /** Every wrapper holds a valid object, and no two wrappers share anything. */
  ghost predicate Kept(objs: seq<RuntimeObject>)
    reads objs
  {
    && (forall i :: 0 <= i < |objs| ==> objs[i].obj != null && objs[i].obj.Valid())
    && (forall i, j :: 0 <= i < j < |objs| ==> objs[i].Footprint() !! objs[j].Footprint())
    && Distinct(Kinds(objs))
  }

  /** The values of the wrapped objects, in order. */
  ghost predicate HoldsAll(objs: seq<RuntimeObject>, vs: seq<ObjectV>)
    reads objs, Reach(objs)
  {
    ReachesEach(objs);
    |objs| == |vs| && forall i :: 0 <= i < |objs| ==> Holds(objs[i], vs[i])
  }

  /** The model's pointer to a kind is nil exactly when the list has no object of that kind. */
  ghost predicate Tracks(model: BackstageModel, kind: Kind)
    reads model
  {
    var p := model.PointerTo(kind);
    if p == null then forall r :: r in model.runtimeObjects ==> r.kind != kind
    else p in model.runtimeObjects && p.kind == kind
  }

  ghost predicate TracksAll(model: BackstageModel)
    reads model
  {
    forall kind :: kind in TRACKED ==> Tracks(model, kind)
  }

  ghost predicate Populated(model: BackstageModel)
    reads model, model.runtimeObjects
  {
    && model !in Reach(model.runtimeObjects)
    && Kept(model.runtimeObjects)
    && TracksAll(model)
  }

  ghost predicate IsPhaseOne(inp: Inputs, kind: Kind, v: ObjectV) {
    Usable(inp) && IsPlaced(inp, kind) && v == PhaseOne(inp, kind)
  }

  /** Decoding of one kind's manifest into a new wrapper. */
  method Decode(inp: Inputs, kind: Kind) returns (r: RuntimeObject, failed: bool)
    ensures failed <==> ManifestOf(inp, kind).Unreadable?
    ensures r.kind == kind && fresh(r.Footprint())
    ensures !failed ==> Decoded(inp, r)
  {
    r := new RuntimeObject(kind);
    failed := false;
    match ManifestOf(inp, kind) {
      case Unreadable =>
        failed := true;
      case NotConfigured =>
      case Configured(o) =>
        r.obj := NewObject(o);
    }
  }

  /** setMetaInfo of a wrapper that addToModel has accepted. */
  method Complete(inp: Inputs, kind: Kind, r: RuntimeObject, obj: KubeObject) returns (ghost v: ObjectV)
    requires Usable(inp) && IsPlaced(inp, kind) && Holds(r, Added(inp, kind)) && r.obj == obj
    modifies obj
    ensures Holds(r, v) && IsPhaseOne(inp, kind, v)
  {
    SetMetaInfo(inp, kind, obj);
    v := obj.Value();
  }

  /** Decoding, addToModel and setMetaInfo of one kind: a new wrapper, not added when the kind is not placed. */
  method NewRuntimeObject(inp: Inputs, kind: Kind, localDbEnabled: bool, isOpenshift: bool)
    returns (r: RuntimeObject, added: bool, failed: bool, ghost v: ObjectV)
    requires Usable(inp)
    requires localDbEnabled == inp.spec.IsLocalDbEnabled() && isOpenshift == inp.operator.isOpenShift
    ensures failed <==> IsMissing(inp, kind)
    ensures !failed ==> (added <==> IsPlaced(inp, kind))
    ensures r.kind == kind
    ensures !failed && added ==> fresh(r.Footprint()) && Holds(r, v) && IsPhaseOne(inp, kind, v)
  {
    added := false;
    v := ObjectV(Meta("", "", map[], map[], []), ConfigMapBody(None), None);
    r, failed := Decode(inp, kind);
    if failed {
      return;
    }
    added, failed := AddToModel(inp, localDbEnabled, isOpenshift, r);
    if !failed && added {
      v := Complete(inp, kind, r, r.obj);
    }
  }

  lemma ReachGrows(objs: seq<RuntimeObject>, r: RuntimeObject)
    ensures Reach(objs + [r]) == Reach(objs) + r.Footprint()
  {
    assert (objs + [r])[..|objs + [r]| - 1] == objs;
  }

  lemma KeptGrows(objs: seq<RuntimeObject>, r: RuntimeObject)
    requires Kept(objs)
    requires r.obj != null && r.obj.Valid()
    requires r.Footprint() !! Reach(objs)
    requires r.kind !in Kinds(objs)
    ensures Kept(objs + [r]) && Kinds(objs + [r]) == Kinds(objs) + [r.kind]
  {
    var all: seq<RuntimeObject> := objs + [r];
    ReachesEach(objs);
    forall i, j | 0 <= i < j < |all| ensures all[i].Footprint() !! all[j].Footprint() {
      if j == |objs| {
        assert all[i].Footprint() <= Reach(objs);
      }
    }
    assert Kinds(all) == Kinds(objs) + [r.kind];
  }

  lemma HoldsMore(objs: seq<RuntimeObject>, vs: seq<ObjectV>, r: RuntimeObject, v: ObjectV)
    requires HoldsAll(objs, vs) && Holds(r, v)
    ensures HoldsAll(objs + [r], vs + [v])
  {
  }

  lemma KindsAbsent(objs: seq<RuntimeObject>, kind: Kind)
    ensures kind !in Kinds(objs) <==> forall o :: o in objs ==> o.kind != kind
  {
    forall i | 0 <= i < |objs| ensures Kinds(objs)[i] == objs[i].kind {}
    if kind !in Kinds(objs) {
      forall o | o in objs ensures o.kind != kind {
        var i :| 0 <= i < |objs| && objs[i] == o;
        assert Kinds(objs)[i] in Kinds(objs);
      }
    }
  }

  /** Registering keeps the model's pointers in step with its list. */
  method RegisterTracked(model: BackstageModel, r: RuntimeObject)
    requires TracksAll(model) && Distinct(Kinds(model.runtimeObjects)) && r.kind !in Kinds(model.runtimeObjects)
    modifies model
    ensures model.runtimeObjects == old(model.runtimeObjects) + [r] && TracksAll(model)
  {
    KindsAbsent(model.runtimeObjects, r.kind);
    model.Register(r);
    forall kind | kind in TRACKED ensures Tracks(model, kind) {
      assert old(Tracks(model, kind));
    }
  }

  /** Registering changes the model and none of the objects. */
  method RegisterOnly(model: BackstageModel, r: RuntimeObject, ghost objs: seq<RuntimeObject>, ghost vs: seq<ObjectV>)
    requires HoldsAll(objs, vs) && model !in Reach(objs)
    requires TracksAll(model) && Distinct(Kinds(model.runtimeObjects)) && r.kind !in Kinds(model.runtimeObjects)
    modifies model
    ensures model.runtimeObjects == old(model.runtimeObjects) + [r] && TracksAll(model)
    ensures HoldsAll(objs, vs) && Reach(objs) == old(Reach(objs))
  {
    ghost var reach := Reach(objs);
    RegisterTracked(model, r);
    assert Reach(objs) == reach;
  }

  /** The end of addToModel: the new wrapper joins the model. */
  method Place(model: BackstageModel, r: RuntimeObject, ghost vs: seq<ObjectV>, ghost v: ObjectV)
    requires Populated(model) && HoldsAll(model.runtimeObjects, vs) && Holds(r, v)
    requires r.kind !in Kinds(model.runtimeObjects)
    requires r.Footprint() !! Reach(model.runtimeObjects) && model !in r.Footprint()
    modifies model
    ensures model.runtimeObjects == old(model.runtimeObjects) + [r]
    ensures Populated(model) && HoldsAll(model.runtimeObjects, vs + [v])
    ensures Kinds(model.runtimeObjects) == old(Kinds(model.runtimeObjects)) + [r.kind]
    ensures Reach(model.runtimeObjects) == old(Reach(model.runtimeObjects)) + r.Footprint()
  {
    ghost var objs: seq<RuntimeObject> := model.runtimeObjects;
    ReachGrows(objs, r);
    HoldsMore(objs, vs, r, v);
    KeptGrows(objs, r);
    RegisterOnly(model, r, objs + [r], vs + [v]);
  }

  /** One turn of the registry loop; v is the value of the new object, if the kind is placed. */
  method LoadKind(inp: Inputs, model: BackstageModel, kind: Kind, ghost vs: seq<ObjectV>, ghost reach: set<object>)
    returns (added: bool, failed: bool, ghost v: ObjectV, ghost more: set<object>)
    requires Usable(inp) && reach == Reach(model.runtimeObjects)
    requires model.localDbEnabled == inp.spec.IsLocalDbEnabled() && model.isOpenshift == inp.operator.isOpenShift
    requires Populated(model) && HoldsAll(model.runtimeObjects, vs)
    requires kind !in Kinds(model.runtimeObjects)
    modifies model
    ensures failed <==> IsMissing(inp, kind)
    ensures !failed ==> (added <==> IsPlaced(inp, kind))
    ensures !failed && !added ==> model.runtimeObjects == old(model.runtimeObjects)
    ensures !failed && added ==> Kinds(model.runtimeObjects) == old(Kinds(model.runtimeObjects)) + [kind]
    ensures !failed && added ==> IsPhaseOne(inp, kind, v)
    ensures !failed ==> Populated(model)
    ensures !failed && added ==> HoldsAll(model.runtimeObjects, vs + [v])
    ensures !failed && !added ==> HoldsAll(model.runtimeObjects, vs)
    ensures !failed ==> fresh(more) && Reach(model.runtimeObjects) == reach + more
  {
    var r;
    more := {};
    r, added, failed, v := NewRuntimeObject(inp, kind, model.localDbEnabled, model.isOpenshift);
    if failed || !added {
      return;
    }
    more := r.Footprint();
    Place(model, r, vs, v);
  }

  /** These are the objects of these kinds after phase one. */
  ghost predicate AfterPhaseOne(inp: Inputs, kinds: seq<Kind>, vs: seq<ObjectV>) {
    |kinds| == |vs| && forall i :: 0 <= i < |kinds| ==> IsPhaseOne(inp, kinds[i], vs[i])
  }

  lemma PlacedStep(inp: Inputs, registry: seq<Kind>, i: nat)
    requires i < |registry|
    ensures IsPlaced(inp, registry[i]) ==>
              PlacedKinds(inp, registry[..i + 1]) == PlacedKinds(inp, registry[..i]) + [registry[i]]
    ensures !IsPlaced(inp, registry[i]) ==>
              PlacedKinds(inp, registry[..i + 1]) == PlacedKinds(inp, registry[..i])
    ensures forall kind :: kind in PlacedKinds(inp, registry[..i]) ==> kind in registry[..i]
  {
    TakeStep(registry, i);
    FilterStep((kind: Kind) => IsPlaced(inp, kind), registry[..i], registry[i]);
    FilterMembers((kind: Kind) => IsPlaced(inp, kind), registry[..i]);
  }

  /** Where the registry loop stands after i kinds. */
  ghost predicate Loaded(inp: Inputs, registry: seq<Kind>, i: nat, kinds: seq<Kind>, vs: seq<ObjectV>)
    requires i <= |registry|
  {
    && kinds == PlacedKinds(inp, registry[..i])
    && AfterPhaseOne(inp, kinds, vs)
    && (forall kind :: kind in kinds ==> kind in registry[..i])
    && (forall j :: 0 <= j < i ==> !IsMissing(inp, registry[j]))
  }

  lemma LoadedStep(inp: Inputs, registry: seq<Kind>, i: nat, kinds: seq<Kind>, vs: seq<ObjectV>, added: bool,
                   v: ObjectV)
    requires i < |registry| && Loaded(inp, registry, i, kinds, vs) && !IsMissing(inp, registry[i])
    requires added <==> IsPlaced(inp, registry[i])
    requires added ==> IsPhaseOne(inp, registry[i], v)
    ensures added ==> Loaded(inp, registry, i + 1, kinds + [registry[i]], vs + [v])
    ensures !added ==> Loaded(inp, registry, i + 1, kinds, vs)
  {
    PlacedStep(inp, registry, i);
    TakeStep(registry, i);
  }

  lemma NotYetLoaded(inp: Inputs, registry: seq<Kind>, i: nat, kinds: seq<Kind>, vs: seq<ObjectV>)
    requires IsRegistry(registry) && i < |registry| && Loaded(inp, registry, i, kinds, vs)
    ensures registry[i] !in kinds
  {
  }

  lemma LoadedAll(inp: Inputs, registry: seq<Kind>, kinds: seq<Kind>, vs: seq<ObjectV>)
    requires IsRegistry(registry) && Loaded(inp, registry, |registry|, kinds, vs)
    ensures Ready(inp) && kinds == PlacedKinds(inp, registry) && AfterPhaseOne(inp, kinds, vs)
  {
    assert registry[..|registry|] == registry;
    forall kind ensures !IsMissing(inp, kind) {
      assert kind in registry;
    }
  }

  /** The state of the model while the registry loop runs. */
  ghost predicate Loading(inp: Inputs, registry: seq<Kind>, model: BackstageModel, i: nat, vs: seq<ObjectV>)
    requires i <= |registry|
    reads model, model.runtimeObjects, Reach(model.runtimeObjects)
  {
    && model.localDbEnabled == inp.spec.IsLocalDbEnabled() && model.isOpenshift == inp.operator.isOpenShift
    && Populated(model) && HoldsAll(model.runtimeObjects, vs)
    && Loaded(inp, registry, i, Kinds(model.runtimeObjects), vs)
  }

  /** One turn of the registry loop, with what it adds to the values and the reach. */
  method LoadTurn(inp: Inputs, model: BackstageModel, registry: seq<Kind>, i: nat, ghost vs: seq<ObjectV>,
                  ghost reach: set<object>) returns (failed: bool, ghost ws: seq<ObjectV>, ghost more: set<object>)
    requires Usable(inp) && IsRegistry(registry) && i < |registry|
    requires Loading(inp, registry, model, i, vs) && reach == Reach(model.runtimeObjects)
    modifies model
    ensures failed <==> IsMissing(inp, registry[i])
    ensures !failed ==> Loading(inp, registry, model, i + 1, ws)
    ensures !failed ==> fresh(more) && Reach(model.runtimeObjects) == reach + more
  {
    ghost var v, kinds := *, Kinds(model.runtimeObjects);
    var added;
    NotYetLoaded(inp, registry, i, kinds, vs);
    added, failed, v, more := LoadKind(inp, model, registry[i], vs, reach);
    ws := vs;
    if failed {
      return;
    }
    LoadedStep(inp, registry, i, kinds, vs, added, v);
    if added {
      ws := vs + [v];
    }
  }

  /** The registry loop of InitObjects. */
  method LoadAll(inp: Inputs, registry: seq<Kind>)
    returns (model: BackstageModel, failed: bool, ghost vs: seq<ObjectV>)
    requires Usable(inp) && IsRegistry(registry)
    ensures failed <==> !Ready(inp)
    ensures fresh(model) && (!failed ==> fresh(Reach(model.runtimeObjects)))
    ensures !failed ==> Populated(model) && Kinds(model.runtimeObjects) == PlacedKinds(inp, registry)
    ensures !failed ==> HoldsAll(model.runtimeObjects, vs) && AfterPhaseOne(inp, PlacedKinds(inp, registry), vs)
  {
    model := new BackstageModel(inp.spec.IsLocalDbEnabled(), inp.operator.isOpenShift);
    vs := [];
    ghost var reach: set<object>, more: set<object> := {}, {};
    assert Loaded(inp, registry, 0, [], []);
    for i := 0 to |registry|
      invariant Loading(inp, registry, model, i, vs)
      invariant reach == Reach(model.runtimeObjects) && fresh(reach)
    {
      failed, vs, more := LoadTurn(inp, model, registry, i, vs, reach);
      if failed {
        return;
      }
      reach := reach + more;
    }
    LoadedAll(inp, registry, Kinds(model.runtimeObjects), vs);
    failed := false;
  }
}
