/** The second half of InitObjects on the heap: every placed object is validated in place, then the list is sorted. */
module InitObjects {
  import opened Builder
  import opened KubeObjects
  import opened Names
  import opened Objects
  import opened PhaseOneHeap
  import opened Pods
  import opened Runtime
  import opened RuntimeModel
  import opened Seqs
  import opened Sorting
  import opened Validation
  import opened Validators

  /** The objects while the validation loop runs: the first i are through. */
  ghost predicate Midway(inp: Inputs, registry: seq<Kind>, kinds: seq<Kind>, i: nat, vs: seq<ObjectV>) {
    |kinds| == |vs| && forall j :: 0 <= j < |kinds| ==> Stage(inp, registry, kinds[j], j < i, vs[j])
  }

  /** The state of the model while the validation loop runs. */
  ghost predicate Validating(inp: Inputs, registry: seq<Kind>, model: BackstageModel, i: nat, vs: seq<ObjectV>)
    reads model, model.runtimeObjects, Reach(model.runtimeObjects)
  {
    && Usable(inp) && Ready(inp) && IsRegistry(registry)
    && Populated(model)
    && Kinds(model.runtimeObjects) == PlacedKinds(inp, registry)
    && HoldsAll(model.runtimeObjects, vs)
    && Midway(inp, registry, Kinds(model.runtimeObjects), i, vs)
  }

  /** A kind is in the model's list exactly when it is placed. */
  lemma InModel(inp: Inputs, registry: seq<Kind>, objs: seq<RuntimeObject>, kind: Kind)
    requires IsRegistry(registry) && Kinds(objs) == PlacedKinds(inp, registry)
    ensures IsPlaced(inp, kind) <==> exists r :: r in objs && r.kind == kind
  {
    FilterMembers((k: Kind) => IsPlaced(inp, k), registry);
    KindsAbsent(objs, kind);
  }

  /** The model's pointer to a kind is nil exactly when the kind is not placed; otherwise it holds the kind's object. */
  lemma Pointer(inp: Inputs, registry: seq<Kind>, model: BackstageModel, i: nat, vs: seq<ObjectV>, kind: Kind)
    returns (k: nat)
    requires Validating(inp, registry, model, i, vs) && kind in TRACKED
    ensures model.PointerTo(kind) == null <==> !IsPlaced(inp, kind)
    ensures model.PointerTo(kind) != null ==>
              && k < |model.runtimeObjects| && model.runtimeObjects[k] == model.PointerTo(kind)
              && Holds(model.runtimeObjects[k], vs[k]) && Stage(inp, registry, kind, k < i, vs[k])
  {
    var objs, p := model.runtimeObjects, model.PointerTo(kind);
    assert Tracks(model, kind);
    InModel(inp, registry, objs, kind);
    k := 0;
    if p != null {
      k :| 0 <= k < |objs| && objs[k] == p;
      assert Kinds(objs)[k] == kind;
    }
  }

  lemma DefaultDeltaFrom(inp: Inputs, registry: seq<Kind>, kind: Kind, done: bool, v: ObjectV)
    requires Stage(inp, registry, kind, done, v)
    ensures HasShape(kind, v) && DeltaFrom(inp, kind, v) == DefaultDelta(inp, kind)
  {
    StageKeeps(inp, registry, kind, done, v);
  }

  /** Contributors never change, so what they contribute does not depend on who was validated first. */
  lemma MidwayDeltas(inp: Inputs, registry: seq<Kind>, kinds: seq<Kind>, i: nat, vs: seq<ObjectV>)
    requires Usable(inp) && Midway(inp, registry, kinds, i, vs)
    ensures Shaped(kinds, vs) && DeltasFrom(inp, kinds, vs) == DefaultDeltas(inp, kinds)
  {
    forall j | 0 <= j < |kinds|
      ensures HasShape(kinds[j], vs[j]) && DeltaFrom(inp, kinds[j], vs[j]) == DefaultDelta(inp, kinds[j])
    {
      assert Stage(inp, registry, kinds[j], j < i, vs[j]);
      DefaultDeltaFrom(inp, registry, kinds[j], j < i, vs[j]);
    }
  }

  /** Whether validate of this kind fails. */
  ghost predicate ValidateFails(inp: Inputs, kind: Kind) {
    match kind
    case DeploymentKind =>
      KeyMissing(RefsOf(inp.spec, SecretFilesKind)) || (inp.spec.PluginsName() != "" && DirOfPlugins(inp).None?)
    case DynamicPluginsKind => DirOfPlugins(inp).None?
    case _ => false
  }

  lemma {:induction false} SomeValidateFails(inp: Inputs, registry: seq<Kind>)
    requires Ready(inp) && IsRegistry(registry)
    ensures PhaseTwoFails(inp) <==> exists kind :: kind in PlacedKinds(inp, registry) && ValidateFails(inp, kind)
  {
    FilterMembers((k: Kind) => IsPlaced(inp, k), registry);
    assert !IsMissing(inp, DeploymentKind) && IsPlaced(inp, DeploymentKind);
    assert DeploymentKind in PlacedKinds(inp, registry);
    assert ValidateFails(inp, DynamicPluginsKind) <==> DirOfPlugins(inp).None?;
    assert DynamicPluginsKind in PlacedKinds(inp, registry) <==> IsPlaced(inp, DynamicPluginsKind);
    if PhaseTwoFails(inp) && !ValidateFails(inp, DeploymentKind) {
      assert DynamicPluginsKind in PlacedKinds(inp, registry) && ValidateFails(inp, DynamicPluginsKind);
    }
  }

  lemma MidwayStep(inp: Inputs, registry: seq<Kind>, kinds: seq<Kind>, i: nat, vs: seq<ObjectV>, v: ObjectV)
    requires Midway(inp, registry, kinds, i, vs) && i < |kinds| && Stage(inp, registry, kinds[i], true, v)
    ensures Midway(inp, registry, kinds, i + 1, vs[i := v])
  {
  }

  /** The object of one wrapper contains no wrapper and no other wrapper's object. */
  lemma Apart(objs: seq<RuntimeObject>, i: nat, j: nat)
    requires Kept(objs) && i < |objs| && j < |objs|
    ensures objs[j] !in objs[i].obj.Footprint()
    ensures i != j ==> objs[j].obj !in objs[i].obj.Footprint() && objs[j].Footprint() !! objs[i].obj.Footprint()
  {
    if i < j {
      assert objs[i].Footprint() !! objs[j].Footprint();
    } else if j < i {
      assert objs[j].Footprint() !! objs[i].Footprint();
    }
  }

  /** What BackstageDeployment.validate needs to know of the list it walks. */
  ghost predicate Contributors(objs: seq<RuntimeObject>, d: KubeObject, vs: seq<ObjectV>)
    requires |objs| == |vs|
    reads objs, set i | 0 <= i < |objs| :: objs[i].obj
  {
    forall j :: 0 <= j < |objs| ==>
      && objs[j] !in d.Footprint() && objs[j].obj != null
      && (if objs[j].kind == DeploymentKind then objs[j].obj == d
          else objs[j].obj !in d.Footprint() && Shows(objs[j], vs[j]))
  }

  lemma AllContribute(objs: seq<RuntimeObject>, i: nat, vs: seq<ObjectV>)
    requires Kept(objs) && HoldsAll(objs, vs) && i < |objs| && objs[i].kind == DeploymentKind
    ensures Contributors(objs, objs[i].obj, vs)
  {
    forall j | 0 <= j < |objs|
      ensures objs[j] !in objs[i].obj.Footprint() && objs[j].obj != null
      ensures objs[j].kind == DeploymentKind ==> j == i
      ensures j != i ==> objs[j].obj !in objs[i].obj.Footprint() && Shows(objs[j], vs[j])
    {
      Apart(objs, i, j);
      assert Kinds(objs)[j] == objs[j].kind && Kinds(objs)[i] == objs[i].kind;
      assert Holds(objs[j], vs[j]);
    }
  }

  /** Everything that BackstageDeployment.validate dereferences is there. */
  ghost predicate Prepared(inp: Inputs, registry: seq<Kind>, objs: seq<RuntimeObject>, vs: seq<ObjectV>,
                           d: KubeObject, dbSecret: RuntimeObject?)
    reads *
  {
    && Usable(inp) && ValidOrder(inp.order) && d.Valid() && IsPhaseOne(inp, DeploymentKind, d.Value())
    && Shaped(Kinds(objs), vs)
    && DeltasFrom(inp, Kinds(objs), vs) == DefaultDeltas(inp, PlacedKinds(inp, registry))
    && Contributors(objs, d, vs)
    && (dbSecret == null <==> !IsPlaced(inp, DbSecretKind))
    && (dbSecret != null ==>
          && dbSecret !in d.Footprint() && dbSecret.obj != null && dbSecret.obj !in d.Footprint()
          && dbSecret.obj.meta.name == RuntimeName(DbSecretKind, inp.name))
  }

  lemma SecretIsApart(inp: Inputs, registry: seq<Kind>, model: BackstageModel, i: nat, vs: seq<ObjectV>)
    requires Validating(inp, registry, model, i, vs)
    requires i < |model.runtimeObjects| && model.runtimeObjects[i].kind == DeploymentKind
    ensures model.localDbSecret == null <==> !IsPlaced(inp, DbSecretKind)
    ensures model.localDbSecret != null ==>
              && model.localDbSecret !in model.runtimeObjects[i].obj.Footprint()
              && model.localDbSecret.obj != null
              && model.localDbSecret.obj !in model.runtimeObjects[i].obj.Footprint()
              && model.localDbSecret.obj.meta.name == RuntimeName(DbSecretKind, inp.name)
  {
    var k := Pointer(inp, registry, model, i, vs, DbSecretKind);
    if model.localDbSecret != null {
      StageKeeps(inp, registry, DbSecretKind, k < i, vs[k]);
      Apart(model.runtimeObjects, i, k);
    }
  }

  lemma AtStage(inp: Inputs, registry: seq<Kind>, model: BackstageModel, i: nat, vs: seq<ObjectV>)
    requires Validating(inp, registry, model, i, vs) && i < |model.runtimeObjects|
    ensures Holds(model.runtimeObjects[i], vs[i])
    ensures Stage(inp, registry, model.runtimeObjects[i].kind, false, vs[i])
  {
    assert Kinds(model.runtimeObjects)[i] == model.runtimeObjects[i].kind;
  }

  lemma Prepare(inp: Inputs, registry: seq<Kind>, model: BackstageModel, i: nat, vs: seq<ObjectV>)
    requires Validating(inp, registry, model, i, vs) && ValidOrder(inp.order)
    requires i < |model.runtimeObjects| && model.runtimeObjects[i].kind == DeploymentKind
    ensures model.runtimeObjects[i].obj != null
    ensures Prepared(inp, registry, model.runtimeObjects, vs, model.runtimeObjects[i].obj, model.localDbSecret)
  {
    var objs := model.runtimeObjects;
    AtStage(inp, registry, model, i, vs);
    SecretIsApart(inp, registry, model, i, vs);
    MidwayDeltas(inp, registry, Kinds(objs), i, vs);
    AllContribute(objs, i, vs);
  }

  method ValidatePrepared(inp: Inputs, objs: seq<RuntimeObject>, d: KubeObject, dbSecret: RuntimeObject?,
                          ghost registry: seq<Kind>, ghost vs: seq<ObjectV>) returns (failed: bool)
    requires Prepared(inp, registry, objs, vs, d, dbSecret) && Ready(inp)
    modifies d.Footprint()
    ensures failed <==> ValidateFails(inp, DeploymentKind)
    ensures !failed ==> Stage(inp, registry, DeploymentKind, true, d.Value())
  {
    failed := ValidateDeployment(inp, objs, d, dbSecret, registry, vs);
  }

  /** The services never change, so whoever reads one through the model's pointer sees it as after phase one. */
  lemma ServiceShows(inp: Inputs, registry: seq<Kind>, model: BackstageModel, i: nat, vs: seq<ObjectV>, kind: Kind)
    requires Validating(inp, registry, model, i, vs) && kind in {DbServiceKind, ServiceKind} && IsPlaced(inp, kind)
    ensures model.PointerTo(kind) != null && Shows(model.PointerTo(kind), PhaseOne(inp, kind))
  {
    var k := Pointer(inp, registry, model, i, vs, kind);
    StageKeeps(inp, registry, kind, k < i, vs[k]);
  }

  /** Once phase one has succeeded, whoever needs a service finds it. */
  lemma ServicesArePlaced(inp: Inputs)
    requires Ready(inp)
    ensures IsPlaced(inp, ServiceKind) && IsPlaced(inp, DeploymentKind)
    ensures IsPlaced(inp, DbSecretKind) ==> IsPlaced(inp, DbServiceKind)
  {
    assert !IsMissing(inp, ServiceKind) && !IsMissing(inp, DeploymentKind) && !IsMissing(inp, DbServiceKind);
  }

  lemma DeploymentDir(inp: Inputs, registry: seq<Kind>, model: BackstageModel, i: nat, vs: seq<ObjectV>)
    requires Validating(inp, registry, model, i, vs)
    ensures model.backstageDeployment != null && model.backstageDeployment.obj != null
    ensures model.backstageDeployment.obj.pod != null
    ensures PluginsDir(model.backstageDeployment.obj.pod.Value().initContainers) == DirOfPlugins(inp)
  {
    ServicesArePlaced(inp);
    var k := Pointer(inp, registry, model, i, vs, DeploymentKind);
    StageKeeps(inp, registry, DeploymentKind, k < i, vs[k]);
  }

  lemma SecretNamed(inp: Inputs, registry: seq<Kind>, model: BackstageModel, i: nat, vs: seq<ObjectV>)
    requires Validating(inp, registry, model, i, vs)
    ensures model.localDbSecret == null <==> !IsPlaced(inp, DbSecretKind)
    ensures model.localDbSecret != null ==>
              && model.localDbSecret.obj != null
              && model.localDbSecret.obj.meta.name == RuntimeName(DbSecretKind, inp.name)
  {
    var k := Pointer(inp, registry, model, i, vs, DbSecretKind);
    if model.localDbSecret != null {
      StageKeeps(inp, registry, DbSecretKind, k < i, vs[k]);
    }
  }

  lemma NothingToDo(inp: Inputs, registry: seq<Kind>, kind: Kind, v: ObjectV)
    requires Stage(inp, registry, kind, false, v)
    requires kind !in {DeploymentKind, DbSecretKind, DbStatefulSetKind, RouteKind}
    ensures Stage(inp, registry, kind, true, v)
  {
  }

  /** validate of object i, which is d: it alone changes. */
  method ValidateAt(inp: Inputs, model: BackstageModel, i: nat, d: KubeObject, ghost registry: seq<Kind>,
                    ghost vs: seq<ObjectV>, ghost frame: set<object>) returns (failed: bool)
    requires Validating(inp, registry, model, i, vs) && ValidOrder(inp.order)
    requires i < |model.runtimeObjects| && model.runtimeObjects[i].obj == d && frame == d.Footprint()
    modifies frame
    ensures failed <==> ValidateFails(inp, old(model.runtimeObjects[i].kind))
    ensures !failed ==> Stage(inp, registry, old(model.runtimeObjects[i].kind), true, d.Value())
  {
    AtStage(inp, registry, model, i, vs);
    ServicesArePlaced(inp);
    failed := false;
    match model.runtimeObjects[i].kind {
      case DeploymentKind =>
        Prepare(inp, registry, model, i, vs);
        failed := ValidatePrepared(inp, model.runtimeObjects, d, model.localDbSecret, registry, vs);
      case DbSecretKind =>
        ServiceShows(inp, registry, model, i, vs, DbServiceKind);
        ValidateDbSecret(inp, d, model.localDbService, registry);
      case DbStatefulSetKind =>
        SecretNamed(inp, registry, model, i, vs);
        ValidateDbStatefulSet(inp, d, model.localDbSecret, registry);
      case DynamicPluginsKind =>
        DeploymentDir(inp, registry, model, i, vs);
        NothingToDo(inp, registry, DynamicPluginsKind, d.Value());
        failed := ValidateDynamicPlugins(inp, model.backstageDeployment.obj.pod);
      case RouteKind =>
        ServiceShows(inp, registry, model, i, vs, ServiceKind);
        ValidateRoute(inp, d, model.backstageService, registry);
      case kind =>
        NothingToDo(inp, registry, kind, d.Value());
    }
  }

  /** No object of the model contains the model or a wrapper. */
  lemma ModelIsApart(model: BackstageModel, i: nat)
    requires Populated(model) && i < |model.runtimeObjects|
    ensures model !in model.runtimeObjects[i].obj.Footprint()
    ensures model.runtimeObjects[i].obj.Footprint() <= Reach(model.runtimeObjects)
    ensures forall j :: 0 <= j < |model.runtimeObjects| ==>
              model.runtimeObjects[j] !in model.runtimeObjects[i].obj.Footprint()
  {
    ReachesEach(model.runtimeObjects);
    assert model.runtimeObjects[i].obj.Footprint() <= model.runtimeObjects[i].Footprint();
    forall j | 0 <= j < |model.runtimeObjects|
      ensures model.runtimeObjects[j] !in model.runtimeObjects[i].obj.Footprint()
    {
      Apart(model.runtimeObjects, i, j);
    }
  }

  lemma {:induction false} ReachIsApart(objs: seq<RuntimeObject>, frame: set<object>)
    requires forall j :: 0 <= j < |objs| ==> objs[j].Footprint() !! frame
    ensures Reach(objs) !! frame
  {
    if objs != [] {
      ReachIsApart(objs[..|objs| - 1], frame);
    }
  }

  /** All objects of the list but one. */
  function Others<T>(s: seq<T>, i: nat): seq<T>
    requires i < |s|
  {
    s[..i] + s[i + 1..]
  }

  lemma OthersAreApart(objs: seq<RuntimeObject>, vs: seq<ObjectV>, i: nat)
    requires Kept(objs) && HoldsAll(objs, vs) && i < |objs|
    ensures Reach(Others(objs, i)) !! objs[i].obj.Footprint()
    ensures forall r :: r in Others(objs, i) ==> r !in objs[i].obj.Footprint()
    ensures HoldsAll(Others(objs, i), Others(vs, i))
  {
    var others := Others(objs, i);
    forall j | 0 <= j < |others|
      ensures others[j].Footprint() !! objs[i].obj.Footprint() && Holds(others[j], Others(vs, i)[j])
    {
      var k := if j < i then j else j + 1;
      assert others[j] == objs[k] && Others(vs, i)[j] == vs[k];
      Apart(objs, i, k);
      assert Holds(objs[k], vs[k]);
    }
    ReachIsApart(others, objs[i].obj.Footprint());
  }

  lemma AllButOne(objs: seq<RuntimeObject>, vs: seq<ObjectV>, i: nat, v: ObjectV)
    requires i < |objs| == |vs|
    requires HoldsAll(Others(objs, i), Others(vs, i)) && Holds(objs[i], v)
    ensures HoldsAll(objs, vs[i := v])
  {
    forall j | 0 <= j < |objs| ensures Holds(objs[j], vs[i := v][j]) {
      if j != i {
        var k := if j < i then j else j - 1;
        assert Others(objs, i)[k] == objs[j] && Others(vs, i)[k] == vs[j];
        assert Holds(Others(objs, i)[k], Others(vs, i)[k]);
      }
    }
  }

  /** Only object i changes; whoever shares nothing with it keeps what he held. */
  method ChangeOnly(inp: Inputs, model: BackstageModel, i: nat, d: KubeObject, ghost registry: seq<Kind>,
                    ghost vs: seq<ObjectV>, ghost frame: set<object>, ghost others: seq<RuntimeObject>,
                    ghost held: seq<ObjectV>, ghost reach: set<object>) returns (failed: bool)
    requires Validating(inp, registry, model, i, vs) && ValidOrder(inp.order)
    requires i < |model.runtimeObjects| && model.runtimeObjects[i].obj == d && frame == d.Footprint()
    requires HoldsAll(others, held) && reach == Reach(others) && reach !! frame
    requires forall r :: r in others ==> r !in frame
    modifies frame
    ensures failed <==> ValidateFails(inp, old(model.runtimeObjects[i].kind))
    ensures !failed ==> Stage(inp, registry, old(model.runtimeObjects[i].kind), true, d.Value())
    ensures HoldsAll(others, held)
  {
    failed := ValidateAt(inp, model, i, d, registry, vs, frame);
  }

  /** Only object i changes, so the others hold what they held. */
  method ChangeOne(inp: Inputs, model: BackstageModel, i: nat, d: KubeObject, ghost registry: seq<Kind>,
                   ghost vs: seq<ObjectV>, ghost frame: set<object>, ghost others: seq<RuntimeObject>,
                   ghost reach: set<object>) returns (failed: bool)
    requires Validating(inp, registry, model, i, vs) && ValidOrder(inp.order)
    requires i < |model.runtimeObjects| && model.runtimeObjects[i].obj == d && frame == d.Footprint()
    requires others == Others(model.runtimeObjects, i) && reach == Reach(others)
    modifies frame
    ensures failed <==> ValidateFails(inp, old(model.runtimeObjects[i].kind))
    ensures !failed ==> Stage(inp, registry, old(model.runtimeObjects[i].kind), true, d.Value())
    ensures HoldsAll(others, Others(vs, i))
  {
    OthersAreApart(model.runtimeObjects, vs, i);
    failed := ChangeOnly(inp, model, i, d, registry, vs, frame, others, Others(vs, i), reach);
  }

  /** The model and its wrappers stay as they were. */
  method ChangeInPlace(inp: Inputs, model: BackstageModel, i: nat, d: KubeObject, ghost registry: seq<Kind>,
                       ghost vs: seq<ObjectV>, ghost frame: set<object>, ghost objs: seq<RuntimeObject>,
                       ghost reach: set<object>) returns (failed: bool)
    requires Validating(inp, registry, model, i, vs) && ValidOrder(inp.order)
    requires i < |objs| && model.runtimeObjects == objs && objs[i].obj == d && frame == d.Footprint()
    requires reach == Reach(objs) && model !in frame && forall j :: 0 <= j < |objs| ==> objs[j] !in frame
    modifies frame
    ensures failed <==> ValidateFails(inp, objs[i].kind)
    ensures !failed ==> Stage(inp, registry, objs[i].kind, true, d.Value())
    ensures HoldsAll(Others(objs, i), Others(vs, i))
    ensures model.runtimeObjects == objs && Reach(objs) == reach && TracksAll(model)
  {
    failed := ChangeOne(inp, model, i, d, registry, vs, frame, Others(objs, i), Reach(Others(objs, i)));
  }

  /** The same, with the model still in order. */
  method ChangeAndKeep(inp: Inputs, model: BackstageModel, i: nat, ghost registry: seq<Kind>, ghost vs: seq<ObjectV>,
                       ghost reach: set<object>) returns (failed: bool, ghost v: ObjectV)
    requires Validating(inp, registry, model, i, vs) && ValidOrder(inp.order)
    requires i < |model.runtimeObjects| && reach == Reach(model.runtimeObjects)
    modifies reach
    ensures model.runtimeObjects == old(model.runtimeObjects) && i < |model.runtimeObjects| == |vs|
    ensures reach == Reach(model.runtimeObjects) && Populated(model)
    ensures failed <==> ValidateFails(inp, model.runtimeObjects[i].kind)
    ensures !failed ==> Stage(inp, registry, model.runtimeObjects[i].kind, true, v)
    ensures !failed ==> HoldsAll(model.runtimeObjects, vs[i := v])
  {
    ghost var objs: seq<RuntimeObject> := model.runtimeObjects;
    var d := model.runtimeObjects[i].obj;
    ModelIsApart(model, i);
    AtStage(inp, registry, model, i, vs);
    failed := ChangeInPlace(inp, model, i, d, registry, vs, d.Footprint(), objs, reach);
    v := d.Value();
    if !failed {
      AllButOne(objs, vs, i, v);
    }
  }

  /** One turn of the validation loop. */
  method ValidateStep(inp: Inputs, model: BackstageModel, i: nat, ghost registry: seq<Kind>, ghost vs: seq<ObjectV>,
                      ghost reach: set<object>) returns (failed: bool, ghost v: ObjectV)
    requires Validating(inp, registry, model, i, vs) && ValidOrder(inp.order)
    requires i < |model.runtimeObjects| && reach == Reach(model.runtimeObjects)
    modifies reach
    ensures model.runtimeObjects == old(model.runtimeObjects) && i < |model.runtimeObjects|
    ensures reach == Reach(model.runtimeObjects)
    ensures failed <==> ValidateFails(inp, model.runtimeObjects[i].kind)
    ensures !failed ==> i < |vs| && Validating(inp, registry, model, i + 1, vs[i := v])
  {
    ghost var kinds := Kinds(model.runtimeObjects);
    failed, v := ChangeAndKeep(inp, model, i, registry, vs, reach);
    if !failed {
      MidwayStep(inp, registry, kinds, i, vs, v);
    }
  }

  /** The validation loop of InitObjects. */
  method ValidateAll(inp: Inputs, model: BackstageModel, ghost registry: seq<Kind>, ghost vs: seq<ObjectV>,
                     ghost reach: set<object>) returns (failed: bool, ghost ws: seq<ObjectV>)
    requires Validating(inp, registry, model, 0, vs) && ValidOrder(inp.order)
    requires reach == Reach(model.runtimeObjects)
    modifies reach
    ensures model.runtimeObjects == old(model.runtimeObjects)
    ensures failed <==> PhaseTwoFails(inp)
    ensures !failed ==> Validating(inp, registry, model, |model.runtimeObjects|, ws)
    ensures !failed ==> reach == Reach(model.runtimeObjects)
  {
    ws := vs;
    SomeValidateFails(inp, registry);
    ghost var kinds := PlacedKinds(inp, registry);
    for i := 0 to |model.runtimeObjects|
      invariant model.runtimeObjects == old(model.runtimeObjects)
      invariant |kinds| == |model.runtimeObjects|
      invariant reach == Reach(model.runtimeObjects)
      invariant Validating(inp, registry, model, i, ws)
      invariant forall j :: 0 <= j < i ==> !ValidateFails(inp, kinds[j])
    {
      ghost var v;
      assert kinds[i] == Kinds(model.runtimeObjects)[i] == model.runtimeObjects[i].kind;
      failed, v := ValidateStep(inp, model, i, registry, ws, reach);
      if failed {
        assert kinds[i] in kinds;
        return;
      }
      ws := ws[i := v];
    }
    failed := false;
  }

  lemma {:induction false} FilterKinds(p: RuntimeObject -> bool, q: Kind -> bool, objs: seq<RuntimeObject>)
    requires forall r :: r in objs ==> (p(r) <==> q(r.kind))
    ensures Kinds(Filter(p, objs)) == Filter(q, Kinds(objs))
  {
    if objs != [] {
      var init, last := objs[..|objs| - 1], objs[|objs| - 1];
      FilterKinds(p, q, init);
      assert Kinds(objs) == Kinds(init) + [last.kind];
      FilterStep(q, Kinds(init), last.kind);
    }
  }

  /** Sorting wrappers sorts their kinds. */
  lemma SortedKindsOf(objs: seq<RuntimeObject>)
    ensures Kinds(Sorted(KindOf, objs)) == SortedKinds(Kinds(objs))
  {
    forall r: RuntimeObject | r in objs
      ensures OfDeployment<RuntimeObject>(KindOf)(r) <==> OfDeployment(Itself)(r.kind)
      ensures OfOrdinary<RuntimeObject>(KindOf)(r) <==> OfOrdinary(Itself)(r.kind)
      ensures OfStatefulSet<RuntimeObject>(KindOf)(r) <==> OfStatefulSet(Itself)(r.kind)
    {
      assert KindOf(r) == Itself(r.kind);
    }
    FilterKinds(OfDeployment<RuntimeObject>(KindOf), OfDeployment(Itself), objs);
    FilterKinds(OfOrdinary<RuntimeObject>(KindOf), OfOrdinary(Itself), objs);
    FilterKinds(OfStatefulSet<RuntimeObject>(KindOf), OfStatefulSet(Itself), objs);
  }

  /** The wrappers are those of the specification, in its order. */
  ghost predicate Shown(objs: seq<RuntimeObject>, built: seq<RuntimeObjectV>)
    reads objs, Reach(objs)
  {
    ReachesEach(objs);
    && |objs| == |built|
    && forall k :: 0 <= k < |objs| ==> objs[k].kind == built[k].kind && Holds(objs[k], built[k].value)
  }

  lemma Validated(inp: Inputs, registry: seq<Kind>, model: BackstageModel, vs: seq<ObjectV>, r: RuntimeObject)
    requires Validating(inp, registry, model, |model.runtimeObjects|, vs) && r in model.runtimeObjects
    ensures IsPlaced(inp, r.kind) && Holds(r, PhaseTwo(inp, registry, r.kind))
  {
    var i :| 0 <= i < |model.runtimeObjects| && model.runtimeObjects[i] == r;
    assert Kinds(model.runtimeObjects)[i] == r.kind;
    assert Stage(inp, registry, r.kind, true, vs[i]);
  }

  lemma SortedFrom(objs: seq<RuntimeObject>, r: RuntimeObject)
    requires r in Sorted<RuntimeObject>(KindOf, objs)
    ensures r in objs
  {
    SortedMembers<RuntimeObject>(KindOf, objs);
  }

  lemma SortedShows(inp: Inputs, registry: seq<Kind>, model: BackstageModel, vs: seq<ObjectV>)
    requires Validating(inp, registry, model, |model.runtimeObjects|, vs)
    ensures Shown(Sorted(KindOf, model.runtimeObjects), Built(inp, registry))
  {
    var sorted: seq<RuntimeObject> := Sorted(KindOf, model.runtimeObjects);
    SortedKindsOf(model.runtimeObjects);
    SortedPlaced(inp, registry);
    forall k | 0 <= k < |sorted|
      ensures sorted[k].kind == Kinds(sorted)[k]
      ensures IsPlaced(inp, sorted[k].kind) && Holds(sorted[k], PhaseTwo(inp, registry, sorted[k].kind))
    {
      SortedFrom(model.runtimeObjects, sorted[k]);
      Validated(inp, registry, model, vs, sorted[k]);
    }
  }

  lemma StartValidating(inp: Inputs, registry: seq<Kind>, kinds: seq<Kind>, vs: seq<ObjectV>)
    requires Usable(inp) && Ready(inp) && kinds == PlacedKinds(inp, registry) && AfterPhaseOne(inp, kinds, vs)
    ensures Midway(inp, registry, kinds, 0, vs)
  {
    forall j | 0 <= j < |kinds| ensures Stage(inp, registry, kinds[j], j < 0, vs[j]) {
      assert IsPhaseOne(inp, kinds[j], vs[j]);
    }
  }

  lemma {:induction false} ReachOfMembers(objs: seq<RuntimeObject>, all: seq<RuntimeObject>)
    requires forall r :: r in objs ==> r in all
    ensures Reach(objs) <= Reach(all)
  {
    ReachesEach(all);
    if objs != [] {
      ReachOfMembers(objs[..|objs| - 1], all);
      assert objs[|objs| - 1] in all;
    }
  }

  lemma SortedIsApart(model: BackstageModel)
    requires Populated(model)
    ensures Reach(Sorted<RuntimeObject>(KindOf, model.runtimeObjects)) <= Reach(model.runtimeObjects)
    ensures model !in Reach(Sorted<RuntimeObject>(KindOf, model.runtimeObjects))
  {
    forall r: RuntimeObject | r in Sorted<RuntimeObject>(KindOf, model.runtimeObjects)
      ensures r in model.runtimeObjects
    {
      SortedFrom(model.runtimeObjects, r);
    }
    ReachOfMembers(Sorted<RuntimeObject>(KindOf, model.runtimeObjects), model.runtimeObjects);
  }

  lemma KeptPair(objs: seq<RuntimeObject>, a: RuntimeObject, b: RuntimeObject)
    requires Kept(objs) && a in objs && b in objs && a != b
    ensures a.Footprint() !! b.Footprint()
  {
    var i :| 0 <= i < |objs| && objs[i] == a;
    var j :| 0 <= j < |objs| && objs[j] == b;
    if i < j {
      assert objs[i].Footprint() !! objs[j].Footprint();
    } else {
      assert objs[j].Footprint() !! objs[i].Footprint();
    }
  }

  lemma SortedIsKept(objs: seq<RuntimeObject>)
    requires Kept(objs)
    ensures Kept(Sorted<RuntimeObject>(KindOf, objs))
  {
    var sorted: seq<RuntimeObject> := Sorted(KindOf, objs);
    SortedKindsOf(objs);
    SortedPermutes(Itself, Kinds(objs));
    PermutedIsDistinct(Kinds(objs), Kinds(sorted));
    forall i | 0 <= i < |sorted| ensures sorted[i] in objs && sorted[i].obj != null && sorted[i].obj.Valid() {
      SortedFrom(objs, sorted[i]);
    }
    forall i, j | 0 <= i < j < |sorted| ensures sorted[i].Footprint() !! sorted[j].Footprint() {
      assert Kinds(sorted)[i] != Kinds(sorted)[j];
      KeptPair(objs, sorted[i], sorted[j]);
    }
  }

  /** Sorting changes the list and none of the objects. */
  method SortShown(model: BackstageModel, ghost sorted: seq<RuntimeObject>, ghost reach: set<object>,
                   ghost built: seq<RuntimeObjectV>)
    requires sorted == Sorted<RuntimeObject>(KindOf, model.runtimeObjects) && Shown(sorted, built) && Kept(sorted)
    requires reach == Reach(sorted) && model !in reach && |model.runtimeObjects| <= 12
    modifies model
    ensures model.runtimeObjects == sorted && Shown(sorted, built) && Kept(sorted) && reach == Reach(sorted)
  {
    model.SortRuntimeObjects();
  }

  /** The model built on the heap is the one the pure builder describes, and fails exactly when it does. */
  method InitObjects(inp: Inputs, registry: seq<Kind>) returns (model: BackstageModel, failed: bool)
    requires Usable(inp) && IsRegistry(registry) && ValidOrder(inp.order)
    ensures failed <==> !Succeeds(inp)
    ensures fresh(model)
    ensures !failed ==> fresh(Reach(model.runtimeObjects)) && Shown(model.runtimeObjects, Built(inp, registry))
    ensures !failed ==> Kept(model.runtimeObjects)
  {
    ghost var vs, ws;
    model, failed, vs := LoadAll(inp, registry);
    if failed {
      return;
    }
    ghost var reach := Reach(model.runtimeObjects);
    StartValidating(inp, registry, Kinds(model.runtimeObjects), vs);
    failed, ws := ValidateAll(inp, model, registry, vs, reach);
    if failed {
      return;
    }
    SortedShows(inp, registry, model, ws);
    SortedIsApart(model);
    SortedIsKept(model.runtimeObjects);
    AtMostTwelve(model.runtimeObjects);
    ghost var sorted: seq<RuntimeObject> := Sorted(KindOf, model.runtimeObjects);
    SortShown(model, sorted, Reach(sorted), Built(inp, registry));
  }
}
