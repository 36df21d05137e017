/** validate of the wrapper types on the heap, and the loop that runs them all. */
module Validation {
  import opened BackstageApi
  import opened Builder
  import opened DeploymentPod
  import opened KubeObjects
  import opened Names
  import opened Objects
  import opened PodMutator
  import opened Pods
  import opened Runtime
  import opened RuntimeModel
  import opened Wrappers

  /** The fields of a wrapped object that others read. */
  ghost predicate Shows(r: RuntimeObject, v: ObjectV)
    reads r, r.obj
  {
    r.obj != null && r.obj.meta == v.meta && r.obj.body == v.body
  }

  /** The updatePod that a wrapper has, if its type is a BackstagePodContributor. */
  method AsContributor(r: RuntimeObject, ghost v: ObjectV) returns (c: Option<Contribution>)
    requires Shows(r, v) && HasShape(r.kind, v)
    ensures c == DefaultContribution(r.kind, v)
  {
    var name := r.obj.meta.name;
    match r.kind {
      case AppConfigKind => c := Some(AppConfigC(name, r.obj.body.data, DEFAULT_MOUNT_DIR, ""));
      case ConfigMapFilesKind => c := Some(FilesC(ConfigMapObject, name, r.obj.body.data, DEFAULT_MOUNT_DIR, ""));
      case SecretFilesKind => c := Some(FilesC(SecretObject, name, r.obj.body.stringData, DEFAULT_MOUNT_DIR, ""));
      case ConfigMapEnvsKind => c := Some(EnvsC(ConfigMapObject, name, ""));
      case SecretEnvsKind => c := Some(EnvsC(SecretObject, name, ""));
      case DynamicPluginsKind => c := Some(PluginsC(name, r.obj.body.data));
      case _ => c := None;
    }
  }

  /** The delta of the wrapper holding v, in its turn as a default contributor. */
  ghost function DeltaFrom(inp: Inputs, kind: Kind, v: ObjectV): Delta
    requires HasShape(kind, v)
  {
    var c := DefaultContribution(kind, v);
    if c.None? then NOTHING else DeltaOf(c.value, Default(kind), inp.order, DirOfPlugins(inp))
  }

  ghost predicate Shaped(kinds: seq<Kind>, vs: seq<ObjectV>) {
    |kinds| == |vs| && forall i :: 0 <= i < |kinds| ==> HasShape(kinds[i], vs[i])
  }

  ghost function DeltasFrom(inp: Inputs, kinds: seq<Kind>, vs: seq<ObjectV>): seq<Delta>
    requires Shaped(kinds, vs)
  {
    seq(|kinds|, i requires 0 <= i < |kinds| => DeltaFrom(inp, kinds[i], vs[i]))
  }

  /** One turn of the loop over model.RuntimeObjects in BackstageDeployment.validate. */
  method ContributeDefault(inp: Inputs, r: RuntimeObject, pod: PodSpec, ghost v: ObjectV, ghost was: PodV,
                           ghost soFar: Delta)
    requires was.containers != [] && Progress(pod, was, DirOfPlugins(inp), soFar) && ValidOrder(inp.order)
    requires HasShape(r.kind, v) && Shows(r, v)
    modifies pod.Footprint()
    ensures Progress(pod, was, DirOfPlugins(inp), Plus(soFar, DeltaFrom(inp, r.kind, v)))
  {
    var c := AsContributor(r, v);
    if c.Some? {
      Contribute(pod, c.value, Default(r.kind), inp.order, was, DirOfPlugins(inp), soFar);
    } else {
      PlusAssociates(soFar, NOTHING, NOTHING);
    }
  }

  ghost predicate AllShow(objs: seq<RuntimeObject>, vs: seq<ObjectV>)
    reads objs, set i | 0 <= i < |objs| :: objs[i].obj
  {
    |objs| == |vs| && forall i :: 0 <= i < |objs| ==> Shows(objs[i], vs[i])
  }

  /** The loop over model.RuntimeObjects in BackstageDeployment.validate. */
  method ContributeDefaults(inp: Inputs, objs: seq<RuntimeObject>, pod: PodSpec,
                            ghost vs: seq<ObjectV>, ghost was: PodV, ghost soFar: Delta, ghost foot: set<object>)
    requires was.containers != [] && Progress(pod, was, DirOfPlugins(inp), soFar) && ValidOrder(inp.order)
    requires Shaped(Kinds(objs), vs) && AllShow(objs, vs) && foot == pod.Footprint()
    requires forall i :: 0 <= i < |objs| ==> objs[i] !in foot && objs[i].obj !in foot
    modifies foot
    ensures Progress(pod, was, DirOfPlugins(inp), Plus(soFar, Sum(DeltasFrom(inp, Kinds(objs), vs))))
  {
    ghost var ds := DeltasFrom(inp, Kinds(objs), vs);
    PlusAssociates(soFar, NOTHING, NOTHING);
    for i := 0 to |objs|
      invariant Progress(pod, was, DirOfPlugins(inp), Plus(soFar, Sum(ds[..i])))
      invariant AllShow(objs, vs)
    {
      assert Kinds(objs)[i] == objs[i].kind;
      AddsUp(soFar, ds, i);
      ContributeDefault(inp, objs[i], pod, vs[i], was, Plus(soFar, Sum(ds[..i])));
    }
    assert ds[..|ds|] == ds;
  }

  /** The five lists and the dynamic plugins of the CR, in this order; stops at the first error. */
  method ContributeSpec(inp: Inputs, pod: PodSpec, ghost was: PodV, ghost soFar: Delta)
    returns (failed: bool, ghost total: Delta)
    requires was.containers != [] && Progress(pod, was, DirOfPlugins(inp), soFar) && ValidOrder(inp.order)
    modifies pod.Footprint()
    ensures failed <==> KeyMissing(RefsOf(inp.spec, SecretFilesKind))
                        || (inp.spec.PluginsName() != "" && DirOfPlugins(inp).None?)
    ensures !failed ==> Progress(pod, was, DirOfPlugins(inp), total) && total == WithSpecLists(inp, soFar)
  {
    total := Plus(soFar, Sum(ListBlock(inp, AppConfigKind)));
    AddAppConfigs(inp, pod, was, soFar);
    AddConfigMapFiles(inp, pod, was, total);
    total := Plus(total, Sum(ListBlock(inp, ConfigMapFilesKind)));
    AddConfigMapEnvs(inp, pod, was, total);
    total := Plus(total, Sum(ListBlock(inp, ConfigMapEnvsKind)));
    failed := AddSecretFiles(inp, pod, was, total);
    if failed {
      return;
    }
    total := Plus(total, Sum(ListBlock(inp, SecretFilesKind)));
    AddSecretEnvs(inp, pod, was, total);
    total := Plus(total, Sum(ListBlock(inp, SecretEnvsKind)));
    failed := AddDynamicPlugins(inp, pod, was, total);
    total := Plus(total, PluginsDelta(inp));
  }

  ghost function WithSpecLists(inp: Inputs, soFar: Delta): Delta {
    Plus(Plus(Plus(Plus(Plus(Plus(soFar,
      Sum(ListBlock(inp, AppConfigKind))), Sum(ListBlock(inp, ConfigMapFilesKind))),
      Sum(ListBlock(inp, ConfigMapEnvsKind))), Sum(ListBlock(inp, SecretFilesKind))),
      Sum(ListBlock(inp, SecretEnvsKind))), PluginsDelta(inp))
  }

  method SetPullSecretsAndImage(pod: PodSpec, app: Application)
    requires pod.Valid()
    modifies pod.Footprint()
    ensures pod.Value()
         == SpecImage(old(pod.Value()).(pullSecrets := old(pod.pullSecrets) + app.imagePullSecrets), app.image)
  {
    ghost var was := pod.Value();
    SetImagePullSecrets(pod, app.imagePullSecrets);
    assert pod.Value() == was.(pullSecrets := was.pullSecrets + app.imagePullSecrets);
    SetImage(pod, app.image);
  }

  /** setReplicas, setImagePullSecrets, setImage and addExtraEnvs. */
  method ApplyApplication(inp: Inputs, d: KubeObject)
    requires Usable(inp) && d.Valid() && IsPhaseOne(inp, DeploymentKind, d.Value())
    modifies d.Footprint()
    ensures d.meta == PhaseOne(inp, DeploymentKind).meta && d.body == FinalBody(inp)
    ensures d.pod != null && Progress(d.pod, PodOfSpec(inp), DirOfPlugins(inp), EnvDelta(inp.spec))
  {
    ghost var first := d.Value();
    FirstPodDir(inp);
    ExtendedByNothing(PodOfSpec(inp));
    if inp.spec.application.Some? {
      var app := inp.spec.application.value;
      if app.replicas.Some? {
        d.body := d.body.(replicas := app.replicas);
      }
      assert d.pod.Value() == first.pod.value;
      SetPullSecretsAndImage(d.pod, app);
      assert d.pod.Value() == PodOfSpec(inp);
      ExtendedKeepsDir(d.pod.Value(), EnvDelta(inp.spec));
      AddExtraEnvs(d.pod, app.extraEnvs);
    }
  }

  ghost function FinalBody(inp: Inputs): Body
    requires Usable(inp) && IsPlaced(inp, DeploymentKind)
  {
    var body := PhaseOne(inp, DeploymentKind).body;
    if inp.spec.application.Some? && inp.spec.application.value.replicas.Some?
    then body.(replicas := inp.spec.application.value.replicas) else body
  }

  /** The image passes leave names and working directories alone. */
  lemma FirstPodDir(inp: Inputs)
    requires Usable(inp) && IsPlaced(inp, DeploymentKind)
    ensures PluginsDir(PodOfSpec(inp).initContainers) == DirOfPlugins(inp)
    ensures PluginsDir(PhaseOne(inp, DeploymentKind).pod.value.initContainers) == DirOfPlugins(inp)
  {
    SameNamesSameDir(PodOfSpec(inp).initContainers, Given(inp, DeploymentKind).value.pod.value.initContainers);
    SameNamesSameDir(PhaseOne(inp, DeploymentKind).pod.value.initContainers,
                     Given(inp, DeploymentKind).value.pod.value.initContainers);
  }

  lemma SumOfOne(d: Delta)
    ensures Sum([d]) == d
  {
    SumStep([], d);
    assert [] + [d] == [d];
  }

  lemma SumOfFive(all: seq<Delta>, a: seq<Delta>, f: seq<Delta>, m: seq<Delta>, sf: seq<Delta>, se: seq<Delta>)
    ensures Sum(all + a + f + m + sf + se)
         == Plus(Plus(Plus(Plus(Plus(Sum(all), Sum(a)), Sum(f)), Sum(m)), Sum(sf)), Sum(se))
  {
    SumOfBoth(all, a);
    SumOfBoth(all + a, f);
    SumOfBoth(all + a + f, m);
    SumOfBoth(all + a + f + m, sf);
    SumOfBoth(all + a + f + m + sf, se);
  }

  lemma SumOfTwoMore(all: seq<Delta>, d: Delta, e: Delta)
    ensures Sum(all + [d, e]) == Plus(Plus(Sum(all), d), e)
  {
    SumStep(all, d);
    SumStep(all + [d], e);
    assert all + [d, e] == all + [d] + [e];
  }

  /** All deltas of the deployment, added up in the order in which they are appended. */
  lemma BlocksAddUp(inp: Inputs, registry: seq<Kind>)
    requires Usable(inp)
    ensures Sum(Blocks(inp, registry))
         == Plus(WithSpecLists(inp, Plus(EnvDelta(inp.spec), Sum(DefaultDeltas(inp, PlacedKinds(inp, registry))))),
                 DbDelta(inp))
  {
    var e, ds := EnvDelta(inp.spec), DefaultDeltas(inp, PlacedKinds(inp, registry));
    var a, f, m := ListBlock(inp, AppConfigKind), ListBlock(inp, ConfigMapFilesKind), ListBlock(inp, ConfigMapEnvsKind);
    var sf, se := ListBlock(inp, SecretFilesKind), ListBlock(inp, SecretEnvsKind);
    SumOfOne(e);
    SumOfBoth([e], ds);
    SumOfFive([e] + ds, a, f, m, sf, se);
    SumOfTwoMore([e] + ds + a + f + m + sf + se, PluginsDelta(inp), DbDelta(inp));
  }

  /** The deployment contributes nothing to itself, whatever became of it. */
  ghost function WithDeployment(inp: Inputs, kinds: seq<Kind>, vs: seq<ObjectV>, v: ObjectV): (ws: seq<ObjectV>)
    requires Shaped(kinds, vs) && HasShape(DeploymentKind, v)
    ensures Shaped(kinds, ws) && DeltasFrom(inp, kinds, ws) == DeltasFrom(inp, kinds, vs)
    ensures forall i :: 0 <= i < |kinds| ==> ws[i] == if kinds[i] == DeploymentKind then v else vs[i]
  {
    var ws := seq(|kinds|, i requires 0 <= i < |kinds| => if kinds[i] == DeploymentKind then v else vs[i]);
    assert Shaped(kinds, ws);
    assert forall i :: 0 <= i < |kinds| ==> DeltaFrom(inp, kinds[i], ws[i]) == DeltaFrom(inp, kinds[i], vs[i]);
    assert DeltasFrom(inp, kinds, ws) == DeltasFrom(inp, kinds, vs);
    ws
  }

  /** BackstageDeployment.validate: what the contributors and the CR append, in this order. */
  method ValidateDeployment(inp: Inputs, objs: seq<RuntimeObject>, d: KubeObject, dbSecret: RuntimeObject?,
                            ghost registry: seq<Kind>, ghost vs: seq<ObjectV>) returns (failed: bool)
    requires Usable(inp) && ValidOrder(inp.order) && d.Valid() && IsPhaseOne(inp, DeploymentKind, d.Value())
    requires Shaped(Kinds(objs), vs)
    requires DeltasFrom(inp, Kinds(objs), vs) == DefaultDeltas(inp, PlacedKinds(inp, registry))
    requires forall i :: 0 <= i < |objs| ==>
               && objs[i] !in d.Footprint() && objs[i].obj != null
               && (if objs[i].kind == DeploymentKind then objs[i].obj == d
                   else objs[i].obj !in d.Footprint() && Shows(objs[i], vs[i]))
    requires dbSecret == null <==> !IsPlaced(inp, DbSecretKind)
    requires dbSecret != null ==>
               && dbSecret !in d.Footprint() && dbSecret.obj != null && dbSecret.obj !in d.Footprint()
               && dbSecret.obj.meta.name == RuntimeName(DbSecretKind, inp.name)
    modifies d.Footprint()
    ensures failed <==> KeyMissing(RefsOf(inp.spec, SecretFilesKind))
                        || (inp.spec.PluginsName() != "" && DirOfPlugins(inp).None?)
    ensures !failed ==> d.Value() == FinalDeployment(inp, registry)
  {
    ghost var was, dir := PodOfSpec(inp), DirOfPlugins(inp);
    ghost var total := EnvDelta(inp.spec);
    ApplyApplication(inp, d);
    ghost var ws := WithDeployment(inp, Kinds(objs), vs, ObjectV(d.meta, d.body, Some(was)));
    ContributeDefaults(inp, objs, d.pod, ws, was, total, d.pod.Footprint());
    total := Plus(total, Sum(DeltasFrom(inp, Kinds(objs), ws)));
    failed, total := ContributeSpec(inp, d.pod, was, total);
    if failed {
      return;
    }
    BlocksAddUp(inp, registry);
    AddDbSecret(inp, d.pod, dbSecret, was, total);
  }

  method AddSecretSource(pod: PodSpec, name: string)
    requires pod.Valid() && pod.containers != []
    modifies pod.Footprint()
    ensures pod.Value() == Extended(old(pod.Value()), NOTHING.(envFrom := [EnvFromSource(SecretObject, name)]))
  {
    ghost var was := pod.Value();
    FirstsAreApart(pod);
    AddEnvVarsFrom(pod.containers[0], SecretObject, name, "");
    AppendsExtend(pod, was, NOTHING.(envFrom := [EnvFromSource(SecretObject, name)]));
  }

  /** The last step: the variables of the DB secret. */
  method AddDbSecret(inp: Inputs, pod: PodSpec, dbSecret: RuntimeObject?, ghost was: PodV, ghost soFar: Delta)
    requires was.containers != [] && Progress(pod, was, DirOfPlugins(inp), soFar)
    requires dbSecret == null <==> !IsPlaced(inp, DbSecretKind)
    requires dbSecret != null ==>
               dbSecret.obj != null && dbSecret.obj.meta.name == RuntimeName(DbSecretKind, inp.name)
    modifies pod.Footprint()
    ensures pod.Value() == Extended(was, Plus(soFar, DbDelta(inp)))
  {
    ExtendedTwice(was, soFar, DbDelta(inp));
    if dbSecret != null {
      AddSecretSource(pod, dbSecret.obj.meta.name);
    } else {
      ExtendedByNothing(pod.Value());
    }
  }
}
