/** The Backstage pod that the builder leaves, compared with the pod of the manifest. */
module FinalPod {
  import opened BackstageApi
  import opened Builder
  import opened Names
  import opened Objects
  import opened Pods

  function ManifestPod(inp: Inputs): PodV
    requires Usable(inp) && IsPlaced(inp, DeploymentKind)
  {
    Given(inp, DeploymentKind).value.pod.value
  }

  function LastPod(inp: Inputs, registry: seq<Kind>): PodV
    requires Usable(inp) && Ready(inp)
  {
    assert !IsMissing(inp, DeploymentKind);
    PhaseTwo(inp, registry, DeploymentKind).pod.value
  }

  function AllAdded(inp: Inputs, registry: seq<Kind>): Delta
    requires Usable(inp)
  {
    Sum(Blocks(inp, registry))
  }

  /** The image of the CR, else the operator's for the containers it overrides, else the manifest's. */
  function ImageFor(inp: Inputs, given: ContainerV, overridden: bool): string {
    if inp.spec.application.Some? && inp.spec.application.value.image.Some? then inp.spec.application.value.image.value
    else if overridden && inp.operator.backstageImage != "" then inp.operator.backstageImage
    else given.image
  }

  function PullSecretsOf(spec: BackstageSpec): seq<string> {
    if spec.application.Some? then spec.application.value.imagePullSecrets else []
  }

  /** The pod before anything is appended: only images and pull secrets differ from the manifest. */
  lemma PodBefore(inp: Inputs)
    requires Usable(inp) && IsPlaced(inp, DeploymentKind)
    ensures var pod, given := PodOfSpec(inp), ManifestPod(inp);
            && |pod.containers| == |given.containers| && |pod.initContainers| == |given.initContainers|
            && |pod.ephemeral| == |given.ephemeral|
            && (forall i :: 0 <= i < |given.containers| ==>
                  pod.containers[i] == WithImage(given.containers[i], ImageFor(inp, given.containers[i], i == 0)))
            && (forall i :: 0 <= i < |given.initContainers| ==>
                  pod.initContainers[i]
                  == WithImage(given.initContainers[i], ImageFor(inp, given.initContainers[i], true)))
            && (forall i :: 0 <= i < |given.ephemeral| ==>
                  pod.ephemeral[i] == WithImage(given.ephemeral[i], ImageFor(inp, given.ephemeral[i], false)))
            && pod.volumes == given.volumes && pod.rest == given.rest
            && pod.pullSecrets == given.pullSecrets + PullSecretsOf(inp.spec)
  {
    assert ManifestPod(inp).pullSecrets + [] == ManifestPod(inp).pullSecrets;
  }

  /**
   Images take precedence CR, operator, manifest; beside them and the appends, every field of every container stays.
   */
  lemma PodAfter(inp: Inputs, registry: seq<Kind>)
    requires Usable(inp) && Ready(inp)
    ensures IsPlaced(inp, DeploymentKind)
    ensures var pod, given, d := LastPod(inp, registry), ManifestPod(inp), AllAdded(inp, registry);
            && |pod.containers| == |given.containers| && |pod.initContainers| == |given.initContainers|
            && |pod.ephemeral| == |given.ephemeral|
            && (forall i :: 0 <= i < |given.containers| ==>
                  pod.containers[i] ==
                    var c := WithImage(given.containers[i], ImageFor(inp, given.containers[i], i == 0));
                    if i == 0 then AppendTo(c, d) else c)
            && (forall i :: 0 <= i < |given.initContainers| ==>
                  pod.initContainers[i] ==
                    var c := WithImage(given.initContainers[i], ImageFor(inp, given.initContainers[i], true));
                    if i == 0 then c.(mounts := c.mounts + d.initMounts) else c)
            && (forall i :: 0 <= i < |given.ephemeral| ==>
                  pod.ephemeral[i] == WithImage(given.ephemeral[i], ImageFor(inp, given.ephemeral[i], false)))
            && pod.volumes == given.volumes + d.volumes && pod.rest == given.rest
            && pod.pullSecrets == given.pullSecrets + PullSecretsOf(inp.spec)
  {
    assert !IsMissing(inp, DeploymentKind);
    PodBefore(inp);
  }

  lemma DefaultDeltasOfBoth(inp: Inputs, a: seq<Kind>, b: seq<Kind>)
    requires Usable(inp)
    ensures DefaultDeltas(inp, a + b) == DefaultDeltas(inp, a) + DefaultDeltas(inp, b)
  {
  }

  lemma {:induction false} ListedClosed(inp: Inputs, list: Kind, refs: seq<ObjectKeyRef>, dir: string, d: Delta)
    requires d in ListedDeltas(inp, list, refs, dir)
    ensures DeltaClosed(d)
  {
    var i :| 0 <= i < |refs| && ListedDeltas(inp, list, refs, dir)[i] == d;
    ContributionClosed(ListedContribution(inp, list, refs, dir, i), Listed(list, i), inp.order, DirOfPlugins(inp));
  }

  lemma DefaultClosed(inp: Inputs, kind: Kind)
    requires Usable(inp)
    ensures DeltaClosed(DefaultDelta(inp, kind))
  {
    if IsPlaced(inp, kind) && DefaultContribution(kind, PhaseOne(inp, kind)).Some? {
      ContributionClosed(DefaultContribution(kind, PhaseOne(inp, kind)).value, Default(kind), inp.order,
                         DirOfPlugins(inp));
    }
  }

  lemma BlocksClosed(inp: Inputs, registry: seq<Kind>, d: Delta)
    requires Usable(inp) && d in Blocks(inp, registry)
    ensures DeltaClosed(d)
  {
    var kinds := PlacedKinds(inp, registry);
    if d in DefaultDeltas(inp, kinds) {
      var i :| 0 <= i < |kinds| && DefaultDeltas(inp, kinds)[i] == d;
      DefaultClosed(inp, kinds[i]);
    } else if list: Kind :| d in ListBlock(inp, list) {
      ListedClosed(inp, list, RefsOf(inp.spec, list), DirOf(inp.spec, list), d);
    } else if d == PluginsDelta(inp) && inp.spec.PluginsName() != "" {
      ContributionClosed(PluginsC(inp.ext.dynamicPlugins.name, inp.ext.dynamicPlugins.data),
                         Listed(DynamicPluginsKind, 0), inp.order, DirOfPlugins(inp));
    }
  }

  ghost predicate SameMounts(cs: seq<ContainerV>, ds: seq<ContainerV>) {
    |cs| == |ds| && forall i :: 0 <= i < |cs| ==> cs[i].mounts == ds[i].mounts
  }

  /** The image passes touch no mount and no volume. */
  lemma PodBeforeClosed(inp: Inputs)
    requires Usable(inp) && IsPlaced(inp, DeploymentKind) && MountsClosed(ManifestPod(inp))
    ensures MountsClosed(PodOfSpec(inp))
  {
    PodBefore(inp);
    SameMountsClosed(ManifestPod(inp), PodOfSpec(inp));
  }

  lemma SameMountsClosed(given: PodV, pod: PodV)
    requires MountsClosed(given) && pod.volumes == given.volumes
    requires SameMounts(given.initContainers, pod.initContainers)
    requires SameMounts(given.containers, pod.containers) && SameMounts(given.ephemeral, pod.ephemeral)
    ensures MountsClosed(pod)
  {
    assert SameMounts(AllContainers(given), AllContainers(pod));
    forall c, m | c in AllContainers(pod) && m in c.mounts ensures HasVolume(pod.volumes, m) {
      var i :| 0 <= i < |AllContainers(pod)| && AllContainers(pod)[i] == c;
      assert AllContainers(given)[i] in AllContainers(given) && m in AllContainers(given)[i].mounts;
      assert HasVolume(given.volumes, m);
    }
  }

  /** If every mount of the manifest names a volume, so does every mount of the finished pod. */
  lemma MountsStayClosed(inp: Inputs, registry: seq<Kind>)
    requires Usable(inp) && Ready(inp) && IsPlaced(inp, DeploymentKind)
    requires MountsClosed(ManifestPod(inp))
    ensures MountsClosed(LastPod(inp, registry))
  {
    PodBeforeClosed(inp);
    forall d | d in Blocks(inp, registry) ensures DeltaClosed(d) {
      BlocksClosed(inp, registry, d);
    }
    SumClosed(Blocks(inp, registry));
    ExtendedClosed(PodOfSpec(inp), AllAdded(inp, registry));
  }

  /** The delta makes the pod refer to this ConfigMap or Secret. */
  ghost predicate Refers(d: Delta, kind: ObjectKind, name: string) {
    || (exists v :: v in d.volumes && v.source.FromObject? && v.source.kind == kind && v.source.objectName == name)
    || EnvFromSource(kind, name) in d.envFrom
    || (exists e :: e in d.env && e.EnvFromKey? && e.kind == kind && e.objectName == name)
  }

  function ApiOf(kind: ObjectKind): ApiKind {
    if kind == ConfigMapObject then ConfigMaps else Secrets
  }

  lemma DefaultRefers(inp: Inputs, owner: Kind, kind: ObjectKind, name: string)
    requires Usable(inp) && Refers(DefaultDelta(inp, owner), kind, name)
    ensures IsPlaced(inp, owner) && KeyOf(owner, inp.namespace, inp.name) == Key(ApiOf(kind), inp.namespace, name)
  {
  }

  /** Whatever a default contributor or the DB secret makes the pod refer to is an object of the model. */
  lemma DefaultReferencesResolve(inp: Inputs, registry: seq<Kind>, d: Delta, kind: ObjectKind, name: string)
    requires Usable(inp) && Ready(inp) && IsRegistry(registry)
    requires d in DefaultDeltas(inp, PlacedKinds(inp, registry)) || d == DbDelta(inp)
    requires Refers(d, kind, name)
    ensures exists owner :: IsPlaced(inp, owner)
              && KeyOf(owner, inp.namespace, inp.name) == Key(ApiOf(kind), inp.namespace, name)
  {
    var kinds := PlacedKinds(inp, registry);
    if d in DefaultDeltas(inp, kinds) {
      var i :| 0 <= i < |kinds| && DefaultDeltas(inp, kinds)[i] == d;
      DefaultRefers(inp, kinds[i], kind, name);
    } else {
      assert IsPlaced(inp, DbSecretKind);
      assert KeyOf(DbSecretKind, inp.namespace, inp.name) == Key(ApiOf(kind), inp.namespace, name);
    }
  }

  lemma VolumeOfDefault(inp: Inputs, kind: Kind, v: Volume)
    requires Usable(inp) && v in DefaultDelta(inp, kind).volumes
    ensures kind in {AppConfigKind, ConfigMapFilesKind, SecretFilesKind, DynamicPluginsKind}
    ensures v.name == RuntimeName(kind, inp.name)
  {
  }

  lemma NamesOfDefaults(k1: Kind, k2: Kind, name: string)
    requires k1 != k2 && {k1, k2} <= {AppConfigKind, ConfigMapFilesKind, SecretFilesKind, DynamicPluginsKind}
    ensures RuntimeName(k1, name) == RuntimeName(k2, name) <==> {k1, k2} == {ConfigMapFilesKind, SecretFilesKind}
  {
    EndingOfName(k1, name);
    EndingOfName(k2, name);
    if {k1, k2} != {ConfigMapFilesKind, SecretFilesKind} {
      if ApiKindOf(k1) == ApiKindOf(k2) && Ending(ObjectType(k1)) == Ending(ObjectType(k2)) {
        EndingsTellKinds(k1, k2);
      }
      assert Ending("backstage-appconfig") == "ig";
      assert Ending("backstage-files") == "es";
      assert Ending("backstage-dynamic-plugins") == "ns";
    } else {
      assert k1 in {k1, k2} && k2 in {k1, k2};
    }
  }

  /**
   Volume names of the pod are not unique: the volumes of two default objects clash exactly when one is the default
   ConfigMap of files and the other the default Secret of files.
   */
  lemma DefaultVolumesClash(inp: Inputs, k1: Kind, v1: Volume, k2: Kind, v2: Volume)
    requires Usable(inp) && k1 != k2
    requires v1 in DefaultDelta(inp, k1).volumes && v2 in DefaultDelta(inp, k2).volumes
    ensures v1.name == v2.name <==> {k1, k2} == {ConfigMapFilesKind, SecretFilesKind}
  {
    VolumeOfDefault(inp, k1, v1);
    VolumeOfDefault(inp, k2, v2);
    NamesOfDefaults(k1, k2, inp.name);
  }
}
