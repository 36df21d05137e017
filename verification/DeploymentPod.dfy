/** The passes of deployment.go and its contributors over the Backstage pod, each against what it appends or sets. */
module DeploymentPod {
  import opened BackstageApi
  import opened Builder
  import opened Names
  import opened Objects
  import opened PodMutator
  import opened Pods
  import opened Seqs
  import opened Wrappers

  /** Sets the image of each container of one of the pod's lists. */
  method SetImages(cs: seq<Container>, image: string)
    requires Distinct(cs)
    modifies cs
    ensures Values(cs) == Map(ImageSetter(image), old(Values(cs)))
  {
    for i := 0 to |cs|
      invariant forall j | 0 <= j < i :: cs[j].Value() == WithImage(old(cs[j].Value()), image)
      invariant forall j | i <= j < |cs| :: cs[j].Value() == old(cs[j].Value())
    {
      cs[i].image := image;
    }
  }

  lemma ListsAreApart(pod: PodSpec)
    requires pod.Valid()
    ensures Distinct(pod.initContainers) && Distinct(pod.containers) && Distinct(pod.ephemeral)
    ensures forall i, j | 0 <= i < |pod.initContainers| && 0 <= j < |pod.containers| ::
              pod.initContainers[i] != pod.containers[j]
    ensures forall i, j | 0 <= i < |pod.initContainers| && 0 <= j < |pod.ephemeral| ::
              pod.initContainers[i] != pod.ephemeral[j]
    ensures forall i, j | 0 <= i < |pod.containers| && 0 <= j < |pod.ephemeral| ::
              pod.containers[i] != pod.ephemeral[j]
  {
    var all, n, m := pod.All(), |pod.initContainers|, |pod.containers|;
    forall i | 0 <= i < n ensures all[i] == pod.initContainers[i] {}
    forall i | 0 <= i < m ensures all[n + i] == pod.containers[i] {}
    forall i | 0 <= i < |pod.ephemeral| ensures all[n + m + i] == pod.ephemeral[i] {}
  }

  /** setImage: VisitContainers with the visitor that sets the image. */
  method SetImage(pod: PodSpec, image: Option<string>)
    requires pod.Valid()
    modifies pod.Footprint()
    ensures pod.Value() == SpecImage(old(pod.Value()), image)
  {
    if image.Some? {
      ListsAreApart(pod);
      SetImages(pod.initContainers, image.value);
      assert Values(pod.containers) == old(Values(pod.containers));
      assert Values(pod.ephemeral) == old(Values(pod.ephemeral));
      SetImages(pod.containers, image.value);
      SetImages(pod.ephemeral, image.value);
    }
  }

  /** The image variable in BackstageDeployment.addToModel. */
  method OverrideImage(pod: PodSpec, image: string)
    requires pod.Valid() && pod.containers != []
    modifies pod.Footprint()
    ensures pod.Value() == EnvImage(old(pod.Value()), image)
  {
    if image != "" {
      ListsAreApart(pod);
      pod.containers[0].image := image;
      assert Values(pod.initContainers) == old(Values(pod.initContainers));
      SetImages(pod.initContainers, image);
    }
  }

  method SetImagePullSecrets(pod: PodSpec, pullSecrets: seq<string>)
    modifies pod`pullSecrets
    ensures pod.pullSecrets == old(pod.pullSecrets) + pullSecrets
  {
    for i := 0 to |pullSecrets|
      invariant pod.pullSecrets == old(pod.pullSecrets) + pullSecrets[..i]
    {
      pod.pullSecrets := pod.pullSecrets + [pullSecrets[i]];
    }
  }

  /** The loop of addExtraEnvs, one addContainerEnvVar after the other. */
  method AppendEnvs(container: Container, envs: seq<Env>)
    modifies container`env
    ensures container.env == old(container.env) + EnvValues(envs)
  {
    for i := 0 to |envs|
      invariant container.env == old(container.env) + EnvValues(envs[..i])
    {
      container.env := container.env + [EnvValue(envs[i].name, envs[i].value)];
      assert EnvValues(envs[..i + 1]) == EnvValues(envs[..i]) + [EnvValue(envs[i].name, envs[i].value)];
    }
    assert envs[..|envs|] == envs;
  }

  /** addExtraEnvs */
  method AddExtraEnvs(pod: PodSpec, extraEnvs: Option<ExtraEnvs>)
    requires pod.Valid() && pod.containers != []
    modifies pod.Footprint()
    ensures pod.Value() == Extended(old(pod.Value()),
              if extraEnvs.None? then NOTHING else NOTHING.(env := EnvValues(extraEnvs.value.envs)))
  {
    FirstsAreApart(pod);
    ghost var was := pod.Value();
    if extraEnvs.Some? {
      AppendEnvs(pod.containers[0], extraEnvs.value.envs);
      AppendsExtend(pod, was, NOTHING.(env := EnvValues(extraEnvs.value.envs)));
    } else {
      ExtendedByNothing(was);
    }
  }

  lemma {:induction false} SameNamesSameDir(a: seq<ContainerV>, b: seq<ContainerV>)
    requires |a| == |b|
    requires forall i | 0 <= i < |a| :: a[i].name == b[i].name && a[i].workingDir == b[i].workingDir
    ensures PluginsDir(a) == PluginsDir(b)
  {
    if a != [] {
      SameNamesSameDir(a[1..], b[1..]);
    }
  }

  /** No pass changes the init container that dynamic plugins look for. */
  lemma ExtendedKeepsDir(pod: PodV, d: Delta)
    requires pod.containers != []
    ensures PluginsDir(Extended(pod, d).initContainers) == PluginsDir(pod.initContainers)
  {
    SameNamesSameDir(Extended(pod, d).initContainers, pod.initContainers);
  }

  /** The state of the pod while the contributors run: extended by what was appended so far. */
  ghost predicate Progress(pod: PodSpec, was: PodV, dir: Option<string>, soFar: Delta)
    requires was.containers != []
    reads pod.Footprint()
  {
    && pod.Valid()
    && pod.containers != []
    && pod.Value() == Extended(was, soFar)
    && PluginsDir(pod.Value().initContainers) == dir
  }

  /** One contributor's turn. */
  method Contribute(pod: PodSpec, c: Contribution, site: Site, order: Order, ghost was: PodV,
                    ghost dir: Option<string>, ghost soFar: Delta)
    requires was.containers != [] && Progress(pod, was, dir, soFar) && ValidOrder(order)
    modifies pod.Footprint()
    ensures Progress(pod, was, dir, Plus(soFar, DeltaOf(c, site, order, dir)))
  {
    ghost var d := DeltaOf(c, site, order, dir);
    ExtendedTwice(was, soFar, d);
    ExtendedKeepsDir(pod.Value(), d);
    UpdatePod(pod, c, site, order);
  }

  lemma SumOfPrefix(ds: seq<Delta>, i: nat)
    requires i < |ds|
    ensures Sum(ds[..i + 1]) == Plus(Sum(ds[..i]), ds[i])
  {
    TakeStep(ds, i);
    SumStep(ds[..i], ds[i]);
  }

  lemma AddsUp(soFar: Delta, ds: seq<Delta>, i: nat)
    requires i < |ds|
    ensures Plus(Plus(soFar, Sum(ds[..i])), ds[i]) == Plus(soFar, Sum(ds[..i + 1]))
  {
    SumOfPrefix(ds, i);
    PlusAssociates(soFar, Sum(ds[..i]), ds[i]);
  }

  /** addAppConfigs */
  method AddAppConfigs(inp: Inputs, pod: PodSpec, ghost was: PodV, ghost soFar: Delta)
    requires was.containers != [] && Progress(pod, was, DirOfPlugins(inp), soFar) && ValidOrder(inp.order)
    modifies pod.Footprint()
    ensures Progress(pod, was, DirOfPlugins(inp), Plus(soFar, Sum(ListBlock(inp, AppConfigKind))))
  {
    ghost var dir, ds := DirOfPlugins(inp), ListBlock(inp, AppConfigKind);
    PlusAssociates(soFar, NOTHING, NOTHING);
    if inp.spec.application.None? || inp.spec.application.value.appConfig.None? {
      assert ds == [];
      return;
    }
    var appConfig := inp.spec.application.value.appConfig.value;
    for i := 0 to |appConfig.configMaps|
      invariant Progress(pod, was, dir, Plus(soFar, Sum(ds[..i])))
    {
      var configMap := appConfig.configMaps[i];
      var cm := Lookup(inp.ext.appConfigs, configMap.name);
      var mp := DEFAULT_MOUNT_DIR;
      if appConfig.mountPath != "" {
        mp := appConfig.mountPath;
      }
      AddsUp(soFar, ds, i);
      Contribute(pod, AppConfigC(cm.name, cm.data, mp, configMap.key), Listed(AppConfigKind, i), inp.order,
                 was, dir, Plus(soFar, Sum(ds[..i])));
    }
    assert ds[..|ds|] == ds;
  }

  /** addConfigMapFiles */
  method AddConfigMapFiles(inp: Inputs, pod: PodSpec, ghost was: PodV, ghost soFar: Delta)
    requires was.containers != [] && Progress(pod, was, DirOfPlugins(inp), soFar) && ValidOrder(inp.order)
    modifies pod.Footprint()
    ensures Progress(pod, was, DirOfPlugins(inp), Plus(soFar, Sum(ListBlock(inp, ConfigMapFilesKind))))
  {
    ghost var dir, ds := DirOfPlugins(inp), ListBlock(inp, ConfigMapFilesKind);
    PlusAssociates(soFar, NOTHING, NOTHING);
    if inp.spec.application.None? || inp.spec.application.value.extraFiles.None? {
      assert ds == [];
      return;
    }
    var extraFiles := inp.spec.application.value.extraFiles.value;
    var mp := DEFAULT_MOUNT_DIR;
    if extraFiles.mountPath != "" {
      mp := extraFiles.mountPath;
    }
    for i := 0 to |extraFiles.configMaps|
      invariant Progress(pod, was, dir, Plus(soFar, Sum(ds[..i])))
    {
      var configMap := extraFiles.configMaps[i];
      var cm := Lookup(inp.ext.extraFileConfigMaps, configMap.name);
      AddsUp(soFar, ds, i);
      Contribute(pod, FilesC(ConfigMapObject, cm.name, cm.data, mp, configMap.key), Listed(ConfigMapFilesKind, i),
                 inp.order, was, dir, Plus(soFar, Sum(ds[..i])));
    }
    assert ds[..|ds|] == ds;
  }

  /** addConfigMapEnvs */
  method AddConfigMapEnvs(inp: Inputs, pod: PodSpec, ghost was: PodV, ghost soFar: Delta)
    requires was.containers != [] && Progress(pod, was, DirOfPlugins(inp), soFar) && ValidOrder(inp.order)
    modifies pod.Footprint()
    ensures Progress(pod, was, DirOfPlugins(inp), Plus(soFar, Sum(ListBlock(inp, ConfigMapEnvsKind))))
  {
    ghost var dir, ds := DirOfPlugins(inp), ListBlock(inp, ConfigMapEnvsKind);
    PlusAssociates(soFar, NOTHING, NOTHING);
    if inp.spec.application.None? || inp.spec.application.value.extraEnvs.None? {
      assert ds == [];
      return;
    }
    var configMaps := inp.spec.application.value.extraEnvs.value.configMaps;
    for i := 0 to |configMaps|
      invariant Progress(pod, was, dir, Plus(soFar, Sum(ds[..i])))
    {
      var cm := Lookup(inp.ext.extraEnvConfigMaps, configMaps[i].name);
      AddsUp(soFar, ds, i);
      Contribute(pod, EnvsC(ConfigMapObject, cm.name, configMaps[i].key), Listed(ConfigMapEnvsKind, i), inp.order,
                 was, dir, Plus(soFar, Sum(ds[..i])));
    }
    assert ds[..|ds|] == ds;
  }

  lemma ListedAt(inp: Inputs, secrets: seq<ObjectKeyRef>, mp: string, ds: seq<Delta>, i: nat)
    requires ds == ListedDeltas(inp, SecretFilesKind, secrets, mp) && i < |secrets|
    ensures ds[i] == DeltaOf(SecretFile(secrets[i], mp), Listed(SecretFilesKind, i), inp.order, DirOfPlugins(inp))
  {
  }

  /** The loop of addSecretFiles: stops at the first secret without a key, with the earlier ones already mounted. */
  method MountSecrets(inp: Inputs, pod: PodSpec, secrets: seq<ObjectKeyRef>, mp: string,
                      ghost was: PodV, ghost soFar: Delta, ghost ds: seq<Delta>) returns (failed: bool)
    requires was.containers != [] && Progress(pod, was, DirOfPlugins(inp), soFar) && ValidOrder(inp.order)
    requires ds == ListedDeltas(inp, SecretFilesKind, secrets, mp)
    modifies pod.Footprint()
    ensures failed <==> KeyMissing(secrets)
    ensures !failed ==> Progress(pod, was, DirOfPlugins(inp), Plus(soFar, Sum(ds)))
  {
    ghost var dir := DirOfPlugins(inp);
    PlusAssociates(soFar, NOTHING, NOTHING);
    for i := 0 to |secrets|
      invariant Progress(pod, was, dir, Plus(soFar, Sum(ds[..i])))
      invariant !KeyMissing(secrets[..i])
    {
      var sec := secrets[i];
      if sec.key == "" {
        assert Keyless(sec) && sec in secrets;
        return true;
      }
      TakeStep(secrets, i);
      var c := SecretFile(sec, mp);
      ListedAt(inp, secrets, mp, ds, i);
      AddsUp(soFar, ds, i);
      Contribute(pod, c, Listed(SecretFilesKind, i), inp.order, was, dir, Plus(soFar, Sum(ds[..i])));
    }
    assert ds[..|ds|] == ds && secrets[..|secrets|] == secrets;
    return false;
  }

  /** addSecretFiles */
  method AddSecretFiles(inp: Inputs, pod: PodSpec, ghost was: PodV, ghost soFar: Delta) returns (failed: bool)
    requires was.containers != [] && Progress(pod, was, DirOfPlugins(inp), soFar) && ValidOrder(inp.order)
    modifies pod.Footprint()
    ensures failed <==> KeyMissing(RefsOf(inp.spec, SecretFilesKind))
    ensures !failed ==> Progress(pod, was, DirOfPlugins(inp), Plus(soFar, Sum(ListBlock(inp, SecretFilesKind))))
  {
    PlusAssociates(soFar, NOTHING, NOTHING);
    if inp.spec.application.None? || inp.spec.application.value.extraFiles.None? {
      assert ListBlock(inp, SecretFilesKind) == [];
      return false;
    }
    var extraFiles := inp.spec.application.value.extraFiles.value;
    var mp := DEFAULT_MOUNT_DIR;
    if extraFiles.mountPath != "" {
      mp := extraFiles.mountPath;
    }
    failed := MountSecrets(inp, pod, extraFiles.secrets, mp, was, soFar, ListBlock(inp, SecretFilesKind));
  }

  /** addSecretEnvs */
  method AddSecretEnvs(inp: Inputs, pod: PodSpec, ghost was: PodV, ghost soFar: Delta)
    requires was.containers != [] && Progress(pod, was, DirOfPlugins(inp), soFar) && ValidOrder(inp.order)
    modifies pod.Footprint()
    ensures Progress(pod, was, DirOfPlugins(inp), Plus(soFar, Sum(ListBlock(inp, SecretEnvsKind))))
  {
    ghost var dir, ds := DirOfPlugins(inp), ListBlock(inp, SecretEnvsKind);
    PlusAssociates(soFar, NOTHING, NOTHING);
    if inp.spec.application.None? || inp.spec.application.value.extraEnvs.None? {
      assert ds == [];
      return;
    }
    var secrets := inp.spec.application.value.extraEnvs.value.secrets;
    for i := 0 to |secrets|
      invariant Progress(pod, was, dir, Plus(soFar, Sum(ds[..i])))
    {
      AddsUp(soFar, ds, i);
      Contribute(pod, EnvsC(SecretObject, secrets[i].name, secrets[i].key), Listed(SecretEnvsKind, i), inp.order,
                 was, dir, Plus(soFar, Sum(ds[..i])));
    }
    assert ds[..|ds|] == ds;
  }

  /** addDynamicPlugins: the CR's own plugins need the named init container. */
  method AddDynamicPlugins(inp: Inputs, pod: PodSpec, ghost was: PodV, ghost soFar: Delta) returns (failed: bool)
    requires was.containers != [] && Progress(pod, was, DirOfPlugins(inp), soFar) && ValidOrder(inp.order)
    modifies pod.Footprint()
    ensures failed <==> inp.spec.PluginsName() != "" && DirOfPlugins(inp).None?
    ensures !failed ==> Progress(pod, was, DirOfPlugins(inp), Plus(soFar, PluginsDelta(inp)))
  {
    PlusAssociates(soFar, NOTHING, NOTHING);
    if inp.spec.application.None? || inp.spec.application.value.dynamicPluginsConfigMapName == "" {
      return false;
    }
    var found := DynamicPluginsInitContainer(pod.initContainers);
    if found == null {
      return true;
    }
    Contribute(pod, PluginsC(inp.ext.dynamicPlugins.name, inp.ext.dynamicPlugins.data), Listed(DynamicPluginsKind, 0),
               inp.order, was, DirOfPlugins(inp), soFar);
    return false;
  }
}
