/** Where dynamic plugins are mounted in the first init container, and when its mount paths are distinct. */
module PluginPaths {
  import opened Builder
  import opened FilePaths
  import opened FinalPod
  import opened MountPaths
  import opened Names
  import opened Objects
  import opened Pods
  import opened Seqs
  import opened Validation
  import opened Wrappers

  /** The ConfigMap of dynamic plugins that the pod gets: the CR's own, else the default one, if there is one. */
  function PluginsMap(inp: Inputs): Option<ConfigMapV>
    requires Usable(inp)
  {
    if inp.spec.PluginsName() != "" then Some(inp.ext.dynamicPlugins)
    else if IsPlaced(inp, DynamicPluginsKind) then
      var o := PhaseOne(inp, DynamicPluginsKind); Some(ConfigMapV(o.meta.name, o.body.data))
    else None
  }

  /** The path it is mounted at: its file dynamic-plugins.yaml, or all of it when it has no data. */
  function PluginsPath(inp: Inputs): Option<string>
    requires Usable(inp)
  {
    var cm, dir := PluginsMap(inp), DirOfPlugins(inp);
    if cm.None? || dir.None? then None
    else if cm.value.data.None? then Some(Join(dir.value, cm.value.name))
    else if DYNAMIC_PLUGINS_FILE in cm.value.data.value then Some(Join(dir.value, DYNAMIC_PLUGINS_FILE))
    else None
  }

  /** The paths mounted into init containers. */
  function InitPaths(d: Delta): seq<string> { Paths(d.initMounts) }

  /** What a plugins ConfigMap mounts. */
  lemma PluginsMounted(name: string, data: Data, site: Site, order: Order, dir: string)
    requires ValidOrder(order)
    ensures InitPaths(DeltaOf(PluginsC(name, data), site, order, Some(dir))) ==
              if data.None? then [Join(dir, name)]
              else if DYNAMIC_PLUGINS_FILE in data.value then [Join(dir, DYNAMIC_PLUGINS_FILE)]
              else []
  {
    var keys := order(site, MountLoop, KeysOf(data));
    if data.None? {
      PathOfOne(VolumeMount(name, Join(dir, name), "", true));
    } else {
      OneFileMounted(name, dir, DYNAMIC_PLUGINS_FILE, data, keys);
    }
  }

  lemma OneFileMounted(name: string, dir: string, file: string, data: Data, keys: seq<string>)
    requires multiset(keys) == multiset(KeysOf(data)) && data.Some? && file != ""
    ensures Paths(MountsOf(name, dir, file, data, keys)) == if file in data.value then [Join(dir, file)] else []
  {
    OneFileSelected(keys, KeysOf(data), file);
    MapOfOne(Mounted(name, dir), file);
    PathOfOne(Mounted(name, dir)(file));
  }

  lemma PathOfOne(m: VolumeMount)
    ensures Paths([m]) == [m.mountPath] && Paths([]) == []
  {
    MapOfOne(PathOf, m);
    assert PathOf(m) == m.mountPath;
  }

  ghost predicate NoInitMounts(d: Delta) { d.initMounts == [] }

  lemma {:induction false} OnlyOneMounts(ds: seq<Delta>, k: nat)
    requires forall i :: 0 <= i < |ds| && i != k ==> NoInitMounts(ds[i])
    ensures Sum(ds).initMounts == if k < |ds| then ds[k].initMounts else []
  {
    if ds != [] {
      var n := |ds| - 1;
      OnlyOneMounts(ds[..n], k);
      assert k != n ==> NoInitMounts(ds[n]);
    }
  }

  lemma OnlyPluginsMount(inp: Inputs, kind: Kind)
    requires Usable(inp) && (kind != DynamicPluginsKind || !IsPlaced(inp, kind))
    ensures NoInitMounts(DefaultDelta(inp, kind))
  {
  }

  lemma DefaultsMountInit(inp: Inputs, kinds: seq<Kind>)
    requires Usable(inp) && Distinct(kinds)
    requires DynamicPluginsKind in kinds <==> IsPlaced(inp, DynamicPluginsKind)
    ensures Sum(DefaultDeltas(inp, kinds)).initMounts == DefaultDelta(inp, DynamicPluginsKind).initMounts
  {
    var ds, k := DefaultDeltas(inp, kinds), |kinds|;
    if DynamicPluginsKind in kinds {
      k :| 0 <= k < |kinds| && kinds[k] == DynamicPluginsKind;
    } else {
      OnlyPluginsMount(inp, DynamicPluginsKind);
    }
    forall i | 0 <= i < |ds| && i != k ensures NoInitMounts(ds[i]) {
      OnlyPluginsMount(inp, kinds[i]);
    }
    OnlyOneMounts(ds, k);
  }

  lemma ListMountsNone(inp: Inputs, list: Kind)
    ensures NoInitMounts(Sum(ListBlock(inp, list)))
  {
    OnlyOneMounts(ListBlock(inp, list), |ListBlock(inp, list)|);
  }

  lemma ListsMountNone(inp: Inputs, soFar: Delta)
    ensures WithSpecLists(inp, soFar).initMounts == soFar.initMounts + PluginsDelta(inp).initMounts
  {
    ListMountsNone(inp, AppConfigKind);
    ListMountsNone(inp, ConfigMapFilesKind);
    ListMountsNone(inp, ConfigMapEnvsKind);
    ListMountsNone(inp, SecretFilesKind);
    ListMountsNone(inp, SecretEnvsKind);
  }

  lemma AllInitMounts(inp: Inputs, registry: seq<Kind>)
    requires Usable(inp) && IsRegistry(registry)
    ensures AllAdded(inp, registry).initMounts
         == DefaultDelta(inp, DynamicPluginsKind).initMounts + PluginsDelta(inp).initMounts
  {
    var kinds := PlacedKinds(inp, registry);
    FilterDistinct((kind: Kind) => IsPlaced(inp, kind), registry);
    FilterMembers((kind: Kind) => IsPlaced(inp, kind), registry);
    DefaultsMountInit(inp, kinds);
    BlocksAddUp(inp, registry);
    var soFar := Plus(EnvDelta(inp.spec), Sum(DefaultDeltas(inp, kinds)));
    ListsMountNone(inp, soFar);
    EndsMountNone(inp, Sum(DefaultDeltas(inp, kinds)), WithSpecLists(inp, soFar));
  }

  lemma EndsMountNone(inp: Inputs, defaults: Delta, lists: Delta)
    ensures Plus(EnvDelta(inp.spec), defaults).initMounts == defaults.initMounts
    ensures Plus(lists, DbDelta(inp)).initMounts == lists.initMounts
  {
  }

  /** Only dynamic plugins are mounted there, at one path at most. */
  lemma InitPathsAdded(inp: Inputs, registry: seq<Kind>)
    requires Usable(inp) && IsRegistry(registry) && ValidOrder(inp.order)
    ensures InitPaths(AllAdded(inp, registry)) == PathsOf(PluginsPath(inp))
  {
    AllInitMounts(inp, registry);
    if inp.spec.PluginsName() == "" {
      DefaultPluginsMounted(inp);
    } else {
      OnlyPluginsMount(inp, DynamicPluginsKind);
      OwnPluginsMounted(inp);
    }
  }

  function PathsOf(path: Option<string>): seq<string> {
    if path.Some? then [path.value] else []
  }

  lemma DefaultPluginsMounted(inp: Inputs)
    requires Usable(inp) && ValidOrder(inp.order) && inp.spec.PluginsName() == ""
    ensures PluginsDelta(inp).initMounts == []
    ensures InitPaths(DefaultDelta(inp, DynamicPluginsKind)) == PathsOf(PluginsPath(inp))
  {
    if IsPlaced(inp, DynamicPluginsKind) && DirOfPlugins(inp).Some? {
      var o := PhaseOne(inp, DynamicPluginsKind);
      PluginsMounted(o.meta.name, o.body.data, Default(DynamicPluginsKind), inp.order, DirOfPlugins(inp).value);
    }
    assert Paths([]) == [];
  }

  lemma OwnPluginsMounted(inp: Inputs)
    requires Usable(inp) && ValidOrder(inp.order) && inp.spec.PluginsName() != ""
    ensures InitPaths(PluginsDelta(inp)) == PathsOf(PluginsPath(inp))
  {
    if DirOfPlugins(inp).Some? {
      var cm := inp.ext.dynamicPlugins;
      PluginsMounted(cm.name, cm.data, Listed(DynamicPluginsKind, 0), inp.order, DirOfPlugins(inp).value);
    }
    assert Paths([]) == [];
  }

  lemma InitMountsAfter(inp: Inputs, registry: seq<Kind>)
    requires Usable(inp) && Ready(inp) && IsPlaced(inp, DeploymentKind) && ManifestPod(inp).initContainers != []
    ensures LastPod(inp, registry).initContainers != []
    ensures Paths(LastPod(inp, registry).initContainers[0].mounts)
         == Paths(ManifestPod(inp).initContainers[0].mounts) + InitPaths(AllAdded(inp, registry))
  {
    PodAfter(inp, registry);
    PathsOfBoth(ManifestPod(inp).initContainers[0].mounts, AllAdded(inp, registry).initMounts);
  }

  lemma PathsOfBoth(a: seq<VolumeMount>, b: seq<VolumeMount>)
    ensures Paths(a + b) == Paths(a) + Paths(b)
  {
  }

  /**
   The mount paths of the first init container are distinct exactly when the manifest's are and the dynamic plugins do
   not fall on one of them.
   */
  lemma DistinctInitPaths(inp: Inputs, registry: seq<Kind>)
    requires Usable(inp) && Ready(inp) && IsPlaced(inp, DeploymentKind) && IsRegistry(registry) && ValidOrder(inp.order)
    requires ManifestPod(inp).initContainers != []
    ensures LastPod(inp, registry).initContainers != []
    ensures var base := Paths(ManifestPod(inp).initContainers[0].mounts);
            Distinct(Paths(LastPod(inp, registry).initContainers[0].mounts)) <==>
              Distinct(base) && (PluginsPath(inp).Some? ==> PluginsPath(inp).value !in base)
  {
    var base, more := Paths(ManifestPod(inp).initContainers[0].mounts), InitPaths(AllAdded(inp, registry));
    InitMountsAfter(inp, registry);
    InitPathsAdded(inp, registry);
    DistinctOfBoth(base, more);
  }
}
