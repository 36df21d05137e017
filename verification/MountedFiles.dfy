/** Which files of which ConfigMaps the finished pod mounts, and what that tells of the ConfigMaps. */
module MountedFiles {
  import opened BackstageApi
  import opened Builder
  import opened Determinacy
  import opened FinalPod
  import opened Machine
  import opened Names
  import opened Objects
  import opened PluginPaths
  import opened Pods
  import opened Preprocessing
  import opened Seqs
  import opened Sources
  import opened Uses
  import opened Validation

  /** Some mount is of this file of the volume of this name. */
  ghost predicate MountsFile(ms: seq<VolumeMount>, name: string, file: string) {
    exists m :: m in ms && m.name == name && m.subPath == file
  }

  /** The files mounted one by one; a whole object is mounted without one. */
  function FilesIn(u: Use): set<string> {
    if u.Whole? then {""} else u.names
  }

  lemma MountsFileOf(name: string, dir: string, key: string, data: Data, order: seq<string>, n: string, file: string)
    requires multiset(order) == multiset(KeysOf(data))
    ensures MountsFile(MountsOf(name, dir, key, data, order), n, file) <==>
              n == name && file in FilesIn(UseOf(data, key))
  {
    var ms, files := MountsOf(name, dir, key, data, order), Selected(order, key);
    if data.None? {
      assert ms[0] in ms;
    } else {
      FilterMembers(IsSelected(key), order);
      assert file in order <==> file in multiset(order);
      assert file in files <==> file in FilesIn(UseOf(data, key));
      FilesAreMounted(name, dir, files, n, file);
    }
  }

  lemma FilesAreMounted(name: string, dir: string, files: seq<string>, n: string, file: string)
    ensures MountsFile(Map(Mounted(name, dir), files), n, file) <==> n == name && file in files
  {
    var ms := Map(Mounted(name, dir), files);
    if MountsFile(ms, n, file) {
      var m :| m in ms && m.name == n && m.subPath == file;
      var i :| 0 <= i < |ms| && ms[i] == m;
      assert m == Mounted(name, dir)(files[i]);
    }
    if n == name && file in files {
      var i :| 0 <= i < |files| && files[i] == file;
      assert ms[i] == Mounted(name, dir)(file) && ms[i] in ms;
    }
  }

  lemma MountsFileOfBoth(a: seq<VolumeMount>, b: seq<VolumeMount>, n: string, file: string)
    ensures MountsFile(a + b, n, file) <==> MountsFile(a, n, file) || MountsFile(b, n, file)
  {
    if MountsFile(a, n, file) {
      var m :| m in a && m.name == n && m.subPath == file;
      assert m in a + b;
    }
    if MountsFile(b, n, file) {
      var m :| m in b && m.name == n && m.subPath == file;
      assert m in a + b;
    }
  }

  lemma {:induction false} SumMountsFile(ds: seq<Delta>, n: string, file: string)
    ensures MountsFile(Sum(ds).mounts, n, file) <==>
              exists i :: 0 <= i < |ds| && MountsFile(ds[i].mounts, n, file)
  {
    if ds != [] {
      var k := |ds| - 1;
      SumMountsFile(ds[..k], n, file);
      MountsFileOfBoth(Sum(ds[..k]).mounts, ds[k].mounts, n, file);
      if i :| 0 <= i < |ds| && MountsFile(ds[i].mounts, n, file) {
        assert i < k ==> ds[..k][i] == ds[i];
      }
    }
  }

  /** This reference asks for this file, given what the store holds. */
  ghost predicate Asks(objects: Store, namespace: string, r: ObjectKeyRef, n: string, file: string) {
    r.name == n && file in FilesIn(UseOf(DataAt(objects, namespace, r.name), r.key))
  }

  ghost predicate SomeAsks(objects: Store, namespace: string, refs: seq<ObjectKeyRef>, n: string, file: string) {
    exists r :: r in refs && Asks(objects, namespace, r, n, file)
  }

  lemma EntryMountsFile(inp: Inputs, objects: Store, list: Kind, i: nat, n: string, file: string)
    requires Resolves(objects, inp.namespace, inp.spec, inp.ext) && ValidOrder(inp.order)
    requires list in {AppConfigKind, ConfigMapFilesKind} && i < |RefsOf(inp.spec, list)|
    ensures MountsFile(ListBlock(inp, list)[i].mounts, n, file) <==>
              Asks(objects, inp.namespace, RefsOf(inp.spec, list)[i], n, file)
  {
    var r, dir := RefsOf(inp.spec, list)[i], DirOf(inp.spec, list);
    var data := DataAt(objects, inp.namespace, r.name);
    var order := inp.order(Listed(list, i), MountLoop, KeysOf(data));
    EntryFromStore(inp, objects, list, i);
    assert ListBlock(inp, list)[i] == DeltaOf(EntryOf(inp, list, i), Listed(list, i), inp.order, DirOfPlugins(inp));
    assert ListBlock(inp, list)[i].mounts == MountsOf(r.name, dir, r.key, data, order);
    MountsFileOf(r.name, dir, r.key, data, order, n, file);
  }

  lemma ListMountsFile(inp: Inputs, objects: Store, list: Kind, n: string, file: string)
    requires Resolves(objects, inp.namespace, inp.spec, inp.ext) && ValidOrder(inp.order)
    requires list in {AppConfigKind, ConfigMapFilesKind}
    ensures MountsFile(Sum(ListBlock(inp, list)).mounts, n, file) <==>
              SomeAsks(objects, inp.namespace, RefsOf(inp.spec, list), n, file)
  {
    var ds, refs := ListBlock(inp, list), RefsOf(inp.spec, list);
    forall i | 0 <= i < |refs|
      ensures MountsFile(ds[i].mounts, n, file) <==> Asks(objects, inp.namespace, refs[i], n, file)
    {
      EntryMountsFile(inp, objects, list, i, n, file);
    }
    MountsByRefs(objects, inp.namespace, ds, refs, n, file);
  }

  lemma {:induction false} MountsByRefs(objects: Store, namespace: string, ds: seq<Delta>, refs: seq<ObjectKeyRef>,
                                        n: string, file: string)
    requires |ds| == |refs|
    requires forall i :: 0 <= i < |refs| ==>
               (MountsFile(ds[i].mounts, n, file) <==> Asks(objects, namespace, refs[i], n, file))
    ensures MountsFile(Sum(ds).mounts, n, file) <==> SomeAsks(objects, namespace, refs, n, file)
  {
    SumMountsFile(ds, n, file);
    if SomeAsks(objects, namespace, refs, n, file) {
      var r :| r in refs && Asks(objects, namespace, r, n, file);
      var i :| 0 <= i < |refs| && refs[i] == r;
    }
    if i :| 0 <= i < |ds| && MountsFile(ds[i].mounts, n, file) {
      assert refs[i] in refs;
    }
  }

  /** The references whose files are mounted into the Backstage container. */
  function ContainerRefs(spec: BackstageSpec): seq<ObjectKeyRef> {
    RefsOf(spec, AppConfigKind) + RefsOf(spec, ConfigMapFilesKind)
  }

  function ListedMounts(inp: Inputs): seq<VolumeMount> {
    Sum(ListBlock(inp, AppConfigKind)).mounts + Sum(ListBlock(inp, ConfigMapFilesKind)).mounts
  }

  lemma SomeAsksOfBoth(objects: Store, namespace: string, a: seq<ObjectKeyRef>, b: seq<ObjectKeyRef>, n: string,
                       file: string)
    ensures SomeAsks(objects, namespace, a + b, n, file) <==>
              SomeAsks(objects, namespace, a, n, file) || SomeAsks(objects, namespace, b, n, file)
  {
    if SomeAsks(objects, namespace, a, n, file) {
      var r :| r in a && Asks(objects, namespace, r, n, file);
      assert r in a + b;
    }
    if SomeAsks(objects, namespace, b, n, file) {
      var r :| r in b && Asks(objects, namespace, r, n, file);
      assert r in a + b;
    }
  }

  /** A file is mounted for the CR's lists exactly when one of their references asks for it. */
  lemma ListedMountsFile(inp: Inputs, objects: Store, n: string, file: string)
    requires Resolves(objects, inp.namespace, inp.spec, inp.ext) && ValidOrder(inp.order)
    ensures MountsFile(ListedMounts(inp), n, file) <==>
              SomeAsks(objects, inp.namespace, ContainerRefs(inp.spec), n, file)
  {
    ListMountsFile(inp, objects, AppConfigKind, n, file);
    ListMountsFile(inp, objects, ConfigMapFilesKind, n, file);
    MountsFileOfBoth(Sum(ListBlock(inp, AppConfigKind)).mounts, Sum(ListBlock(inp, ConfigMapFilesKind)).mounts, n,
                     file);
    SomeAsksOfBoth(objects, inp.namespace, RefsOf(inp.spec, AppConfigKind), RefsOf(inp.spec, ConfigMapFilesKind), n,
                   file);
  }

  lemma NotAsked(objects: Store, namespace: string, refs: seq<ObjectKeyRef>, n: string, file: string)
    requires DataAt(objects, namespace, n).Some? && file !in KeysOf(DataAt(objects, namespace, n))
    ensures !SomeAsks(objects, namespace, refs, n, file)
  {
  }

  /** What one reference has mounted and the store later lacks shows in the mounts of all of them. */
  lemma LostFile(was: Store, now: Store, namespace: string, refs: seq<ObjectKeyRef>, r: ObjectKeyRef)
    returns (file: string)
    requires r in refs && "" !in KeysOf(DataAt(now, namespace, r.name))
    requires UseOf(DataAt(was, namespace, r.name), r.key) != UseOf(DataAt(now, namespace, r.name), r.key)
    requires DataAt(now, namespace, r.name).Some?
    requires DataAt(was, namespace, r.name).None?
             || !(FilesIn(UseOf(DataAt(was, namespace, r.name), r.key))
                  <= FilesIn(UseOf(DataAt(now, namespace, r.name), r.key)))
    ensures SomeAsks(was, namespace, refs, r.name, file) && !SomeAsks(now, namespace, refs, r.name, file)
  {
    var u := UseOf(DataAt(was, namespace, r.name), r.key);
    if u.Whole? {
      file := "";
    } else {
      file :| file in FilesIn(u) && file !in FilesIn(UseOf(DataAt(now, namespace, r.name), r.key));
    }
    assert Asks(was, namespace, r, r.name, file);
    NotAsked(now, namespace, refs, r.name, file);
  }

  /** References that are used otherwise give other mounts. */
  lemma OtherUseOtherMounts(was: Store, now: Store, namespace: string, refs: seq<ObjectKeyRef>, r: ObjectKeyRef)
    returns (file: string)
    requires r in refs && "" !in KeysOf(DataAt(was, namespace, r.name)) && "" !in KeysOf(DataAt(now, namespace, r.name))
    requires UseOf(DataAt(was, namespace, r.name), r.key) != UseOf(DataAt(now, namespace, r.name), r.key)
    ensures SomeAsks(was, namespace, refs, r.name, file) != SomeAsks(now, namespace, refs, r.name, file)
  {
    var d1, d2 := DataAt(was, namespace, r.name), DataAt(now, namespace, r.name);
    if d2.Some? && (d1.None? || !(FilesIn(UseOf(d1, r.key)) <= FilesIn(UseOf(d2, r.key)))) {
      file := LostFile(was, now, namespace, refs, r);
    } else {
      file := LostFile(now, was, namespace, refs, r);
    }
  }

  lemma {:induction false} SumOfNoMounts(ds: seq<Delta>)
    requires forall i :: 0 <= i < |ds| ==> ds[i].mounts == []
    ensures Sum(ds).mounts == []
  {
    if ds != [] {
      SumOfNoMounts(ds[..|ds| - 1]);
    }
  }

  lemma ListMountsNothing(inp: Inputs, list: Kind)
    requires list in {ConfigMapEnvsKind, SecretEnvsKind}
    ensures Sum(ListBlock(inp, list)).mounts == []
  {
    SumOfNoMounts(ListBlock(inp, list));
  }

  lemma ListsMountFiles(inp: Inputs, soFar: Delta)
    ensures WithSpecLists(inp, soFar).mounts
         == soFar.mounts + ListedMounts(inp) + Sum(ListBlock(inp, SecretFilesKind)).mounts
  {
    ListMountsNothing(inp, ConfigMapEnvsKind);
    ListMountsNothing(inp, SecretEnvsKind);
    var a, b, c := Sum(ListBlock(inp, AppConfigKind)).mounts, Sum(ListBlock(inp, ConfigMapFilesKind)).mounts,
                   Sum(ListBlock(inp, SecretFilesKind)).mounts;
    assert WithSpecLists(inp, soFar).mounts == soFar.mounts + a + b + [] + c + [] + [];
    WithoutEmpty(soFar.mounts, a, b, c);
  }

  lemma WithoutEmpty<T>(s: seq<T>, a: seq<T>, b: seq<T>, c: seq<T>)
    ensures s + a + b + [] + c + [] + [] == s + (a + b) + c
    ensures [] + s + [] == s
  {
  }

  /** What the Backstage container mounts beside its manifest's mounts: defaults, the CR's ConfigMaps and secrets. */
  lemma AllMounts(inp: Inputs, registry: seq<Kind>)
    requires Usable(inp)
    ensures AllAdded(inp, registry).mounts
         == Sum(DefaultDeltas(inp, PlacedKinds(inp, registry))).mounts + ListedMounts(inp)
            + Sum(ListBlock(inp, SecretFilesKind)).mounts
  {
    var defaults := Sum(DefaultDeltas(inp, PlacedKinds(inp, registry)));
    var soFar := Plus(EnvDelta(inp.spec), defaults);
    BlocksAddUp(inp, registry);
    ListsMountFiles(inp, soFar);
    EndsMountNothing(inp, defaults, WithSpecLists(inp, soFar));
  }

  lemma EndsMountNothing(inp: Inputs, defaults: Delta, lists: Delta)
    ensures Plus(EnvDelta(inp.spec), defaults).mounts == defaults.mounts
    ensures Plus(lists, DbDelta(inp)).mounts == lists.mounts
  {
  }

  lemma SameDefaultMounts(a: Inputs, b: Inputs, registry: seq<Kind>)
    requires SameManifests(a, b) && a.order == b.order && Usable(a) && Usable(b)
    ensures DefaultDeltas(a, PlacedKinds(a, registry)) == DefaultDeltas(b, PlacedKinds(b, registry))
  {
    SamePlaced(a, b, registry);
    DefaultsRepeated(a, b, PlacedKinds(a, registry));
  }

  lemma SameSecretMounts(a: Inputs, b: Inputs)
    requires SameManifests(a, b) && a.order == b.order
    ensures ListBlock(a, SecretFilesKind) == ListBlock(b, SecretFilesKind)
  {
    SameManifest(a, b, DeploymentKind);
  }

  lemma Cancelled<T>(p: seq<T>, x: seq<T>, y: seq<T>, q: seq<T>)
    requires p + x + q == p + y + q
    ensures x == y
  {
    assert |x| == |y|;
    assert (p + x + q)[|p|..|p| + |x|] == x;
    assert (p + y + q)[|p|..|p| + |y|] == y;
  }

  lemma ContainerMounts(inp: Inputs, registry: seq<Kind>)
    requires Usable(inp) && Ready(inp) && IsPlaced(inp, DeploymentKind)
    ensures LastPod(inp, registry).containers != []
    ensures LastPod(inp, registry).containers[0].mounts
         == ManifestPod(inp).containers[0].mounts + AllAdded(inp, registry).mounts
  {
    PodAfter(inp, registry);
  }

  /** Of the mounts of the Backstage container, only those of the CR's ConfigMaps can differ. */
  lemma ListedMountsTell(a: Inputs, b: Inputs, registry: seq<Kind>)
    requires SameManifests(a, b) && a.order == b.order && Usable(a) && Usable(b) && Ready(a) && Ready(b)
    requires IsPlaced(a, DeploymentKind) && IsPlaced(b, DeploymentKind)
    requires LastPod(a, registry).containers != [] && LastPod(b, registry).containers != []
    requires LastPod(a, registry).containers[0].mounts == LastPod(b, registry).containers[0].mounts
    ensures ListedMounts(a) == ListedMounts(b)
  {
    ContainerMounts(a, registry);
    ContainerMounts(b, registry);
    AllMounts(a, registry);
    AllMounts(b, registry);
    SameDefaultMounts(a, b, registry);
    SameSecretMounts(a, b);
    SameManifest(a, b, DeploymentKind);
    var given, defaults := ManifestPod(a).containers[0].mounts, Sum(DefaultDeltas(a, PlacedKinds(a, registry))).mounts;
    var secrets := Sum(ListBlock(a, SecretFilesKind)).mounts;
    AddedBetween(given, defaults, ListedMounts(a), ListedMounts(b), secrets);
  }

  lemma AddedBetween<T>(given: seq<T>, defaults: seq<T>, x: seq<T>, y: seq<T>, q: seq<T>)
    requires given + (defaults + x + q) == given + (defaults + y + q)
    ensures x == y
  {
    assert given + (defaults + x + q) == given + defaults + x + q;
    assert given + (defaults + y + q) == given + defaults + y + q;
    Cancelled(given + defaults, x, y, q);
  }

  /** What the mounts of dynamic plugins tell of their ConfigMap. */
  lemma PluginMountsTell(name: string, d1: Data, d2: Data, dir: string, o1: seq<string>, o2: seq<string>)
    requires multiset(o1) == multiset(KeysOf(d1)) && multiset(o2) == multiset(KeysOf(d2))
    requires MountsOf(name, dir, DYNAMIC_PLUGINS_FILE, d1, o1) == MountsOf(name, dir, DYNAMIC_PLUGINS_FILE, d2, o2)
    ensures UseOf(d1, DYNAMIC_PLUGINS_FILE) == UseOf(d2, DYNAMIC_PLUGINS_FILE)
  {
    var u1, u2 := UseOf(d1, DYNAMIC_PLUGINS_FILE), UseOf(d2, DYNAMIC_PLUGINS_FILE);
    forall file ensures file in FilesIn(u1) <==> file in FilesIn(u2) {
      MountsFileOf(name, dir, DYNAMIC_PLUGINS_FILE, d1, o1, name, file);
      MountsFileOf(name, dir, DYNAMIC_PLUGINS_FILE, d2, o2, name, file);
    }
    assert FilesIn(u1) == FilesIn(u2);
    assert u1.Files? ==> "" !in u1.names;
    assert u2.Files? ==> "" !in u2.names;
  }

  lemma InitContainerMounts(inp: Inputs, registry: seq<Kind>)
    requires Usable(inp) && Ready(inp) && IsPlaced(inp, DeploymentKind) && IsRegistry(registry)
    requires ManifestPod(inp).initContainers != []
    ensures LastPod(inp, registry).initContainers != []
    ensures LastPod(inp, registry).initContainers[0].mounts
         == ManifestPod(inp).initContainers[0].mounts
            + (DefaultDelta(inp, DynamicPluginsKind).initMounts + PluginsDelta(inp).initMounts)
  {
    PodAfter(inp, registry);
    AllInitMounts(inp, registry);
  }

  lemma OwnPluginsMount(inp: Inputs, objects: Store)
    requires Resolves(objects, inp.namespace, inp.spec, inp.ext) && inp.spec.PluginsName() != ""
    requires Usable(inp) && DirOfPlugins(inp).Some?
    ensures DefaultDelta(inp, DynamicPluginsKind).initMounts == []
    ensures var name, data := inp.spec.PluginsName(), DataAt(objects, inp.namespace, inp.spec.PluginsName());
            PluginsDelta(inp).initMounts ==
              MountsOf(name, DirOfPlugins(inp).value, DYNAMIC_PLUGINS_FILE, data,
                       inp.order(Listed(DynamicPluginsKind, 0), MountLoop, KeysOf(data)))
  {
    PluginsFromStore(inp, objects);
    OnlyPluginsMount(inp, DynamicPluginsKind);
  }

  lemma PluginsDeltasTell(a: Inputs, b: Inputs, registry: seq<Kind>)
    requires SameManifests(a, b) && a.spec.PluginsName() != ""
    requires Usable(a) && Usable(b) && Ready(a) && Ready(b) && IsRegistry(registry)
    requires IsPlaced(a, DeploymentKind) && IsPlaced(b, DeploymentKind) && DirOfPlugins(a).Some?
    requires LastPod(a, registry).initContainers != [] && LastPod(b, registry).initContainers != []
    requires LastPod(a, registry).initContainers[0].mounts == LastPod(b, registry).initContainers[0].mounts
    ensures PluginsDelta(a).initMounts == PluginsDelta(b).initMounts
  {
    SameManifest(a, b, DeploymentKind);
    InitContainerMounts(a, registry);
    InitContainerMounts(b, registry);
    OnlyPluginsMount(a, DynamicPluginsKind);
    OnlyPluginsMount(b, DynamicPluginsKind);
    AppendedAfter(ManifestPod(a).initContainers[0].mounts, DefaultDelta(a, DynamicPluginsKind).initMounts,
                  PluginsDelta(a).initMounts, PluginsDelta(b).initMounts);
  }

  lemma AppendedAfter<T>(given: seq<T>, defaults: seq<T>, x: seq<T>, y: seq<T>)
    requires given + (defaults + x) == given + (defaults + y)
    ensures x == y
  {
    assert given + (defaults + x) == given + defaults + x + [];
    assert given + (defaults + y) == given + defaults + y + [];
    Cancelled(given + defaults, x, y, []);
  }

  /** If dynamic plugins are mounted alike, they are used alike. */
  lemma PluginsTell(a: Inputs, b: Inputs, registry: seq<Kind>, was: Store, now: Store)
    requires ReadFrom(a, b, was, now) && SameManifests(a, b) && a.spec.PluginsName() != ""
    requires Usable(a) && Usable(b) && Ready(a) && Ready(b) && IsRegistry(registry)
    requires IsPlaced(a, DeploymentKind) && IsPlaced(b, DeploymentKind) && DirOfPlugins(a).Some?
    requires LastPod(a, registry).initContainers != [] && LastPod(b, registry).initContainers != []
    requires LastPod(a, registry).initContainers[0].mounts == LastPod(b, registry).initContainers[0].mounts
    ensures var name := a.spec.PluginsName();
            UseOf(DataAt(was, a.namespace, name), DYNAMIC_PLUGINS_FILE) ==
              UseOf(DataAt(now, a.namespace, name), DYNAMIC_PLUGINS_FILE)
  {
    SameManifest(a, b, DeploymentKind);
    PluginsDeltasTell(a, b, registry);
    OwnPluginsMount(a, was);
    OwnPluginsMount(b, now);
    var name, site := a.spec.PluginsName(), Listed(DynamicPluginsKind, 0);
    var d1, d2 := DataAt(was, a.namespace, name), DataAt(now, a.namespace, name);
    PluginMountsTell(name, d1, d2, DirOfPlugins(a).value, a.order(site, MountLoop, KeysOf(d1)),
                     b.order(site, MountLoop, KeysOf(d2)));
  }
}
