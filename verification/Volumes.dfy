/** When the volume names of the Backstage pod are distinct. */
module Volumes {
  import opened BackstageApi
  import opened Builder
  import opened FinalPod
  import opened Names
  import opened Objects
  import opened Pods
  import opened Samples
  import opened Seqs
  import opened Validation
  import opened Wrappers

  function NameOf(v: Volume): string { v.name }

  function VolumeNames(volumes: seq<Volume>): seq<string> { Map(NameOf, volumes) }

  /** The default objects of these kinds are mounted; dynamic plugins only into the named init container. */
  predicate BringsVolume(inp: Inputs, kind: Kind) {
    && kind in {AppConfigKind, ConfigMapFilesKind, SecretFilesKind, DynamicPluginsKind}
    && (kind == DynamicPluginsKind ==> DirOfPlugins(inp).Some?)
  }

  function Bringing(inp: Inputs): Kind -> bool { (kind: Kind) => BringsVolume(inp, kind) }

  function OwnNames(inp: Inputs): Kind -> string { (kind: Kind) => RuntimeName(kind, inp.name) }

  function DefaultVolumes(inp: Inputs, kinds: seq<Kind>): seq<string> {
    Map(OwnNames(inp), Filter(Bringing(inp), kinds))
  }

  /** The object that entry r of a list in the CR stands for. */
  function ListedName(inp: Inputs, list: Kind, r: ObjectKeyRef): string {
    match list
    case AppConfigKind => Lookup(inp.ext.appConfigs, r.name).name
    case ConfigMapFilesKind => Lookup(inp.ext.extraFileConfigMaps, r.name).name
    case _ => r.name
  }

  function ListVolumes(inp: Inputs, list: Kind): seq<string> {
    var refs := RefsOf(inp.spec, list);
    seq(|refs|, i requires 0 <= i < |refs| => ListedName(inp, list, refs[i]))
  }

  function PluginsVolumes(inp: Inputs): seq<string> {
    if inp.spec.PluginsName() != "" && DirOfPlugins(inp).Some? then [inp.ext.dynamicPlugins.name] else []
  }

  /** Everything that the CR has mounted, each entry of its lists once. */
  function CrVolumes(inp: Inputs): seq<string> {
    ListVolumes(inp, AppConfigKind) + ListVolumes(inp, ConfigMapFilesKind) + ListVolumes(inp, SecretFilesKind)
    + PluginsVolumes(inp)
  }

  lemma NamesOfBoth(a: seq<Volume>, b: seq<Volume>)
    ensures VolumeNames(a + b) == VolumeNames(a) + VolumeNames(b)
  {
  }

  lemma {:induction false} NamesOfList(ds: seq<Delta>, names: seq<string>)
    requires |ds| == |names| && forall i :: 0 <= i < |ds| ==> VolumeNames(ds[i].volumes) == [names[i]]
    ensures VolumeNames(Sum(ds).volumes) == names
  {
    if ds != [] {
      var n := |ds| - 1;
      NamesOfList(ds[..n], names[..n]);
      NamesOfBoth(Sum(ds[..n]).volumes, ds[n].volumes);
      assert names == names[..n] + [names[n]];
    }
  }

  lemma OneName(volumes: seq<Volume>, name: string)
    requires |volumes| == 1 && volumes[0].name == name
    ensures VolumeNames(volumes) == [name]
  {
    assert NameOf(volumes[0]) == name;
  }

  lemma ListBrings(inp: Inputs, list: Kind)
    requires list in {AppConfigKind, ConfigMapFilesKind, SecretFilesKind}
    ensures VolumeNames(Sum(ListBlock(inp, list)).volumes) == ListVolumes(inp, list)
  {
    var refs, dir, names := RefsOf(inp.spec, list), DirOf(inp.spec, list), ListVolumes(inp, list);
    forall i | 0 <= i < |refs| ensures VolumeNames(ListBlock(inp, list)[i].volumes) == [names[i]] {
      OneName(ListBlock(inp, list)[i].volumes, names[i]);
    }
    NamesOfList(ListBlock(inp, list), names);
  }

  lemma {:induction false} NoVolumes(ds: seq<Delta>)
    requires forall i :: 0 <= i < |ds| ==> ds[i].volumes == []
    ensures Sum(ds).volumes == []
  {
    if ds != [] {
      NoVolumes(ds[..|ds| - 1]);
    }
  }

  lemma EnvListsBringNone(inp: Inputs, list: Kind)
    requires list in {ConfigMapEnvsKind, SecretEnvsKind}
    ensures Sum(ListBlock(inp, list)).volumes == []
  {
    NoVolumes(ListBlock(inp, list));
  }

  lemma DefaultBrings(inp: Inputs, kind: Kind)
    requires Usable(inp) && IsPlaced(inp, kind)
    ensures VolumeNames(DefaultDelta(inp, kind).volumes)
         == if BringsVolume(inp, kind) then [RuntimeName(kind, inp.name)] else []
  {
    if BringsVolume(inp, kind) {
      OneName(DefaultDelta(inp, kind).volumes, RuntimeName(kind, inp.name));
    } else {
      assert DefaultDelta(inp, kind).volumes == [];
    }
  }

  lemma SplitLast<T>(s: seq<T>)
    requires s != []
    ensures s == s[..|s| - 1] + [s[|s| - 1]]
  {
  }

  lemma OneDefault(inp: Inputs, kind: Kind)
    requires Usable(inp)
    ensures DefaultDeltas(inp, [kind]) == [DefaultDelta(inp, kind)]
  {
  }

  lemma {:induction false} DefaultsBring(inp: Inputs, kinds: seq<Kind>)
    requires Usable(inp) && forall kind :: kind in kinds ==> IsPlaced(inp, kind)
    ensures VolumeNames(Sum(DefaultDeltas(inp, kinds)).volumes) == DefaultVolumes(inp, kinds)
  {
    if kinds != [] {
      var init, last := kinds[..|kinds| - 1], kinds[|kinds| - 1];
      var d := DefaultDelta(inp, last);
      DefaultsBring(inp, init);
      SplitLast(kinds);
      DefaultDeltasOfBoth(inp, init, [last]);
      OneDefault(inp, last);
      SumStep(DefaultDeltas(inp, init), d);
      NamesOfBoth(Sum(DefaultDeltas(inp, init)).volumes, d.volumes);
      DefaultBrings(inp, last);
      MapOfLast(OwnNames(inp), Filter(Bringing(inp), init), last);
    }
  }

  lemma MapOfLast(f: Kind -> string, kinds: seq<Kind>, last: Kind)
    ensures Map(f, kinds + [last]) == Map(f, kinds) + [f(last)]
    ensures Map(f, kinds + []) == Map(f, kinds) + []
  {
    assert kinds + [] == kinds;
  }

  lemma ChainOfVolumes(inp: Inputs, soFar: Delta)
    requires Sum(ListBlock(inp, ConfigMapEnvsKind)).volumes == [] && Sum(ListBlock(inp, SecretEnvsKind)).volumes == []
    ensures WithSpecLists(inp, soFar).volumes
         == soFar.volumes + Sum(ListBlock(inp, AppConfigKind)).volumes + Sum(ListBlock(inp, ConfigMapFilesKind)).volumes
            + Sum(ListBlock(inp, SecretFilesKind)).volumes + PluginsDelta(inp).volumes
  {
  }

  lemma NamesOfChain(a: seq<Volume>, b: seq<Volume>, c: seq<Volume>, d: seq<Volume>, e: seq<Volume>)
    ensures VolumeNames(a + b + c + d + e)
         == VolumeNames(a) + (VolumeNames(b) + VolumeNames(c) + VolumeNames(d) + VolumeNames(e))
  {
  }

  lemma PluginsBring(inp: Inputs)
    ensures VolumeNames(PluginsDelta(inp).volumes) == PluginsVolumes(inp)
  {
    if PluginsVolumes(inp) != [] {
      OneName(PluginsDelta(inp).volumes, inp.ext.dynamicPlugins.name);
    }
  }

  /** The names of all volumes that are added, in order. */
  lemma AddedVolumes(inp: Inputs, registry: seq<Kind>)
    requires Usable(inp)
    ensures VolumeNames(AllAdded(inp, registry).volumes)
         == DefaultVolumes(inp, PlacedKinds(inp, registry)) + CrVolumes(inp)
  {
    var kinds := PlacedKinds(inp, registry);
    var defaults := Sum(DefaultDeltas(inp, kinds));
    var soFar := Plus(EnvDelta(inp.spec), defaults);
    FilterMembers((kind: Kind) => IsPlaced(inp, kind), registry);
    BlocksAddUp(inp, registry);
    EnvListsBringNone(inp, ConfigMapEnvsKind);
    EnvListsBringNone(inp, SecretEnvsKind);
    ChainOfVolumes(inp, soFar);
    assert soFar.volumes == defaults.volumes && AllAdded(inp, registry).volumes == WithSpecLists(inp, soFar).volumes;
    NamesOfChain(defaults.volumes, Sum(ListBlock(inp, AppConfigKind)).volumes,
                 Sum(ListBlock(inp, ConfigMapFilesKind)).volumes, Sum(ListBlock(inp, SecretFilesKind)).volumes,
                 PluginsDelta(inp).volumes);
    DefaultsBring(inp, kinds);
    ListBrings(inp, AppConfigKind);
    ListBrings(inp, ConfigMapFilesKind);
    ListBrings(inp, SecretFilesKind);
    PluginsBring(inp);
  }

  /** The kinds among the default objects that bring a volume into this pod. */
  predicate Mounted(inp: Inputs, kind: Kind) { IsPlaced(inp, kind) && BringsVolume(inp, kind) }

  lemma MountedKinds(inp: Inputs, registry: seq<Kind>, kinds: seq<Kind>)
    requires IsRegistry(registry) && kinds == Filter(Bringing(inp), PlacedKinds(inp, registry))
    ensures Distinct(kinds) && forall kind :: kind in kinds <==> Mounted(inp, kind)
  {
    FilterDistinct((kind: Kind) => IsPlaced(inp, kind), registry);
    FilterDistinct(Bringing(inp), PlacedKinds(inp, registry));
    FilterMembers((kind: Kind) => IsPlaced(inp, kind), registry);
    FilterMembers(Bringing(inp), PlacedKinds(inp, registry));
  }

  predicate BothFiles(inp: Inputs) {
    IsPlaced(inp, ConfigMapFilesKind) && IsPlaced(inp, SecretFilesKind)
  }

  lemma BothAmong(inp: Inputs, k1: Kind, k2: Kind)
    requires Mounted(inp, k1) && Mounted(inp, k2)
    ensures {k1, k2} == {ConfigMapFilesKind, SecretFilesKind} ==> BothFiles(inp)
  {
    assert k1 in {k1, k2} && k2 in {k1, k2};
    assert {k1, k2} == {ConfigMapFilesKind, SecretFilesKind} ==>
             ConfigMapFilesKind in {k1, k2} && SecretFilesKind in {k1, k2};
  }

  lemma NamesOfPair(inp: Inputs, k1: Kind, k2: Kind)
    requires Mounted(inp, k1) && Mounted(inp, k2) && k1 != k2
    ensures OwnNames(inp)(k1) == OwnNames(inp)(k2) <==> {k1, k2} == {ConfigMapFilesKind, SecretFilesKind}
    ensures OwnNames(inp)(k1) == OwnNames(inp)(k2) ==> BothFiles(inp)
  {
    NamesOfDefaults(k1, k2, inp.name);
    BothAmong(inp, k1, k2);
  }

  lemma NoClash(inp: Inputs, kinds: seq<Kind>)
    requires Distinct(kinds) && !BothFiles(inp) && forall kind :: kind in kinds ==> Mounted(inp, kind)
    ensures Distinct(Map(OwnNames(inp), kinds))
  {
    forall i, j | 0 <= i < j < |kinds| ensures Map(OwnNames(inp), kinds)[i] != Map(OwnNames(inp), kinds)[j] {
      assert kinds[i] in kinds && kinds[j] in kinds;
      NamesOfPair(inp, kinds[i], kinds[j]);
    }
  }

  lemma Clash(inp: Inputs, kinds: seq<Kind>)
    requires ConfigMapFilesKind in kinds && SecretFilesKind in kinds
    requires Mounted(inp, ConfigMapFilesKind) && Mounted(inp, SecretFilesKind)
    ensures !Distinct(Map(OwnNames(inp), kinds))
  {
    var names := Map(OwnNames(inp), kinds);
    var i :| 0 <= i < |kinds| && kinds[i] == ConfigMapFilesKind;
    var j :| 0 <= j < |kinds| && kinds[j] == SecretFilesKind;
    NamesOfPair(inp, ConfigMapFilesKind, SecretFilesKind);
    assert names[i] == names[j];
    assert i < j || j < i;
  }

  /** The volumes of default objects clash exactly when both objects of files are there. */
  lemma DefaultsDistinct(inp: Inputs, registry: seq<Kind>)
    requires IsRegistry(registry)
    ensures Distinct(DefaultVolumes(inp, PlacedKinds(inp, registry))) <==> !BothFiles(inp)
  {
    var kinds := Filter(Bringing(inp), PlacedKinds(inp, registry));
    MountedKinds(inp, registry, kinds);
    if BothFiles(inp) {
      assert Mounted(inp, ConfigMapFilesKind) && Mounted(inp, SecretFilesKind);
      Clash(inp, kinds);
    } else {
      NoClash(inp, kinds);
    }
  }

  lemma DefaultMembers(inp: Inputs, registry: seq<Kind>, name: string)
    requires IsRegistry(registry)
    ensures name in DefaultVolumes(inp, PlacedKinds(inp, registry)) <==>
              exists kind :: Mounted(inp, kind) && name == RuntimeName(kind, inp.name)
  {
    var kinds := Filter(Bringing(inp), PlacedKinds(inp, registry));
    MountedKinds(inp, registry, kinds);
    if kind :| Mounted(inp, kind) && name == RuntimeName(kind, inp.name) {
      var i :| 0 <= i < |kinds| && kinds[i] == kind;
      assert Map(OwnNames(inp), kinds)[i] == name;
    }
    if name in Map(OwnNames(inp), kinds) {
      var i :| 0 <= i < |kinds| && Map(OwnNames(inp), kinds)[i] == name;
      assert kinds[i] in kinds && Mounted(inp, kinds[i]);
    }
  }

  lemma LastVolumes(inp: Inputs, registry: seq<Kind>)
    requires Usable(inp) && Ready(inp) && IsPlaced(inp, DeploymentKind)
    ensures VolumeNames(LastPod(inp, registry).volumes)
         == VolumeNames(ManifestPod(inp).volumes)
            + (DefaultVolumes(inp, PlacedKinds(inp, registry)) + CrVolumes(inp))
  {
    PodAfter(inp, registry);
    AddedVolumes(inp, registry);
    NamesOfBoth(ManifestPod(inp).volumes, AllAdded(inp, registry).volumes);
  }

  /** A default object's volume has none of these names. */
  ghost predicate Avoids(inp: Inputs, names: seq<string>) {
    forall kind :: Mounted(inp, kind) ==> RuntimeName(kind, inp.name) !in names
  }

  lemma AvoidsMeans(inp: Inputs, registry: seq<Kind>, names: seq<string>)
    requires IsRegistry(registry)
    ensures Avoids(inp, names) <==>
              forall name :: name in DefaultVolumes(inp, PlacedKinds(inp, registry)) ==> name !in names
  {
    forall name ensures name in DefaultVolumes(inp, PlacedKinds(inp, registry)) <==>
                          exists kind :: Mounted(inp, kind) && name == RuntimeName(kind, inp.name)
    {
      DefaultMembers(inp, registry, name);
    }
  }

  /**
   The volume names of the finished pod are distinct exactly when the manifest's are, the entries of the CR name
   different objects, the two default objects of files are not both there, and these three groups do not meet.
   */
  lemma DistinctVolumes(inp: Inputs, registry: seq<Kind>)
    requires Usable(inp) && Ready(inp) && IsPlaced(inp, DeploymentKind) && IsRegistry(registry)
    ensures var given, asked := VolumeNames(ManifestPod(inp).volumes), CrVolumes(inp);
            Distinct(VolumeNames(LastPod(inp, registry).volumes)) <==>
              && Distinct(given) && Distinct(asked) && !BothFiles(inp)
              && Avoids(inp, given) && Avoids(inp, asked) && forall name :: name in given ==> name !in asked
  {
    var given, asked := VolumeNames(ManifestPod(inp).volumes), CrVolumes(inp);
    var defaults := DefaultVolumes(inp, PlacedKinds(inp, registry));
    LastVolumes(inp, registry);
    DefaultsDistinct(inp, registry);
    AvoidsMeans(inp, registry, given);
    AvoidsMeans(inp, registry, asked);
    ThreeDistinct(given, defaults, asked);
  }

  lemma ThreeDistinct(a: seq<string>, b: seq<string>, c: seq<string>)
    ensures Distinct(a + (b + c)) <==>
              && Distinct(a) && Distinct(b) && Distinct(c)
              && (forall x :: x in b ==> x !in a) && (forall x :: x in b ==> x !in c)
              && (forall x :: x in a ==> x !in c)
  {
    DistinctOfBoth(b, c);
    DistinctOfBoth(a, b + c);
    if (forall x :: x in b ==> x !in a) && (forall x :: x in a ==> x !in c) {
      forall x | x in a ensures x !in b + c {
      }
    }
    if forall x :: x in a ==> x !in b + c {
      forall x | x in b ensures x !in a {
        assert x in b ==> x in b + c;
      }
      forall x | x in a ensures x !in c {
        assert x in c ==> x in b + c;
      }
    }
  }

  /** Two entries of the CR for one object, say one ConfigMap under two keys, always give two volumes of one name. */
  lemma TwoEntriesClash(inp: Inputs, registry: seq<Kind>, i: nat, j: nat)
    requires Usable(inp) && Ready(inp) && IsPlaced(inp, DeploymentKind) && IsRegistry(registry)
    requires i < j < |CrVolumes(inp)| && CrVolumes(inp)[i] == CrVolumes(inp)[j]
    ensures !Distinct(VolumeNames(LastPod(inp, registry).volumes))
  {
    DistinctVolumes(inp, registry);
  }

  /** A CR that lists the ConfigMap "config" under each of its two keys. */
  function TwoKeys(): Inputs {
    var refs := [ObjectKeyRef("config", "a.yaml"), ObjectKeyRef("config", "b.yaml")];
    var app := Application(Some(AppConfig("", refs)), "", None, None, None, None, [], None);
    var config := ConfigMapV("config", Some(map["a.yaml" := "", "b.yaml" := ""]));
    Inputs("ns", "a", SampleSpec(Some(app)), NO_EXTERNAL.(appConfigs := map["config" := config]),
           SampleOperator(map[], None), "", NoOrder())
  }

  lemma TwoKeysLists()
    ensures IsSample(TwoKeys(), map[], None)
    ensures |CrVolumes(TwoKeys())| == 2 && CrVolumes(TwoKeys())[0] == CrVolumes(TwoKeys())[1]
  {
    assert ListVolumes(TwoKeys(), AppConfigKind) == ["config", "config"];
  }

  /** The builder accepts this CR and gives its pod two volumes of one name. */
  lemma TwoKeysClash(registry: seq<Kind>)
    requires IsRegistry(registry)
    ensures Usable(TwoKeys()) && Succeeds(TwoKeys())
    ensures !Distinct(VolumeNames(LastPod(TwoKeys(), registry).volumes))
  {
    TwoKeysLists();
    SampleSucceeds(TwoKeys(), map[], None);
    SampleGiven(TwoKeys(), map[], None, DeploymentKind);
    TwoEntriesClash(TwoKeys(), registry, 0, 1);
  }
}
