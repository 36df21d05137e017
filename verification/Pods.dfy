/**
 Pods as values, and what a ConfigMap or Secret contributes to the Backstage pod.
 A contribution only ever appends, so it is a Delta; deltas add up.
 */
module Pods {
  import opened FilePaths
  import opened MergePatch
  import opened Names
  import opened Seqs
  import opened Wrappers

  datatype ObjectKind = ConfigMapObject | SecretObject

  datatype VolumeSource =
    | FromObject(kind: ObjectKind, objectName: string, defaultMode: int, optional: bool)
    | OtherSource(rest: Json)

  datatype Volume = Volume(name: string, source: VolumeSource)

  datatype VolumeMount = VolumeMount(name: string, mountPath: string, subPath: string, readOnly: bool)

  datatype EnvVar =
    | EnvValue(name: string, value: string)
    | EnvFromKey(name: string, kind: ObjectKind, objectName: string, key: string)

  datatype EnvFromSource = EnvFromSource(kind: ObjectKind, objectName: string)

  /** The fields the operator writes; rest stands for all the others. */
  datatype ContainerV = ContainerV(
    name: string, image: string, workingDir: string, args: seq<string>,
    env: seq<EnvVar>, envFrom: seq<EnvFromSource>, mounts: seq<VolumeMount>, rest: Json)

  datatype PodV = PodV(
    initContainers: seq<ContainerV>, containers: seq<ContainerV>, ephemeral: seq<ContainerV>,
    volumes: seq<Volume>, pullSecrets: seq<string>, rest: Json)

  /** A nil map is None; an empty one is not. */
  type Data = Option<map<string, string>>

  function KeysOf(data: Data): set<string> {
    if data.Some? then data.value.Keys else {}
  }

  /** Which contributor runs a loop over a map: a default object, or an entry of a list in the CR. */
  datatype Site = Default(kind: Kind) | Listed(list: Kind, index: nat)

  /** Mounting files and passing --config are two loops over the same map. */
  datatype Loop = MountLoop | ConfigLoop

  /** The order in which Go's range yields the keys of a map, one for each loop that runs. */
  type Order = (Site, Loop, set<string>) -> seq<string>

  ghost predicate ValidOrder(order: Order) {
    forall site, loop, keys :: multiset(order(site, loop, keys)) == multiset(keys)
  }

  const DEFAULT_MOUNT_DIR := "/opt/app-root/src"
  const DYNAMIC_PLUGINS_FILE := "dynamic-plugins.yaml"
  const PLUGINS_INIT_CONTAINER := "install-dynamic-plugins"

  function IsSelected(key: string): string -> bool {
    (file: string) => key == "" || key == file
  }

  /** The files among the keys, in the order given, that a reference with this key asks for. */
  function Selected(order: seq<string>, key: string): seq<string> {
    Filter(IsSelected(key), order)
  }

  function Mounted(volume: string, dir: string): string -> VolumeMount {
    (file: string) => VolumeMount(volume, Join(dir, file), file, true)
  }

  /** The mounts of one MountFilesFrom. */
  function MountsOf(objectName: string, dir: string, key: string, data: Data, order: seq<string>): seq<VolumeMount> {
    if data.None? then [VolumeMount(objectName, Join(dir, objectName), "", true)]
    else Map(Mounted(objectName, dir), Selected(order, key))
  }

  function Joined(dir: string): string -> string {
    (file: string) => Join(dir, file)
  }

  /** The paths one app-config passes with --config. */
  function ConfigsOf(dir: string, key: string, order: seq<string>): seq<string> {
    Map(Joined(dir), Selected(order, key))
  }

  /** The arguments that pass the paths. */
  function ConfigArgs(paths: seq<string>): seq<string> {
    if paths == [] then [] else ConfigArgs(paths[..|paths| - 1]) + ["--config", paths[|paths| - 1]]
  }

  function VolumeOf(kind: ObjectKind, objectName: string): Volume {
    Volume(objectName, FromObject(kind, objectName, 420, false))
  }

  /** What is appended to the pod, its first container and its first init container. */
  datatype Delta = Delta(
    volumes: seq<Volume>, mounts: seq<VolumeMount>, initMounts: seq<VolumeMount>,
    env: seq<EnvVar>, envFrom: seq<EnvFromSource>, configs: seq<string>)

  const NOTHING := Delta([], [], [], [], [], [])

  function Plus(a: Delta, b: Delta): Delta {
    Delta(a.volumes + b.volumes, a.mounts + b.mounts, a.initMounts + b.initMounts,
          a.env + b.env, a.envFrom + b.envFrom, a.configs + b.configs)
  }

  function Sum(ds: seq<Delta>): Delta {
    if ds == [] then NOTHING else Plus(Sum(ds[..|ds| - 1]), ds[|ds| - 1])
  }

  function AppendTo(c: ContainerV, d: Delta): ContainerV {
    c.(mounts := c.mounts + d.mounts, env := c.env + d.env, envFrom := c.envFrom + d.envFrom,
       args := c.args + ConfigArgs(d.configs))
  }

  /** The pod after the delta: the appends go to the first containers and to the volumes. */
  function Extended(pod: PodV, d: Delta): PodV
    requires pod.containers != []
  {
    pod.(volumes := pod.volumes + d.volumes,
         containers := pod.containers[0 := AppendTo(pod.containers[0], d)],
         initContainers :=
           if pod.initContainers == [] then []
           else pod.initContainers[0 := pod.initContainers[0].(mounts := pod.initContainers[0].mounts + d.initMounts)])
  }

  /** What the six updatePod methods do, with the receiver's fields as arguments. */
  datatype Contribution =
    | AppConfigC(name: string, data: Data, mountPath: string, key: string)
    | FilesC(kind: ObjectKind, name: string, data: Data, mountPath: string, key: string)
    | EnvsC(kind: ObjectKind, name: string, key: string)
    | PluginsC(name: string, data: Data)

  /** The working directory of the first init container of the expected name, None when there is no such container. */
  function PluginsDir(initContainers: seq<ContainerV>): Option<string> {
    if initContainers == [] then None
    else if initContainers[0].name == PLUGINS_INIT_CONTAINER then Some(initContainers[0].workingDir)
    else PluginsDir(initContainers[1..])
  }

  function DeltaOf(c: Contribution, site: Site, order: Order, pluginsDir: Option<string>): Delta {
    match c
    case AppConfigC(name, data, dir, key) =>
      NOTHING.(volumes := [VolumeOf(ConfigMapObject, name)],
               mounts := MountsOf(name, dir, key, data, order(site, MountLoop, KeysOf(data))),
               configs := ConfigsOf(dir, key, order(site, ConfigLoop, KeysOf(data))))
    case FilesC(kind, name, data, dir, key) =>
      NOTHING.(volumes := [VolumeOf(kind, name)],
               mounts := MountsOf(name, dir, key, data, order(site, MountLoop, KeysOf(data))))
    case EnvsC(kind, name, key) =>
      if key == "" then NOTHING.(envFrom := [EnvFromSource(kind, name)])
      else NOTHING.(env := [EnvFromKey(key, kind, name, key)])
    case PluginsC(name, data) =>
      if pluginsDir.None? then NOTHING
      else NOTHING.(volumes := [VolumeOf(ConfigMapObject, name)],
                    initMounts := MountsOf(name, pluginsDir.value, DYNAMIC_PLUGINS_FILE, data,
                                           order(site, MountLoop, KeysOf(data))))
  }

  function AllContainers(pod: PodV): seq<ContainerV> {
    pod.initContainers + pod.containers + pod.ephemeral
  }

  ghost predicate HasVolume(volumes: seq<Volume>, m: VolumeMount) {
    exists v :: v in volumes && v.name == m.name
  }

  /** Every mount names a volume of the pod. */
  ghost predicate MountsClosed(pod: PodV) {
    forall c, m :: c in AllContainers(pod) && m in c.mounts ==> HasVolume(pod.volumes, m)
  }

  lemma SumStep(ds: seq<Delta>, d: Delta)
    ensures Sum(ds + [d]) == Plus(Sum(ds), d)
  {
    assert (ds + [d])[..|ds|] == ds;
  }

  lemma PlusAssociates(a: Delta, b: Delta, c: Delta)
    ensures Plus(Plus(a, b), c) == Plus(a, Plus(b, c))
    ensures Plus(a, NOTHING) == a && Plus(NOTHING, a) == a
  {
  }

  lemma {:induction false} SumOfBoth(a: seq<Delta>, b: seq<Delta>)
    ensures Sum(a + b) == Plus(Sum(a), Sum(b))
  {
    if b == [] {
      assert a + b == a;
    } else {
      var init, last := b[..|b| - 1], b[|b| - 1];
      SumOfBoth(a, init);
      assert (a + b)[..|a + b| - 1] == a + init;
      PlusAssociates(Sum(a), Sum(init), last);
    }
  }

  lemma {:induction false} ConfigArgsOfBoth(a: seq<string>, b: seq<string>)
    ensures ConfigArgs(a + b) == ConfigArgs(a) + ConfigArgs(b)
  {
    if b == [] {
      assert a + b == a;
    } else {
      ConfigArgsOfBoth(a, b[..|b| - 1]);
      assert (a + b)[..|a + b| - 1] == a + b[..|b| - 1];
    }
  }

  lemma AppendToTwice(c: ContainerV, a: Delta, b: Delta)
    ensures AppendTo(AppendTo(c, a), b) == AppendTo(c, Plus(a, b))
    ensures AppendTo(c, NOTHING) == c
  {
    ConfigArgsOfBoth(a.configs, b.configs);
    assert c.mounts + a.mounts + b.mounts == c.mounts + (a.mounts + b.mounts);
    assert c.env + a.env + b.env == c.env + (a.env + b.env);
    assert c.envFrom + a.envFrom + b.envFrom == c.envFrom + (a.envFrom + b.envFrom);
    assert c.args + ConfigArgs(a.configs) + ConfigArgs(b.configs) == c.args + ConfigArgs(a.configs + b.configs);
  }

  /** Appending one delta after another is appending their sum. */
  lemma ExtendedTwice(pod: PodV, a: Delta, b: Delta)
    requires pod.containers != []
    ensures Extended(Extended(pod, a), b) == Extended(pod, Plus(a, b))
  {
    var c := pod.containers[0];
    AppendToTwice(c, a, b);
    assert Extended(Extended(pod, a), b).containers == Extended(pod, Plus(a, b)).containers;
    if pod.initContainers != [] {
      var i := pod.initContainers[0];
      assert i.mounts + a.initMounts + b.initMounts == i.mounts + (a.initMounts + b.initMounts);
      assert Extended(Extended(pod, a), b).initContainers == Extended(pod, Plus(a, b)).initContainers;
    }
    assert pod.volumes + a.volumes + b.volumes == pod.volumes + (a.volumes + b.volumes);
  }

  lemma ExtendedByNothing(pod: PodV)
    requires pod.containers != []
    ensures Extended(pod, NOTHING) == pod
  {
    AppendToTwice(pod.containers[0], NOTHING, NOTHING);
    if pod.initContainers != [] {
      var i := pod.initContainers[0];
      assert i.(mounts := i.mounts + []) == i;
    }
  }

  function PathOf(m: VolumeMount): string { m.mountPath }

  /** What a delta passes with --config is what it mounts. */
  ghost predicate ConfigsMounted(d: Delta) {
    multiset(d.configs) == multiset(Map(PathOf, d.mounts))
  }

  lemma ValidOrderOfNone(order: Order, site: Site, loop: Loop)
    requires ValidOrder(order)
    ensures order(site, loop, {}) == []
  {
    assert multiset(order(site, loop, {})) == multiset({});
    EmptyPermuted(order(site, loop, {}));
  }

  /**
   The paths passed with --config are the paths mounted, whatever order the two loops take, exactly when the ConfigMap
   has data: without data it is mounted as a whole and nothing is passed.
   */
  lemma ConfigsMatchMounts(c: Contribution, site: Site, order: Order, pluginsDir: Option<string>)
    requires c.AppConfigC? && ValidOrder(order)
    ensures ConfigsMounted(DeltaOf(c, site, order, pluginsDir)) <==> c.data.Some?
    ensures c.data.None? ==> DeltaOf(c, site, order, pluginsDir).configs == []
  {
    var d := DeltaOf(c, site, order, pluginsDir);
    if c.data.None? {
      ValidOrderOfNone(order, site, ConfigLoop);
      assert |multiset(d.configs)| == 0 && |multiset(Map(PathOf, d.mounts))| == 1;
    } else {
      var o1, o2 := order(site, MountLoop, KeysOf(c.data)), order(site, ConfigLoop, KeysOf(c.data));
      FilterPermuted(IsSelected(c.key), o1, o2);
      MapPermuted(Joined(c.mountPath), Selected(o1, c.key), Selected(o2, c.key));
      assert Map(PathOf, d.mounts) == Map(Joined(c.mountPath), Selected(o1, c.key));
    }
  }

  /** The keys of a map come once each, in whatever order. */
  lemma OrderIsDistinct(order: seq<string>, keys: set<string>)
    requires multiset(order) == multiset(keys)
    ensures Distinct(order)
  {
    forall i, j | 0 <= i < j < |order| ensures order[i] != order[j] {
      assert multiset(keys)[order[i]] <= 1;
      if order[i] == order[j] {
        TwiceIn(order, i, j);
      }
    }
  }

  lemma AllTheSame<T>(s: seq<T>, x: T)
    requires Distinct(s) && forall y :: y in s ==> y == x
    ensures s == if x in s then [x] else []
  {
    assert |s| <= 1 || s[0] != s[1];
    forall i | 0 <= i < |s| ensures s[i] == x {
      assert s[i] in s;
    }
    assert s == [] || s == [s[0]];
  }

  /** A reference with a key selects that file, if it is there. */
  lemma OneFileSelected(order: seq<string>, keys: set<string>, key: string)
    requires multiset(order) == multiset(keys) && key != ""
    ensures Selected(order, key) == if key in keys then [key] else []
  {
    OrderIsDistinct(order, keys);
    FilterDistinct(IsSelected(key), order);
    FilterMembers(IsSelected(key), order);
    assert key in keys <==> key in multiset(order);
    AllTheSame(Selected(order, key), key);
  }

  /** Every mount of a delta names one of its own volumes. */
  ghost predicate DeltaClosed(d: Delta) {
    forall m :: m in d.mounts || m in d.initMounts ==> HasVolume(d.volumes, m)
  }

  lemma ContributionClosed(c: Contribution, site: Site, order: Order, pluginsDir: Option<string>)
    ensures DeltaClosed(DeltaOf(c, site, order, pluginsDir))
  {
    var d := DeltaOf(c, site, order, pluginsDir);
    forall m | m in d.mounts || m in d.initMounts ensures HasVolume(d.volumes, m) {
      assert d.volumes[0] in d.volumes && d.volumes[0].name == m.name;
    }
  }

  lemma {:induction false} SumClosed(ds: seq<Delta>)
    requires forall d :: d in ds ==> DeltaClosed(d)
    ensures DeltaClosed(Sum(ds))
  {
    if ds != [] {
      SumClosed(ds[..|ds| - 1]);
      assert DeltaClosed(ds[|ds| - 1]);
    }
  }

  lemma MountedMore(volumes: seq<Volume>, more: seq<Volume>, m: VolumeMount)
    requires HasVolume(volumes, m) || HasVolume(more, m)
    ensures HasVolume(volumes + more, m)
  {
    var v :| v in volumes + more && v.name == m.name;
  }

  /** A mount of the extended pod was there before or comes with the delta. */
  lemma ExtendedMounts(pod: PodV, d: Delta, c: ContainerV, m: VolumeMount)
    requires pod.containers != [] && c in AllContainers(Extended(pod, d)) && m in c.mounts
    ensures m in d.mounts || m in d.initMounts || exists b :: b in AllContainers(pod) && m in b.mounts
  {
    var i :| 0 <= i < |AllContainers(Extended(pod, d))| && AllContainers(Extended(pod, d))[i] == c;
    assert AllContainers(pod)[i] in AllContainers(pod);
  }

  /** Closed deltas keep a closed pod closed. */
  lemma ExtendedClosed(pod: PodV, d: Delta)
    requires pod.containers != [] && MountsClosed(pod) && DeltaClosed(d)
    ensures MountsClosed(Extended(pod, d))
  {
    var after := Extended(pod, d);
    forall c, m | c in AllContainers(after) && m in c.mounts ensures HasVolume(after.volumes, m) {
      ExtendedMounts(pod, d, c, m);
      if m in d.mounts || m in d.initMounts {
        assert HasVolume(d.volumes, m);
      } else {
        var b :| b in AllContainers(pod) && m in b.mounts;
        assert HasVolume(pod.volumes, m);
      }
      MountedMore(pod.volumes, d.volumes, m);
    }
  }

  /** Equal up to the order of what is appended. */
  ghost predicate SamePieces(a: Delta, b: Delta) {
    && multiset(a.volumes) == multiset(b.volumes)
    && multiset(a.mounts) == multiset(b.mounts)
    && multiset(a.initMounts) == multiset(b.initMounts)
    && multiset(a.env) == multiset(b.env)
    && multiset(a.envFrom) == multiset(b.envFrom)
    && multiset(a.configs) == multiset(b.configs)
  }

  lemma SamePiecesPlus(a1: Delta, a2: Delta, b1: Delta, b2: Delta)
    requires SamePieces(a1, a2) && SamePieces(b1, b2)
    ensures SamePieces(Plus(a1, b1), Plus(a2, b2))
    ensures SamePieces(Plus(a1, b1), Plus(b1, a1))
  {
  }

  lemma MiddleLast(a: Delta, d: Delta, b: Delta)
    ensures SamePieces(Plus(Plus(a, b), d), Plus(Plus(a, d), b))
  {
  }

  lemma SamePiecesChain(a: Delta, b: Delta, c: Delta)
    requires SamePieces(a, b) && SamePieces(b, c)
    ensures SamePieces(a, c)
  {
  }

  lemma SumMiddle(init: seq<Delta>, d: Delta, a: seq<Delta>, b: seq<Delta>)
    requires SamePieces(Sum(init), Sum(a + b))
    ensures SamePieces(Sum(init + [d]), Sum(a + [d] + b))
  {
    SumStep(init, d);
    SumStep(a, d);
    SumOfBoth(a + [d], b);
    SumOfBoth(a, b);
    SamePiecesPlus(Sum(init), Sum(a + b), d, d);
    MiddleLast(Sum(a), d, Sum(b));
    SamePiecesChain(Sum(init + [d]), Plus(Plus(Sum(a), Sum(b)), d), Sum(a + [d] + b));
  }

  /** The order of the contributors changes the order of the pieces and nothing else. */
  lemma {:induction false} SumPermuted(s: seq<Delta>, t: seq<Delta>)
    requires multiset(s) == multiset(t)
    ensures SamePieces(Sum(s), Sum(t))
    decreases |s|
  {
    if s == [] {
      EmptyPermuted(t);
    } else {
      var init, d, a, b := PermutedLast(s, t);
      SumPermuted(init, a + b);
      SumMiddle(init, d, a, b);
    }
  }
}
