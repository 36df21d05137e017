/** preprocessSpec: every ConfigMap that the CR names is read before anything is built. */
module Preprocessing {
  import opened BackstageApi
  import opened Builder
  import opened ClusterApi
  import opened FinalPod
  import opened Machine
  import opened Marshalling
  import opened Names
  import opened Objects
  import opened Pods
  import opened Programs
  import opened Resources
  import opened Seqs
  import opened Volumes
  import opened Wrappers

  type ConfigMapsByName = map<string, ConfigMapV>

  function ConfigMapKey(namespace: string, name: string): Key { Key(ConfigMaps, namespace, name) }

  function KeyIn(namespace: string): string -> Key { (name: string) => ConfigMapKey(namespace, name) }

  function KeysFor(namespace: string, names: seq<string>): seq<Key> { Map(KeyIn(namespace), names) }

  function RefName(r: ObjectKeyRef): string { r.name }

  function NamesIn(refs: seq<ObjectKeyRef>): seq<string> { Map(RefName, refs) }

  /** A name that the CR may leave empty. */
  function Optional(name: string): seq<string> {
    if name == "" then [] else [name]
  }

  function BackstageRaw(spec: BackstageSpec): string {
    if spec.rawRuntimeConfig.None? then "" else spec.rawRuntimeConfig.value.backstageConfigName
  }

  function LocalDbRaw(spec: BackstageSpec): string {
    if spec.rawRuntimeConfig.None? then "" else spec.rawRuntimeConfig.value.localDbConfigName
  }

  /** The ConfigMaps that a CR names, in the order in which they are read. */
  function ReadNames(spec: BackstageSpec): seq<string> {
    Optional(BackstageRaw(spec)) + Optional(LocalDbRaw(spec)) + NamesIn(RefsOf(spec, AppConfigKind))
    + NamesIn(RefsOf(spec, ConfigMapFilesKind)) + NamesIn(RefsOf(spec, ConfigMapEnvsKind))
    + Optional(spec.PluginsName())
  }

  function ReadKeys(namespace: string, spec: BackstageSpec): seq<Key> { KeysFor(namespace, ReadNames(spec)) }

  function DataMap(data: Data): map<string, string> {
    if data.Some? then data.value else map[]
  }

  function ConfigMapOf(name: string, r: Resource): ConfigMapV { ConfigMapV(name, DataOf(r)) }

  /** Raw configuration: what comes later wins. */
  function Union(got: seq<Resource>): map<string, string> {
    if got == [] then map[] else Union(got[..|got| - 1]) + DataMap(DataOf(got[|got| - 1]))
  }

  /** The ConfigMaps of a list. */
  function ByName(names: seq<string>, got: seq<Resource>): ConfigMapsByName
    requires |names| == |got|
  {
    if names == [] then map[] else
      var n := |names| - 1;
      ByName(names[..n], got[..n])[names[n] := ConfigMapOf(names[n], got[n])]
  }

  /** The external configuration from the ConfigMaps of each part of the CR. */
  function ExtFrom(spec: BackstageSpec, raw: seq<Resource>, app: seq<Resource>, files: seq<Resource>,
                   envs: seq<Resource>, plugins: seq<Resource>): ExternalConfig
    requires |app| == |RefsOf(spec, AppConfigKind)| && |files| == |RefsOf(spec, ConfigMapFilesKind)|
    requires |envs| == |RefsOf(spec, ConfigMapEnvsKind)| && |plugins| == |Optional(spec.PluginsName())|
  {
    ExternalConfig(
      Union(raw), ByName(NamesIn(RefsOf(spec, AppConfigKind)), app),
      ByName(NamesIn(RefsOf(spec, ConfigMapFilesKind)), files), ByName(NamesIn(RefsOf(spec, ConfigMapEnvsKind)), envs),
      if plugins == [] then ZERO_CONFIG_MAP else ConfigMapOf(spec.PluginsName(), plugins[0]))
  }

  /** Where the parts of the CR end among its ReadNames. */
  function RawEnd(spec: BackstageSpec): nat { |Optional(BackstageRaw(spec))| + |Optional(LocalDbRaw(spec))| }

  function AppEnd(spec: BackstageSpec): nat { RawEnd(spec) + |RefsOf(spec, AppConfigKind)| }

  function FilesEnd(spec: BackstageSpec): nat { AppEnd(spec) + |RefsOf(spec, ConfigMapFilesKind)| }

  function EnvsEnd(spec: BackstageSpec): nat { FilesEnd(spec) + |RefsOf(spec, ConfigMapEnvsKind)| }

  lemma PartsEnd(spec: BackstageSpec)
    ensures |ReadNames(spec)| == EnvsEnd(spec) + |Optional(spec.PluginsName())|
  {
  }

  /** The external configuration from what was read, in the order of ReadNames. */
  function ExtOf(spec: BackstageSpec, got: seq<Resource>): ExternalConfig
    requires |got| == |ReadNames(spec)|
  {
    PartsEnd(spec);
    ExtFrom(spec, got[..RawEnd(spec)], got[RawEnd(spec)..AppEnd(spec)], got[AppEnd(spec)..FilesEnd(spec)],
            got[FilesEnd(spec)..EnvsEnd(spec)], got[EnvsEnd(spec)..])
  }

  lemma Slices<T>(v: seq<T>, w: seq<T>, x: seq<T>, y: seq<T>, z: seq<T>, a: nat, b: nat, c: nat, d: nat)
    requires a == |v| && b == a + |w| && c == b + |x| && d == c + |y|
    ensures var s := v + w + x + y + z;
            |s| == d + |z| && s[..a] == v && s[a..b] == w && s[b..c] == x && s[c..d] == y && s[d..] == z
  {
  }

  lemma ExtOfParts(spec: BackstageSpec, raw: seq<Resource>, app: seq<Resource>, files: seq<Resource>,
                   envs: seq<Resource>, plugins: seq<Resource>)
    requires |raw| == RawEnd(spec) && |app| == |RefsOf(spec, AppConfigKind)|
    requires |files| == |RefsOf(spec, ConfigMapFilesKind)| && |envs| == |RefsOf(spec, ConfigMapEnvsKind)|
    requires |plugins| == |Optional(spec.PluginsName())|
    ensures |raw + app + files + envs + plugins| == |ReadNames(spec)|
    ensures ExtOf(spec, raw + app + files + envs + plugins) == ExtFrom(spec, raw, app, files, envs, plugins)
  {
    PartsEnd(spec);
    Slices(raw, app, files, envs, plugins, RawEnd(spec), AppEnd(spec), FilesEnd(spec), EnvsEnd(spec));
  }

  /** The cluster has answered these reads since call n. */
  ghost predicate HasRead(cluster: Cluster, keys: seq<Key>, got: seq<Resource>, n: nat)
    reads cluster
  {
    ReadAll(cluster.objects, keys, cluster.faults, n) == Read(got, true, cluster.calls)
  }

  /** One of these reads has failed, and nothing was read after it. */
  ghost predicate HasFailed(cluster: Cluster, keys: seq<Key>, n: nat)
    reads cluster
  {
    var r := ReadAll(cluster.objects, keys, cluster.faults, n);
    !r.ok && r.calls == cluster.calls
  }

  /** Nothing but reads was sent after the first calls. */
  ghost predicate OnlyGets(sent: seq<Call>, before: seq<Call>) {
    before <= sent && forall i :: |before| <= i < |sent| ==> sent[i].GetObject?
  }

  lemma OnlyGetsStep(sent: seq<Call>, before: seq<Call>, key: Key)
    requires OnlyGets(sent, before)
    ensures OnlyGets(sent + [GetObject(key)], before)
  {
  }

  method GetConfigMap(cluster: Cluster, namespace: string, name: string, ghost keys: seq<Key>, ghost got: seq<Resource>,
                      ghost n: nat) returns (cm: Option<ConfigMapV>, ghost r: Resource)
    requires HasRead(cluster, keys, got, n)
    modifies cluster`objects, cluster`calls, cluster`sent
    ensures cluster.objects == old(cluster.objects)
    ensures cluster.sent == old(cluster.sent) + [GetObject(ConfigMapKey(namespace, name))]
    ensures cm.Some? ==> HasRead(cluster, keys + [ConfigMapKey(namespace, name)], got + [r], n)
                         && cm.value == ConfigMapOf(name, r)
    ensures cm.None? ==> HasFailed(cluster, keys + [ConfigMapKey(namespace, name)], n)
  {
    var reply := cluster.Perform(GetObject(ConfigMapKey(namespace, name)));
    ReadStep(cluster.objects, keys, ConfigMapKey(namespace, name), cluster.faults, n);
    if reply.Found? {
      r := reply.resource;
      cm := Some(ConfigMapOf(name, reply.resource));
    } else {
      r := EMPTY;
      cm := None;
    }
  }

  /** Copies the data key by key, in whatever order the map is ranged over. */
  method CopyRaw(into: map<string, string>, data: Data) returns (result: map<string, string>)
    ensures result == into + DataMap(data)
  {
    result := into;
    var left := KeysOf(data);
    while left != {}
      invariant left <= KeysOf(data)
      invariant result == into + (DataMap(data) - left)
      decreases left
    {
      var key :| key in left;
      result := result[key := data.value[key]];
      left := left - {key};
    }
    assert DataMap(data) - {} == DataMap(data);
  }

  lemma OneKey(namespace: string, name: string)
    ensures KeysFor(namespace, [name]) == [ConfigMapKey(namespace, name)]
    ensures KeysFor(namespace, []) == []
  {
  }

  lemma UnionStep(got: seq<Resource>, r: Resource)
    ensures Union(got + [r]) == Union(got) + DataMap(DataOf(r))
  {
    assert (got + [r])[..|got|] == got;
  }

  /** One of the two raw configurations, laid over what is there. */
  method LoadRaw(cluster: Cluster, namespace: string, name: string, rawConfig: map<string, string>,
                 ghost keys: seq<Key>, ghost got: seq<Resource>, ghost n: nat)
    returns (result: map<string, string>, ok: bool, ghost now: seq<Resource>)
    requires HasRead(cluster, keys, got, n) && rawConfig == Union(got)
    modifies cluster`objects, cluster`calls, cluster`sent
    ensures cluster.objects == old(cluster.objects) && OnlyGets(cluster.sent, old(cluster.sent))
    ensures ok ==> HasRead(cluster, keys + KeysFor(namespace, Optional(name)), now, n) && result == Union(now)
                   && |now| == |got| + |Optional(name)|
    ensures !ok ==> HasFailed(cluster, keys + KeysFor(namespace, Optional(name)), n)
  {
    OneKey(namespace, name);
    result, ok, now := rawConfig, true, got;
    if name == "" {
      assert keys + [] == keys;
      return;
    }
    ghost var r;
    var cm;
    cm, r := GetConfigMap(cluster, namespace, name, keys, got, n);
    if cm.None? {
      ok := false;
      return;
    }
    UnionStep(got, r);
    now := got + [r];
    result := CopyRaw(rawConfig, cm.value.data);
  }

  lemma KeysOfBoth(namespace: string, a: seq<string>, b: seq<string>)
    ensures KeysFor(namespace, a + b) == KeysFor(namespace, a) + KeysFor(namespace, b)
  {
  }

  lemma ByNameStep(names: seq<string>, got: seq<Resource>, name: string, r: Resource)
    requires |names| == |got|
    ensures ByName(names + [name], got + [r]) == ByName(names, got)[name := ConfigMapOf(name, r)]
  {
    assert (names + [name])[..|names|] == names && (got + [r])[..|got|] == got;
  }

  lemma NextKey(namespace: string, refs: seq<ObjectKeyRef>, i: nat, keys: seq<Key>)
    requires i < |refs|
    ensures NamesIn(refs[..i + 1]) == NamesIn(refs[..i]) + [refs[i].name]
    ensures keys + KeysFor(namespace, NamesIn(refs[..i + 1]))
         == keys + KeysFor(namespace, NamesIn(refs[..i])) + [ConfigMapKey(namespace, refs[i].name)]
  {
    assert NamesIn(refs[..i + 1]) == NamesIn(refs[..i]) + [RefName(refs[i])];
    KeysOfBoth(namespace, NamesIn(refs[..i]), [refs[i].name]);
    OneKey(namespace, refs[i].name);
  }

  lemma KeysThrough(namespace: string, refs: seq<ObjectKeyRef>, i: nat, keys: seq<Key>)
    requires i <= |refs|
    ensures keys + KeysFor(namespace, NamesIn(refs))
         == keys + KeysFor(namespace, NamesIn(refs[..i])) + KeysFor(namespace, NamesIn(refs[i..]))
  {
    assert NamesIn(refs) == NamesIn(refs[..i]) + NamesIn(refs[i..]);
    KeysOfBoth(namespace, NamesIn(refs[..i]), NamesIn(refs[i..]));
  }

  lemma StillFailed(cluster: Cluster, keys: seq<Key>, more: seq<Key>, n: nat)
    requires HasFailed(cluster, keys, n)
    ensures HasFailed(cluster, keys + more, n)
  {
    FailureEnds(cluster.objects, keys, more, cluster.faults, n);
  }

  /** One of the three loops over the ConfigMaps of a list. */
  method ResolveList(cluster: Cluster, namespace: string, refs: seq<ObjectKeyRef>,
                     ghost keys: seq<Key>, ghost got: seq<Resource>, ghost n: nat)
    returns (result: ConfigMapsByName, ok: bool, ghost more: seq<Resource>)
    requires HasRead(cluster, keys, got, n)
    modifies cluster`objects, cluster`calls, cluster`sent
    ensures cluster.objects == old(cluster.objects) && OnlyGets(cluster.sent, old(cluster.sent))
    ensures ok ==> HasRead(cluster, keys + KeysFor(namespace, NamesIn(refs)), got + more, n)
                   && |more| == |refs| && result == ByName(NamesIn(refs), more)
    ensures !ok ==> HasFailed(cluster, keys + KeysFor(namespace, NamesIn(refs)), n)
  {
    result, ok, more := map[], true, [];
    assert keys + KeysFor(namespace, NamesIn(refs[..0])) == keys && got + [] == got;
    for i := 0 to |refs|
      invariant cluster.objects == old(cluster.objects) && OnlyGets(cluster.sent, old(cluster.sent))
      invariant HasRead(cluster, keys + KeysFor(namespace, NamesIn(refs[..i])), got + more, n)
      invariant |more| == i && result == ByName(NamesIn(refs[..i]), more)
    {
      ghost var r;
      var cm;
      NextKey(namespace, refs, i, keys);
      OnlyGetsStep(cluster.sent, old(cluster.sent), ConfigMapKey(namespace, refs[i].name));
      cm, r := GetConfigMap(cluster, namespace, refs[i].name, keys + KeysFor(namespace, NamesIn(refs[..i])), got + more,
                            n);
      if cm.None? {
        KeysThrough(namespace, refs, i + 1, keys);
        StillFailed(cluster, keys + KeysFor(namespace, NamesIn(refs[..i + 1])),
                    KeysFor(namespace, NamesIn(refs[i + 1..])), n);
        ok := false;
        return;
      }
      ByNameStep(NamesIn(refs[..i]), more, refs[i].name, r);
      assert got + more + [r] == got + (more + [r]);
      more := more + [r];
      result := result[cm.value.name := cm.value];
    }
    assert refs[..|refs|] == refs;
  }

  lemma FailedFor(cluster: Cluster, namespace: string, done: seq<string>, names: seq<string>, n: nat)
    requires HasFailed(cluster, KeysFor(namespace, done), n) && done <= names
    ensures HasFailed(cluster, KeysFor(namespace, names), n)
  {
    assert names == done + names[|done|..];
    KeysOfBoth(namespace, done, names[|done|..]);
    StillFailed(cluster, KeysFor(namespace, done), KeysFor(namespace, names[|done|..]), n);
  }

  lemma GetsTwice(a: seq<Call>, b: seq<Call>, c: seq<Call>)
    requires OnlyGets(b, a) && OnlyGets(c, b)
    ensures OnlyGets(c, a)
  {
  }

  /** Both raw configurations. */
  method LoadRawConfig(cluster: Cluster, namespace: string, spec: BackstageSpec, ghost n: nat)
    returns (result: map<string, string>, ok: bool, ghost got: seq<Resource>)
    requires HasRead(cluster, [], [], n)
    modifies cluster`objects, cluster`calls, cluster`sent
    ensures cluster.objects == old(cluster.objects) && OnlyGets(cluster.sent, old(cluster.sent))
    ensures var names := Optional(BackstageRaw(spec)) + Optional(LocalDbRaw(spec));
            if ok then
              HasRead(cluster, KeysFor(namespace, names), got, n) && result == Union(got) && |got| == RawEnd(spec)
            else HasFailed(cluster, KeysFor(namespace, names), n)
  {
    ghost var first, second := Optional(BackstageRaw(spec)), Optional(LocalDbRaw(spec));
    ghost var before := cluster.sent;
    KeysOfBoth(namespace, [], first);
    KeysOfBoth(namespace, first, second);
    assert [] + first == first && KeysFor(namespace, []) == [];
    result, ok, got := LoadRaw(cluster, namespace, BackstageRaw(spec), map[], [], [], n);
    if !ok {
      FailedFor(cluster, namespace, first, first + second, n);
      return;
    }
    ghost var between := cluster.sent;
    result, ok, got := LoadRaw(cluster, namespace, LocalDbRaw(spec), result, KeysFor(namespace, first), got, n);
    GetsTwice(before, between, cluster.sent);
  }

  /** One list, after the ConfigMaps named in done. */
  method NextList(cluster: Cluster, namespace: string, refs: seq<ObjectKeyRef>, ghost done: seq<string>,
                  ghost got: seq<Resource>, ghost names: seq<string>, ghost n: nat)
    returns (result: ConfigMapsByName, ok: bool, ghost more: seq<Resource>)
    requires HasRead(cluster, KeysFor(namespace, done), got, n) && done + NamesIn(refs) <= names
    modifies cluster`objects, cluster`calls, cluster`sent
    ensures cluster.objects == old(cluster.objects) && OnlyGets(cluster.sent, old(cluster.sent))
    ensures if ok then HasRead(cluster, KeysFor(namespace, done + NamesIn(refs)), got + more, n)
                       && |more| == |refs| && result == ByName(NamesIn(refs), more)
            else HasFailed(cluster, KeysFor(namespace, names), n)
  {
    KeysOfBoth(namespace, done, NamesIn(refs));
    result, ok, more := ResolveList(cluster, namespace, refs, KeysFor(namespace, done), got, n);
    if !ok {
      FailedFor(cluster, namespace, done + NamesIn(refs), names, n);
    }
  }

  /** The CR's own dynamic plugins, after everything else. */
  method LoadPlugins(cluster: Cluster, namespace: string, spec: BackstageSpec, ghost done: seq<string>,
                     ghost got: seq<Resource>, ghost n: nat)
    returns (result: ConfigMapV, ok: bool, ghost more: seq<Resource>)
    requires HasRead(cluster, KeysFor(namespace, done), got, n)
    modifies cluster`objects, cluster`calls, cluster`sent
    ensures cluster.objects == old(cluster.objects) && OnlyGets(cluster.sent, old(cluster.sent))
    ensures var names := done + Optional(spec.PluginsName());
            if ok then HasRead(cluster, KeysFor(namespace, names), got + more, n)
                       && |more| == |Optional(spec.PluginsName())|
                       && result == if more == [] then ZERO_CONFIG_MAP else ConfigMapOf(spec.PluginsName(), more[0])
            else HasFailed(cluster, KeysFor(namespace, names), n)
  {
    var name := spec.PluginsName();
    result, ok, more := ZERO_CONFIG_MAP, true, [];
    KeysOfBoth(namespace, done, Optional(name));
    OneKey(namespace, name);
    if name == "" {
      assert done + [] == done && got + [] == got;
      return;
    }
    ghost var r;
    var cm;
    cm, r := GetConfigMap(cluster, namespace, name, KeysFor(namespace, done), got, n);
    if cm.None? {
      ok := false;
      return;
    }
    result, more := cm.value, [r];
  }

  /** preprocessSpec: raw configuration, three lists and the dynamic plugins, up to the first error. */
  method PreprocessSpec(cluster: Cluster, namespace: string, spec: BackstageSpec)
    returns (result: ExternalConfig, ok: bool)
    modifies cluster`objects, cluster`calls, cluster`sent
    ensures cluster.objects == old(cluster.objects) && OnlyGets(cluster.sent, old(cluster.sent))
    ensures var r := ReadAll(cluster.objects, ReadKeys(namespace, spec), cluster.faults, old(cluster.calls));
            ok == r.ok && cluster.calls == r.calls && (ok ==> result == ExtOf(spec, r.got))
  {
    ghost var n, names, s0 := cluster.calls, ReadNames(spec), cluster.sent;
    ghost var d1 := Optional(BackstageRaw(spec)) + Optional(LocalDbRaw(spec));
    ghost var d2 := d1 + NamesIn(RefsOf(spec, AppConfigKind));
    ghost var d3 := d2 + NamesIn(RefsOf(spec, ConfigMapFilesKind));
    ghost var d4 := d3 + NamesIn(RefsOf(spec, ConfigMapEnvsKind));
    ghost var g1, g2, g3, g4, g5;
    result := NO_EXTERNAL;
    var raw, app, files, envs, plugins;
    raw, ok, g1 := LoadRawConfig(cluster, namespace, spec, n);
    if !ok {
      FailedFor(cluster, namespace, d1, names, n);
      return;
    }
    ghost var s1 := cluster.sent;
    app, ok, g2 := NextList(cluster, namespace, RefsOf(spec, AppConfigKind), d1, g1, names, n);
    GetsTwice(s0, s1, cluster.sent);
    if !ok {
      return;
    }
    ghost var s2 := cluster.sent;
    files, ok, g3 := NextList(cluster, namespace, RefsOf(spec, ConfigMapFilesKind), d2, g1 + g2, names, n);
    GetsTwice(s0, s2, cluster.sent);
    if !ok {
      return;
    }
    ghost var s3 := cluster.sent;
    envs, ok, g4 := NextList(cluster, namespace, RefsOf(spec, ConfigMapEnvsKind), d3, g1 + g2 + g3, names, n);
    GetsTwice(s0, s3, cluster.sent);
    if !ok {
      return;
    }
    ghost var s4 := cluster.sent;
    plugins, ok, g5 := LoadPlugins(cluster, namespace, spec, d4, g1 + g2 + g3 + g4, n);
    GetsTwice(s0, s4, cluster.sent);
    if !ok {
      return;
    }
    ExtOfParts(spec, g1, g2, g3, g4, g5);
    result := ExternalConfig(raw, app, files, envs, plugins);
  }

  /** Every ConfigMap that the CR names exists. */
  ghost predicate Available(objects: Store, namespace: string, spec: BackstageSpec) {
    forall name :: name in ReadNames(spec) ==> ConfigMapKey(namespace, name) in objects
  }

  /** Preprocessing succeeds exactly when everything the CR names exists and no call fails. */
  lemma PreprocessWhen(objects: Store, namespace: string, spec: BackstageSpec, faults: Faults, n: nat)
    ensures var r := ReadAll(objects, ReadKeys(namespace, spec), faults, n);
            r.ok <==> Available(objects, namespace, spec) && Calm(faults, n, r.calls)
  {
    var names, keys := ReadNames(spec), ReadKeys(namespace, spec);
    ReadsWhen(objects, keys, faults, n);
    if AllThere(objects, keys) {
      forall name | name in names ensures ConfigMapKey(namespace, name) in objects {
        var i :| 0 <= i < |names| && names[i] == name;
        assert keys[i] in objects;
      }
    }
    if Available(objects, namespace, spec) {
      forall i | 0 <= i < |keys| ensures keys[i] in objects {
        assert names[i] in names;
      }
    }
  }

  /** These resources are what the cluster holds under these names. */
  ghost predicate AsStored(objects: Store, namespace: string, names: seq<string>, got: seq<Resource>) {
    && |names| == |got|
    && forall i :: 0 <= i < |names| ==> ConfigMapKey(namespace, names[i]) in objects
                                        && got[i] == objects[ConfigMapKey(namespace, names[i])]
  }

  /** The ConfigMap is there and this is what it holds. */
  ghost predicate IsThere(objects: Store, namespace: string, cm: ConfigMapV) {
    var key := ConfigMapKey(namespace, cm.name);
    key in objects && cm.data == DataOf(objects[key])
  }

  /** These are exactly the ConfigMaps of these names, each as it is in the cluster. */
  ghost predicate ListResolved(objects: Store, namespace: string, names: seq<string>, cms: ConfigMapsByName) {
    forall name :: (name in cms <==> name in names)
                   && (name in cms ==> cms[name].name == name && IsThere(objects, namespace, cms[name]))
  }

  /** Whatever was read under a name, and however often, a list resolves its names and no others. */
  lemma {:induction false} ByNameNames(names: seq<string>, got: seq<Resource>)
    requires |names| == |got|
    ensures var cms := ByName(names, got);
            forall name :: (name in cms <==> name in names) && (name in cms ==> cms[name].name == name)
  {
    if names != [] {
      var n := |names| - 1;
      ByNameNames(names[..n], got[..n]);
      var cms := ByName(names, got);
      forall name ensures (name in cms <==> name in names) && (name in cms ==> cms[name].name == name) {
        assert name in names <==> name in names[..n] || name == names[n];
      }
    }
  }

  lemma {:induction false} ByNameStored(objects: Store, namespace: string, names: seq<string>, got: seq<Resource>)
    requires AsStored(objects, namespace, names, got)
    ensures ListResolved(objects, namespace, names, ByName(names, got))
  {
    ByNameNames(names, got);
    if names != [] {
      var n := |names| - 1;
      ByNameStored(objects, namespace, names[..n], got[..n]);
    }
  }

  function RawData(objects: Store, namespace: string, name: string): map<string, string> {
    var key := ConfigMapKey(namespace, name);
    if name != "" && key in objects then DataMap(DataOf(objects[key])) else map[]
  }

  lemma UnionOfTwo(objects: Store, namespace: string, first: string, second: string, got: seq<Resource>)
    requires AsStored(objects, namespace, Optional(first) + Optional(second), got)
    ensures Union(got) == RawData(objects, namespace, first) + RawData(objects, namespace, second)
  {
    var names := Optional(first) + Optional(second);
    if first != "" {
      assert names[0] == first;
    }
    if second != "" {
      assert names[|names| - 1] == second;
    }
    UnionOfFew(got);
  }

  lemma UnionOfOne(r: Resource)
    ensures Union([r]) == DataMap(DataOf(r))
  {
    UnionStep([], r);
    assert [] + [r] == [r];
    assert map[] + DataMap(DataOf(r)) == DataMap(DataOf(r));
  }

  lemma UnionOfFew(got: seq<Resource>)
    ensures |got| == 1 ==> Union(got) == DataMap(DataOf(got[0]))
    ensures |got| == 2 ==> Union(got) == DataMap(DataOf(got[0])) + DataMap(DataOf(got[1]))
  {
    if |got| == 1 {
      assert got == [got[0]];
      UnionOfOne(got[0]);
    } else if |got| == 2 {
      assert got == [got[0]] + [got[1]];
      UnionStep([got[0]], got[1]);
      UnionOfOne(got[0]);
    }
  }

  lemma StoredPart(objects: Store, namespace: string, names: seq<string>, got: seq<Resource>, a: nat, b: nat)
    requires AsStored(objects, namespace, names, got) && a <= b <= |names|
    ensures AsStored(objects, namespace, names[a..b], got[a..b])
  {
  }

  /** The parts of ReadNames. */
  lemma NamesOfParts(spec: BackstageSpec)
    ensures |ReadNames(spec)| == EnvsEnd(spec) + |Optional(spec.PluginsName())|
    ensures var names := ReadNames(spec);
            && names[0..RawEnd(spec)] == Optional(BackstageRaw(spec)) + Optional(LocalDbRaw(spec))
            && names[RawEnd(spec)..AppEnd(spec)] == NamesIn(RefsOf(spec, AppConfigKind))
            && names[AppEnd(spec)..FilesEnd(spec)] == NamesIn(RefsOf(spec, ConfigMapFilesKind))
            && names[FilesEnd(spec)..EnvsEnd(spec)] == NamesIn(RefsOf(spec, ConfigMapEnvsKind))
            && names[EnvsEnd(spec)..|names|] == Optional(spec.PluginsName())
  {
    PartsEnd(spec);
    Slices(Optional(BackstageRaw(spec)) + Optional(LocalDbRaw(spec)), NamesIn(RefsOf(spec, AppConfigKind)),
           NamesIn(RefsOf(spec, ConfigMapFilesKind)), NamesIn(RefsOf(spec, ConfigMapEnvsKind)),
           Optional(spec.PluginsName()), RawEnd(spec), AppEnd(spec), FilesEnd(spec), EnvsEnd(spec));
  }

  /** The external configuration is what the CR asks for, as it is in the cluster. */
  ghost predicate Resolves(objects: Store, namespace: string, spec: BackstageSpec, ext: ExternalConfig) {
    && ext.rawConfig == RawData(objects, namespace, BackstageRaw(spec)) + RawData(objects, namespace, LocalDbRaw(spec))
    && ListResolved(objects, namespace, NamesIn(RefsOf(spec, AppConfigKind)), ext.appConfigs)
    && ListResolved(objects, namespace, NamesIn(RefsOf(spec, ConfigMapFilesKind)), ext.extraFileConfigMaps)
    && ListResolved(objects, namespace, NamesIn(RefsOf(spec, ConfigMapEnvsKind)), ext.extraEnvConfigMaps)
    && (spec.PluginsName() != "" ==>
          ext.dynamicPlugins.name == spec.PluginsName() && IsThere(objects, namespace, ext.dynamicPlugins))
  }

  lemma PluginsStored(objects: Store, namespace: string, name: string, got: seq<Resource>)
    requires name != "" && AsStored(objects, namespace, Optional(name), got)
    ensures |got| == 1 && IsThere(objects, namespace, ConfigMapOf(name, got[0]))
  {
    assert Optional(name)[0] == name;
  }

  lemma StoredResolves(objects: Store, namespace: string, spec: BackstageSpec, got: seq<Resource>)
    requires AsStored(objects, namespace, ReadNames(spec), got)
    ensures Resolves(objects, namespace, spec, ExtOf(spec, got))
  {
    var names := ReadNames(spec);
    NamesOfParts(spec);
    StoredPart(objects, namespace, names, got, 0, RawEnd(spec));
    StoredPart(objects, namespace, names, got, RawEnd(spec), AppEnd(spec));
    StoredPart(objects, namespace, names, got, AppEnd(spec), FilesEnd(spec));
    StoredPart(objects, namespace, names, got, FilesEnd(spec), EnvsEnd(spec));
    StoredPart(objects, namespace, names, got, EnvsEnd(spec), |names|);
    UnionOfTwo(objects, namespace, BackstageRaw(spec), LocalDbRaw(spec), got[0..RawEnd(spec)]);
    ByNameStored(objects, namespace, NamesIn(RefsOf(spec, AppConfigKind)), got[RawEnd(spec)..AppEnd(spec)]);
    ByNameStored(objects, namespace, NamesIn(RefsOf(spec, ConfigMapFilesKind)), got[AppEnd(spec)..FilesEnd(spec)]);
    ByNameStored(objects, namespace, NamesIn(RefsOf(spec, ConfigMapEnvsKind)), got[FilesEnd(spec)..EnvsEnd(spec)]);
    if spec.PluginsName() != "" {
      PluginsStored(objects, namespace, spec.PluginsName(), got[EnvsEnd(spec)..]);
    }
  }

  /**
   After successful preprocessing every reference of the CR is resolved to the ConfigMap of that name, and the raw
   configuration is the union of the two raw ConfigMaps, the database's winning.
   */
  lemma PreprocessResolves(objects: Store, namespace: string, spec: BackstageSpec, faults: Faults, n: nat)
    requires ReadAll(objects, ReadKeys(namespace, spec), faults, n).ok
    ensures var got := ReadAll(objects, ReadKeys(namespace, spec), faults, n).got;
            AsStored(objects, namespace, ReadNames(spec), got) && Resolves(objects, namespace, spec, ExtOf(spec, got))
  {
    ReadsWhen(objects, ReadKeys(namespace, spec), faults, n);
    var got := ReadAll(objects, ReadKeys(namespace, spec), faults, n).got;
    forall i | 0 <= i < |got|
      ensures ConfigMapKey(namespace, ReadNames(spec)[i]) in objects
              && got[i] == objects[ConfigMapKey(namespace, ReadNames(spec)[i])]
    {
      assert ReadKeys(namespace, spec)[i] == ConfigMapKey(namespace, ReadNames(spec)[i]);
    }
    StoredResolves(objects, namespace, spec, got);
  }

  lemma NameAt(refs: seq<ObjectKeyRef>, i: nat)
    requires i < |refs|
    ensures NamesIn(refs)[i] == refs[i].name && refs[i].name in NamesIn(refs)
  {
    assert RefName(refs[i]) == refs[i].name;
    assert NamesIn(refs)[i] in NamesIn(refs);
  }

  /** Whatever ConfigMap a list of the CR brings into the pod is one the CR names and the cluster holds. */
  lemma ListedReferencesExist(objects: Store, inp: Inputs, list: Kind, i: nat, kind: ObjectKind, name: string)
    requires Resolves(objects, inp.namespace, inp.spec, inp.ext)
    requires list in {AppConfigKind, ConfigMapFilesKind, ConfigMapEnvsKind} && i < |RefsOf(inp.spec, list)|
    requires Refers(ListBlock(inp, list)[i], kind, name)
    ensures kind == ConfigMapObject && name == RefsOf(inp.spec, list)[i].name
    ensures ConfigMapKey(inp.namespace, name) in objects
  {
    NameAt(RefsOf(inp.spec, list), i);
  }

  /** What the CR has mounted, by the names it gives. */
  function MountedNames(spec: BackstageSpec): seq<string> {
    NamesIn(RefsOf(spec, AppConfigKind)) + NamesIn(RefsOf(spec, ConfigMapFilesKind))
    + NamesIn(RefsOf(spec, SecretFilesKind)) + Optional(spec.PluginsName())
  }

  lemma ListedByName(objects: Store, inp: Inputs, list: Kind)
    requires Resolves(objects, inp.namespace, inp.spec, inp.ext)
    requires list in {AppConfigKind, ConfigMapFilesKind, SecretFilesKind}
    ensures ListVolumes(inp, list) == NamesIn(RefsOf(inp.spec, list))
  {
    var refs := RefsOf(inp.spec, list);
    forall i | 0 <= i < |refs| ensures ListedName(inp, list, refs[i]) == NamesIn(refs)[i] {
      NameAt(refs, i);
    }
  }

  /**
   For a model that is built after preprocessing, the volume names of the pod are distinct exactly when the manifest's
   are, the CR's app-config, extra files and plugins name different objects, no default objects of files are both
   there, and nothing of one group has a name of another.
   */
  lemma DistinctVolumesOfCr(objects: Store, inp: Inputs, registry: seq<Kind>)
    requires Usable(inp) && Succeeds(inp) && IsPlaced(inp, DeploymentKind) && IsRegistry(registry)
    requires Resolves(objects, inp.namespace, inp.spec, inp.ext)
    ensures var given, asked := VolumeNames(ManifestPod(inp).volumes), MountedNames(inp.spec);
            Distinct(VolumeNames(LastPod(inp, registry).volumes)) <==>
              && Distinct(given) && Distinct(asked) && !BothFiles(inp)
              && Avoids(inp, given) && Avoids(inp, asked) && forall name :: name in given ==> name !in asked
  {
    ListedByName(objects, inp, AppConfigKind);
    ListedByName(objects, inp, ConfigMapFilesKind);
    ListedByName(objects, inp, SecretFilesKind);
    assert PluginsVolumes(inp) == Optional(inp.spec.PluginsName());
    DistinctVolumes(inp, registry);
  }
}
