/** What each entry of the CR's lists, and each default object, brings into the Backstage pod, field by field. */
module Entries {
  import opened Builder
  import opened FilePaths
  import opened FinalPod
  import opened Names
  import opened Objects
  import opened Pods
  import opened Seqs
  import opened Validation
  import opened Wrappers

  /** The volume of a ConfigMap or Secret: under its own name, readable, and not optional. */
  predicate IsVolumeOf(v: Volume, kind: ObjectKind, name: string) {
    v.name == name && v.source == FromObject(kind, name, 420, false)
  }

  /** One file of a volume, read-only, at its own name in the directory. */
  predicate IsFileMount(m: VolumeMount, name: string, dir: string, file: string) {
    m.name == name && m.subPath == file && m.mountPath == Join(dir, file) && m.readOnly
  }

  /** The files that a reference with this key has mounted: the one of the key if it is there, or all. */
  function FilesFor(data: map<string, string>, key: string): set<string> {
    set file | file in data && (key == "" || key == file)
  }

  /** Each of these files is mounted once, and nothing else; an object without data is mounted as a whole. */
  ghost predicate FilesMounted(ms: seq<VolumeMount>, name: string, dir: string, data: Data, key: string) {
    if data.None? then ms == [VolumeMount(name, Join(dir, name), "", true)]
    else
      var files := FilesFor(data.value, key);
      && |ms| == |files|
      && (forall i :: 0 <= i < |ms| ==> ms[i].subPath in files && IsFileMount(ms[i], name, dir, ms[i].subPath))
      && (forall i, j :: 0 <= i < j < |ms| ==> ms[i].subPath != ms[j].subPath)
  }

  /** The same files are passed with --config; an object without data passes none. */
  ghost predicate FilesPassed(paths: seq<string>, dir: string, data: Data, key: string) {
    if data.None? then paths == []
    else
      var files := FilesFor(data.value, key);
      && |paths| == |files|
      && forall path :: path in paths <==> exists file :: file in files && path == Join(dir, file)
  }

  lemma SelectedOnce(order: seq<string>, data: map<string, string>, key: string)
    requires multiset(order) == multiset(data.Keys)
    ensures var files := Selected(order, key);
            && Distinct(files) && |files| == |FilesFor(data, key)|
            && forall file :: file in files <==> file in FilesFor(data, key)
  {
    var files := Selected(order, key);
    OrderIsDistinct(order, data.Keys);
    FilterDistinct(IsSelected(key), order);
    FilterMembers(IsSelected(key), order);
    forall file ensures file in files <==> file in FilesFor(data, key) {
      assert file in order <==> file in multiset(order);
    }
    CountDistinct(files, FilesFor(data, key));
  }

  lemma {:induction false} CountDistinct<T>(s: seq<T>, elements: set<T>)
    requires Distinct(s) && forall x :: x in s <==> x in elements
    ensures |s| == |elements|
  {
    if s == [] {
      assert elements == {};
    } else {
      var init, last := s[..|s| - 1], s[|s| - 1];
      assert last !in init;
      forall x ensures x in init <==> x in elements - {last} {
        assert s == init + [last];
      }
      CountDistinct(init, elements - {last});
    }
  }

  lemma MountsByFiles(name: string, dir: string, key: string, data: Data, order: seq<string>)
    requires multiset(order) == multiset(KeysOf(data))
    ensures FilesMounted(MountsOf(name, dir, key, data, order), name, dir, data, key)
  {
    if data.Some? {
      var files, ms := Selected(order, key), MountsOf(name, dir, key, data, order);
      SelectedOnce(order, data.value, key);
      forall i | 0 <= i < |ms| ensures ms[i].subPath == files[i] && IsFileMount(ms[i], name, dir, files[i]) {
        assert ms[i] == Mounted(name, dir)(files[i]);
      }
      forall i | 0 <= i < |ms| ensures ms[i].subPath in FilesFor(data.value, key) {
        assert files[i] in files;
      }
    }
  }

  lemma PathsByFiles(dir: string, key: string, data: Data, order: seq<string>)
    requires multiset(order) == multiset(KeysOf(data))
    ensures FilesPassed(ConfigsOf(dir, key, order), dir, data, key)
  {
    var files, paths := Selected(order, key), ConfigsOf(dir, key, order);
    if data.None? {
      EmptyPermuted(order);
    } else {
      SelectedOnce(order, data.value, key);
      forall path
        ensures path in paths <==> exists file :: file in FilesFor(data.value, key) && path == Join(dir, file)
      {
        if path in paths {
          var i :| 0 <= i < |paths| && paths[i] == path;
          assert files[i] in files && path == Joined(dir)(files[i]);
        }
        if file :| file in FilesFor(data.value, key) && path == Join(dir, file) {
          var i :| 0 <= i < |files| && files[i] == file;
          assert paths[i] == Joined(dir)(file);
        }
      }
    }
  }

  /** The directory under which files are mounted: the given one, or the home of the application. */
  function DirGiven(mountPath: string): string {
    if mountPath == "" then "/opt/app-root/src" else mountPath
  }

  /** Nothing but one volume and mounts of its files. */
  ghost predicate BringsFiles(d: Delta, kind: ObjectKind, name: string, dir: string, data: Data, key: string) {
    && |d.volumes| == 1 && IsVolumeOf(d.volumes[0], kind, name)
    && FilesMounted(d.mounts, name, dir, data, key)
    && d.initMounts == [] && d.env == [] && d.envFrom == []
  }

  /** Entry i of appConfig.configMaps. */
  lemma AppConfigEntry(inp: Inputs, i: nat)
    requires ValidOrder(inp.order) && inp.spec.application.Some? && inp.spec.application.value.appConfig.Some?
    requires i < |inp.spec.application.value.appConfig.value.configMaps|
    ensures var app := inp.spec.application.value.appConfig.value;
            && |ListBlock(inp, AppConfigKind)| == |app.configMaps|
            && var d, r, cm := ListBlock(inp, AppConfigKind)[i], app.configMaps[i],
                               Lookup(inp.ext.appConfigs, app.configMaps[i].name);
               && BringsFiles(d, ConfigMapObject, cm.name, DirGiven(app.mountPath), cm.data, r.key)
               && FilesPassed(d.configs, DirGiven(app.mountPath), cm.data, r.key)
  {
    var app := inp.spec.application.value.appConfig.value;
    var cm, site := Lookup(inp.ext.appConfigs, app.configMaps[i].name), Listed(AppConfigKind, i);
    var keys := KeysOf(cm.data);
    MountsByFiles(cm.name, DirGiven(app.mountPath), app.configMaps[i].key, cm.data, inp.order(site, MountLoop, keys));
    PathsByFiles(DirGiven(app.mountPath), app.configMaps[i].key, cm.data, inp.order(site, ConfigLoop, keys));
  }

  /** Entry i of extraFiles.configMaps. */
  lemma FilesEntry(inp: Inputs, i: nat)
    requires ValidOrder(inp.order) && inp.spec.application.Some? && inp.spec.application.value.extraFiles.Some?
    requires i < |inp.spec.application.value.extraFiles.value.configMaps|
    ensures var files := inp.spec.application.value.extraFiles.value;
            && |ListBlock(inp, ConfigMapFilesKind)| == |files.configMaps|
            && var d, r, cm := ListBlock(inp, ConfigMapFilesKind)[i], files.configMaps[i],
                               Lookup(inp.ext.extraFileConfigMaps, files.configMaps[i].name);
               BringsFiles(d, ConfigMapObject, cm.name, DirGiven(files.mountPath), cm.data, r.key) && d.configs == []
  {
    var files := inp.spec.application.value.extraFiles.value;
    var cm := Lookup(inp.ext.extraFileConfigMaps, files.configMaps[i].name);
    MountsByFiles(cm.name, DirGiven(files.mountPath), files.configMaps[i].key, cm.data,
                  inp.order(Listed(ConfigMapFilesKind, i), MountLoop, KeysOf(cm.data)));
  }

  /** Entry i of extraFiles.secrets: the one file of its key. */
  lemma SecretFilesEntry(inp: Inputs, i: nat)
    requires ValidOrder(inp.order) && inp.spec.application.Some? && inp.spec.application.value.extraFiles.Some?
    requires i < |inp.spec.application.value.extraFiles.value.secrets|
    requires inp.spec.application.value.extraFiles.value.secrets[i].key != ""
    ensures var files := inp.spec.application.value.extraFiles.value;
            && |ListBlock(inp, SecretFilesKind)| == |files.secrets|
            && var d, r := ListBlock(inp, SecretFilesKind)[i], files.secrets[i];
               && |d.volumes| == 1 && IsVolumeOf(d.volumes[0], SecretObject, r.name)
               && |d.mounts| == 1 && IsFileMount(d.mounts[0], r.name, DirGiven(files.mountPath), r.key)
               && d.initMounts == [] && d.env == [] && d.envFrom == [] && d.configs == []
  {
    var files := inp.spec.application.value.extraFiles.value;
    var r, data := files.secrets[i], map[files.secrets[i].key := ""];
    var order := inp.order(Listed(SecretFilesKind, i), MountLoop, data.Keys);
    MountsByFiles(r.name, DirGiven(files.mountPath), r.key, Some(data), order);
    assert FilesFor(data, r.key) == {r.key};
  }

  /** One entry of a list of variables: the variable of its key, or all of the object. */
  predicate BringsVariables(d: Delta, kind: ObjectKind, name: string, key: string) {
    && d.volumes == [] && d.mounts == [] && d.initMounts == [] && d.configs == []
    && d.env == (if key == "" then [] else [EnvFromKey(key, kind, name, key)])
    && d.envFrom == (if key == "" then [EnvFromSource(kind, name)] else [])
  }

  /** Entry i of extraEnvs.configMaps. */
  lemma EnvsEntry(inp: Inputs, i: nat)
    requires inp.spec.application.Some? && inp.spec.application.value.extraEnvs.Some?
    requires i < |inp.spec.application.value.extraEnvs.value.configMaps|
    ensures var envs := inp.spec.application.value.extraEnvs.value;
            && |ListBlock(inp, ConfigMapEnvsKind)| == |envs.configMaps|
            && BringsVariables(ListBlock(inp, ConfigMapEnvsKind)[i], ConfigMapObject,
                               Lookup(inp.ext.extraEnvConfigMaps, envs.configMaps[i].name).name,
                               envs.configMaps[i].key)
  {
  }

  /** Entry i of extraEnvs.secrets. */
  lemma SecretEnvsEntry(inp: Inputs, i: nat)
    requires inp.spec.application.Some? && inp.spec.application.value.extraEnvs.Some?
    requires i < |inp.spec.application.value.extraEnvs.value.secrets|
    ensures var envs := inp.spec.application.value.extraEnvs.value;
            && |ListBlock(inp, SecretEnvsKind)| == |envs.secrets|
            && BringsVariables(ListBlock(inp, SecretEnvsKind)[i], SecretObject, envs.secrets[i].name,
                               envs.secrets[i].key)
  {
  }

  /** What is not in the CR brings nothing. */
  lemma NoEntries(inp: Inputs)
    ensures inp.spec.application.None? || inp.spec.application.value.appConfig.None? ==>
              ListBlock(inp, AppConfigKind) == []
    ensures inp.spec.application.None? || inp.spec.application.value.extraFiles.None? ==>
              ListBlock(inp, ConfigMapFilesKind) == [] && ListBlock(inp, SecretFilesKind) == []
    ensures inp.spec.application.None? || inp.spec.application.value.extraEnvs.None? ==>
              ListBlock(inp, ConfigMapEnvsKind) == [] && ListBlock(inp, SecretEnvsKind) == []
  {
  }

  /** The plain variables of the CR, in its order. */
  lemma PlainVariables(inp: Inputs)
    requires inp.spec.application.Some? && inp.spec.application.value.extraEnvs.Some?
    ensures var envs, env := inp.spec.application.value.extraEnvs.value.envs, EnvDelta(inp.spec).env;
            && |env| == |envs|
            && forall i :: 0 <= i < |env| ==> env[i] == EnvValue(envs[i].name, envs[i].value)
  {
    var envs, env := inp.spec.application.value.extraEnvs.value.envs, EnvDelta(inp.spec).env;
    forall i | 0 <= i < |env| ensures env[i] == EnvValue(envs[i].name, envs[i].value) {
    }
  }

  /** Default files are all the files of the object, under the home of the application. */
  lemma DefaultFiles(inp: Inputs, kind: Kind)
    requires Usable(inp) && ValidOrder(inp.order) && IsPlaced(inp, kind)
    requires kind in {ConfigMapFilesKind, SecretFilesKind}
    ensures var d, o := DefaultDelta(inp, kind), PhaseOne(inp, kind);
            && d.configs == []
            && if kind == SecretFilesKind then
                 BringsFiles(d, SecretObject, o.meta.name, DirGiven(""), o.body.stringData, "")
               else BringsFiles(d, ConfigMapObject, o.meta.name, DirGiven(""), o.body.data, "")
  {
    var o := PhaseOne(inp, kind);
    var data := if kind == SecretFilesKind then o.body.stringData else o.body.data;
    MountsByFiles(o.meta.name, DirGiven(""), "", data, inp.order(Default(kind), MountLoop, KeysOf(data)));
  }

  /** The default app-config passes them as well. */
  lemma DefaultAppConfig(inp: Inputs)
    requires Usable(inp) && ValidOrder(inp.order) && IsPlaced(inp, AppConfigKind)
    ensures var d, o := DefaultDelta(inp, AppConfigKind), PhaseOne(inp, AppConfigKind);
            && BringsFiles(d, ConfigMapObject, o.meta.name, DirGiven(""), o.body.data, "")
            && FilesPassed(d.configs, DirGiven(""), o.body.data, "")
  {
    var o, site := PhaseOne(inp, AppConfigKind), Default(AppConfigKind);
    var keys := KeysOf(o.body.data);
    MountsByFiles(o.meta.name, DirGiven(""), "", o.body.data, inp.order(site, MountLoop, keys));
    PathsByFiles(DirGiven(""), "", o.body.data, inp.order(site, ConfigLoop, keys));
  }

  /** The other default objects: all variables, plugins for the init container, or nothing. */
  lemma OtherDefaults(inp: Inputs, kind: Kind)
    requires Usable(inp) && IsPlaced(inp, kind) && kind !in {AppConfigKind, ConfigMapFilesKind, SecretFilesKind}
    ensures var d, name := DefaultDelta(inp, kind), PhaseOne(inp, kind).meta.name;
            match kind
            case ConfigMapEnvsKind => BringsVariables(d, ConfigMapObject, name, "")
            case SecretEnvsKind => BringsVariables(d, SecretObject, name, "")
            case DynamicPluginsKind => d.mounts == [] && d.env == [] && d.envFrom == [] && d.configs == []
            case _ => d == NOTHING
  {
  }

  /** Default plugins bring what the CR's own would. */
  lemma DefaultPlugins(inp: Inputs)
    requires Usable(inp) && ValidOrder(inp.order) && IsPlaced(inp, DynamicPluginsKind) && DirOfPlugins(inp).Some?
    ensures var d, o := DefaultDelta(inp, DynamicPluginsKind), PhaseOne(inp, DynamicPluginsKind);
            && |d.volumes| == 1 && IsVolumeOf(d.volumes[0], ConfigMapObject, o.meta.name)
            && FilesMounted(d.initMounts, o.meta.name, DirOfPlugins(inp).value, o.body.data, "dynamic-plugins.yaml")
  {
    var o := PhaseOne(inp, DynamicPluginsKind);
    MountsByFiles(o.meta.name, DirOfPlugins(inp).value, DYNAMIC_PLUGINS_FILE, o.body.data,
                  inp.order(Default(DynamicPluginsKind), MountLoop, KeysOf(o.body.data)));
  }

  /** Dynamic plugins bring their volume and, at the working directory of their init container, their file. */
  lemma PluginsEntry(inp: Inputs)
    requires Usable(inp) && ValidOrder(inp.order) && inp.spec.PluginsName() != "" && DirOfPlugins(inp).Some?
    ensures var d, cm := PluginsDelta(inp), inp.ext.dynamicPlugins;
            && |d.volumes| == 1 && IsVolumeOf(d.volumes[0], ConfigMapObject, cm.name)
            && FilesMounted(d.initMounts, cm.name, DirOfPlugins(inp).value, cm.data, "dynamic-plugins.yaml")
            && d.mounts == [] && d.env == [] && d.envFrom == [] && d.configs == []
  {
    var cm := inp.ext.dynamicPlugins;
    MountsByFiles(cm.name, DirOfPlugins(inp).value, DYNAMIC_PLUGINS_FILE, cm.data,
                  inp.order(Listed(DynamicPluginsKind, 0), MountLoop, KeysOf(cm.data)));
  }

  // All of it together

  function VolumesOf(d: Delta): seq<Volume> { d.volumes }
  function MountsIn(d: Delta): seq<VolumeMount> { d.mounts }
  function InitMountsIn(d: Delta): seq<VolumeMount> { d.initMounts }
  function EnvOf(d: Delta): seq<EnvVar> { d.env }
  function SourcesOf(d: Delta): seq<EnvFromSource> { d.envFrom }
  function ConfigsIn(d: Delta): seq<string> { d.configs }

  /** A sum of contributions has the pieces of each, one after the other. */
  lemma {:induction false} SumOfPieces(ds: seq<Delta>)
    ensures Sum(ds).volumes == Concat(Map(VolumesOf, ds)) && Sum(ds).mounts == Concat(Map(MountsIn, ds))
    ensures Sum(ds).initMounts == Concat(Map(InitMountsIn, ds)) && Sum(ds).env == Concat(Map(EnvOf, ds))
    ensures Sum(ds).envFrom == Concat(Map(SourcesOf, ds)) && Sum(ds).configs == Concat(Map(ConfigsIn, ds))
  {
    if ds != [] {
      var init, d := ds[..|ds| - 1], ds[|ds| - 1];
      SumOfPieces(init);
      ConcatStep(VolumesOf, ds);
      ConcatStep(MountsIn, ds);
      ConcatStep(InitMountsIn, ds);
      ConcatStep(EnvOf, ds);
      ConcatStep(SourcesOf, ds);
      ConcatStep(ConfigsIn, ds);
      PieceByPiece(d);
    }
  }

  lemma PieceByPiece(d: Delta)
    ensures VolumesOf(d) == d.volumes && MountsIn(d) == d.mounts && InitMountsIn(d) == d.initMounts
    ensures EnvOf(d) == d.env && SourcesOf(d) == d.envFrom && ConfigsIn(d) == d.configs
  {
  }

  lemma ConcatStep<T>(piece: Delta -> seq<T>, ds: seq<Delta>)
    requires ds != []
    ensures Concat(Map(piece, ds)) == Concat(Map(piece, ds[..|ds| - 1])) + piece(ds[|ds| - 1])
  {
    assert Map(piece, ds)[..|ds| - 1] == Map(piece, ds[..|ds| - 1]);
  }

  /** The arguments name each path after a --config of its own. */
  lemma {:induction false} ArgumentsAlternate(paths: seq<string>)
    ensures |ConfigArgs(paths)| == 2 * |paths|
    ensures forall i :: 0 <= i < |paths| ==>
              ConfigArgs(paths)[2 * i] == "--config" && ConfigArgs(paths)[2 * i + 1] == paths[i]
  {
    if paths != [] {
      ArgumentsAlternate(paths[..|paths| - 1]);
    }
  }

  /** Field by field, what the Backstage container has beside its manifest, and that it comes after. */
  lemma FinalContainer(inp: Inputs, registry: seq<Kind>)
    requires Usable(inp) && Ready(inp)
    ensures IsPlaced(inp, DeploymentKind) && LastPod(inp, registry).containers != []
    ensures var c, given, d := LastPod(inp, registry).containers[0], ManifestPod(inp).containers[0],
                               AllAdded(inp, registry);
            && c.env == given.env + d.env && c.envFrom == given.envFrom + d.envFrom
            && c.mounts == given.mounts + d.mounts && c.args == given.args + ConfigArgs(d.configs)
            && c.name == given.name && c.workingDir == given.workingDir && c.rest == given.rest
  {
    PodAfter(inp, registry);
  }

  lemma ListsAddUp(inp: Inputs, soFar: Delta, a: Delta, f: Delta, m: Delta, sf: Delta, se: Delta, p: Delta)
    requires a == Sum(ListBlock(inp, AppConfigKind)) && f == Sum(ListBlock(inp, ConfigMapFilesKind))
    requires m == Sum(ListBlock(inp, ConfigMapEnvsKind)) && sf == Sum(ListBlock(inp, SecretFilesKind))
    requires se == Sum(ListBlock(inp, SecretEnvsKind)) && p == PluginsDelta(inp)
    ensures var all := WithSpecLists(inp, soFar);
            && all.env == soFar.env + a.env + f.env + m.env + sf.env + se.env + p.env
            && all.envFrom == soFar.envFrom + a.envFrom + f.envFrom + m.envFrom + sf.envFrom + se.envFrom + p.envFrom
            && all.volumes == soFar.volumes + a.volumes + f.volumes + m.volumes + sf.volumes + se.volumes + p.volumes
  {
  }

  lemma VariablesOnly<T>(s: seq<T>, a: seq<T>, f: seq<T>, m: seq<T>, sf: seq<T>, se: seq<T>, p: seq<T>)
    requires a == [] && f == [] && sf == [] && p == []
    ensures s + a + f + m + sf + se + p == s + m + se
  {
  }

  lemma VolumesOnly<T>(s: seq<T>, a: seq<T>, f: seq<T>, m: seq<T>, sf: seq<T>, se: seq<T>, p: seq<T>)
    requires m == [] && se == []
    ensures s + a + f + m + sf + se + p == s + a + f + sf + p
  {
  }

  lemma ListsBringVariables(inp: Inputs, soFar: Delta)
    ensures var all := WithSpecLists(inp, soFar);
            && all.env == soFar.env + Sum(ListBlock(inp, ConfigMapEnvsKind)).env
                          + Sum(ListBlock(inp, SecretEnvsKind)).env
            && all.envFrom == soFar.envFrom + Sum(ListBlock(inp, ConfigMapEnvsKind)).envFrom
                              + Sum(ListBlock(inp, SecretEnvsKind)).envFrom
  {
    FilesBringNoVariables(inp, AppConfigKind);
    FilesBringNoVariables(inp, ConfigMapFilesKind);
    FilesBringNoVariables(inp, SecretFilesKind);
    PluginsBringNoVariables(inp);
    var a, f, m := Sum(ListBlock(inp, AppConfigKind)), Sum(ListBlock(inp, ConfigMapFilesKind)),
                   Sum(ListBlock(inp, ConfigMapEnvsKind));
    var sf, se, p := Sum(ListBlock(inp, SecretFilesKind)), Sum(ListBlock(inp, SecretEnvsKind)), PluginsDelta(inp);
    ListsAddUp(inp, soFar, a, f, m, sf, se, p);
    VariablesOnly(soFar.env, a.env, f.env, m.env, sf.env, se.env, p.env);
    VariablesOnly(soFar.envFrom, a.envFrom, f.envFrom, m.envFrom, sf.envFrom, se.envFrom, p.envFrom);
  }

  lemma PluginsBringNoVariables(inp: Inputs)
    ensures PluginsDelta(inp).env == [] && PluginsDelta(inp).envFrom == []
  {
  }

  lemma {:induction false} NoVariables(ds: seq<Delta>)
    requires forall i :: 0 <= i < |ds| ==> ds[i].env == [] && ds[i].envFrom == []
    ensures Sum(ds).env == [] && Sum(ds).envFrom == []
  {
    if ds != [] {
      NoVariables(ds[..|ds| - 1]);
    }
  }

  lemma FilesBringNoVariables(inp: Inputs, list: Kind)
    requires list in {AppConfigKind, ConfigMapFilesKind, SecretFilesKind}
    ensures Sum(ListBlock(inp, list)).env == [] && Sum(ListBlock(inp, list)).envFrom == []
  {
    NoVariables(ListBlock(inp, list));
  }

  lemma EndsBringVariables(inp: Inputs, defaults: Delta, lists: Delta)
    ensures Plus(EnvDelta(inp.spec), defaults).env == EnvDelta(inp.spec).env + defaults.env
    ensures Plus(EnvDelta(inp.spec), defaults).envFrom == defaults.envFrom
    ensures Plus(lists, DbDelta(inp)).env == lists.env
    ensures Plus(lists, DbDelta(inp)).envFrom == lists.envFrom + DbDelta(inp).envFrom
  {
  }

  /** All variables and sources that are added: plain ones, defaults, the CR's ConfigMaps and Secrets, the DB secret. */
  lemma AllVariables(inp: Inputs, registry: seq<Kind>)
    requires Usable(inp)
    ensures var d, defaults := AllAdded(inp, registry), Sum(DefaultDeltas(inp, PlacedKinds(inp, registry)));
            var m, s := Sum(ListBlock(inp, ConfigMapEnvsKind)), Sum(ListBlock(inp, SecretEnvsKind));
            && d.env == EnvDelta(inp.spec).env + defaults.env + m.env + s.env
            && d.envFrom == defaults.envFrom + m.envFrom + s.envFrom + DbDelta(inp).envFrom
  {
    var defaults := Sum(DefaultDeltas(inp, PlacedKinds(inp, registry)));
    var soFar := Plus(EnvDelta(inp.spec), defaults);
    BlocksAddUp(inp, registry);
    ListsBringVariables(inp, soFar);
    EndsBringVariables(inp, defaults, WithSpecLists(inp, soFar));
  }

  /** All volumes that are added: defaults, the CR's app-configs, ConfigMap files and Secret files, its plugins. */
  lemma AllVolumes(inp: Inputs, registry: seq<Kind>)
    requires Usable(inp)
    ensures AllAdded(inp, registry).volumes
         == Sum(DefaultDeltas(inp, PlacedKinds(inp, registry))).volumes + Sum(ListBlock(inp, AppConfigKind)).volumes
            + Sum(ListBlock(inp, ConfigMapFilesKind)).volumes + Sum(ListBlock(inp, SecretFilesKind)).volumes
            + PluginsDelta(inp).volumes
  {
    var defaults := Sum(DefaultDeltas(inp, PlacedKinds(inp, registry)));
    var soFar := Plus(EnvDelta(inp.spec), defaults);
    BlocksAddUp(inp, registry);
    ListsBringVolumes(inp, soFar);
    EndsBringNoVolumes(inp, defaults, WithSpecLists(inp, soFar));
  }

  lemma EndsBringNoVolumes(inp: Inputs, defaults: Delta, lists: Delta)
    ensures Plus(EnvDelta(inp.spec), defaults).volumes == defaults.volumes
    ensures Plus(lists, DbDelta(inp)).volumes == lists.volumes
  {
  }

  lemma {:induction false} NoVolumes(ds: seq<Delta>)
    requires forall i :: 0 <= i < |ds| ==> ds[i].volumes == []
    ensures Sum(ds).volumes == []
  {
    if ds != [] {
      NoVolumes(ds[..|ds| - 1]);
    }
  }

  lemma ListsBringVolumes(inp: Inputs, soFar: Delta)
    ensures WithSpecLists(inp, soFar).volumes
         == soFar.volumes + Sum(ListBlock(inp, AppConfigKind)).volumes + Sum(ListBlock(inp, ConfigMapFilesKind)).volumes
            + Sum(ListBlock(inp, SecretFilesKind)).volumes + PluginsDelta(inp).volumes
  {
    NoVolumes(ListBlock(inp, ConfigMapEnvsKind));
    NoVolumes(ListBlock(inp, SecretEnvsKind));
    var a, f, s := Sum(ListBlock(inp, AppConfigKind)), Sum(ListBlock(inp, ConfigMapFilesKind)),
                   Sum(ListBlock(inp, SecretFilesKind));
    var m, se, p := Sum(ListBlock(inp, ConfigMapEnvsKind)), Sum(ListBlock(inp, SecretEnvsKind)), PluginsDelta(inp);
    ListsAddUp(inp, soFar, a, f, m, s, se, p);
    VolumesOnly(soFar.volumes, a.volumes, f.volumes, m.volumes, s.volumes, se.volumes, p.volumes);
  }
}
