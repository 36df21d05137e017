/** What preprocessing makes of each field of a CR that names a ConfigMap. */
module ReadFields {
  import opened BackstageApi
  import opened Builder
  import opened Machine
  import opened Marshalling
  import opened MergePatch
  import opened Names
  import opened Objects
  import opened Preprocessing
  import opened Programs
  import opened Resources
  import opened Wrappers

  /** This name is empty, or that of a ConfigMap in the cluster. */
  predicate EmptyOrThere(objects: Store, namespace: string, name: string) {
    name != "" ==> Key(ConfigMaps, namespace, name) in objects
  }

  ghost predicate AllNamedThere(objects: Store, namespace: string, refs: seq<ObjectKeyRef>) {
    forall i :: 0 <= i < |refs| ==> Key(ConfigMaps, namespace, refs[i].name) in objects
  }

  /** Every ConfigMap that some field of the CR names is in the cluster. */
  ghost predicate AllFieldsThere(objects: Store, namespace: string, spec: BackstageSpec) {
    && (spec.rawRuntimeConfig.Some? ==>
          && EmptyOrThere(objects, namespace, spec.rawRuntimeConfig.value.backstageConfigName)
          && EmptyOrThere(objects, namespace, spec.rawRuntimeConfig.value.localDbConfigName))
    && (spec.application.Some? ==>
          var app := spec.application.value;
          && (app.appConfig.Some? ==> AllNamedThere(objects, namespace, app.appConfig.value.configMaps))
          && (app.extraFiles.Some? ==> AllNamedThere(objects, namespace, app.extraFiles.value.configMaps))
          && (app.extraEnvs.Some? ==> AllNamedThere(objects, namespace, app.extraEnvs.value.configMaps))
          && EmptyOrThere(objects, namespace, app.dynamicPluginsConfigMapName))
  }

  lemma OptionalThere(objects: Store, namespace: string, name: string)
    ensures NamesThere(objects, namespace, Optional(name)) <==> EmptyOrThere(objects, namespace, name)
  {
    if name != "" {
      assert Optional(name)[0] == name && name in Optional(name);
      assert ConfigMapKey(namespace, name) == Key(ConfigMaps, namespace, name);
    }
  }

  lemma ListThere(objects: Store, namespace: string, refs: seq<ObjectKeyRef>)
    ensures (forall n :: n in NamesIn(refs) ==> ConfigMapKey(namespace, n) in objects) <==>
              AllNamedThere(objects, namespace, refs)
  {
    forall i | 0 <= i < |refs| ensures NamesIn(refs)[i] == refs[i].name {
      NameAt(refs, i);
    }
    if forall n :: n in NamesIn(refs) ==> ConfigMapKey(namespace, n) in objects {
      forall i | 0 <= i < |refs| ensures Key(ConfigMaps, namespace, refs[i].name) in objects {
        assert NamesIn(refs)[i] in NamesIn(refs);
      }
    }
  }

  ghost predicate NamesThere(objects: Store, namespace: string, names: seq<string>) {
    forall n :: n in names ==> ConfigMapKey(namespace, n) in objects
  }

  lemma NamesThereOfBoth(objects: Store, namespace: string, a: seq<string>, b: seq<string>)
    ensures NamesThere(objects, namespace, a + b) <==>
              NamesThere(objects, namespace, a) && NamesThere(objects, namespace, b)
  {
    if NamesThere(objects, namespace, a + b) {
      forall n | n in a || n in b ensures ConfigMapKey(namespace, n) in objects {
        assert n in a + b;
      }
    }
  }

  lemma AvailableByFields(objects: Store, namespace: string, spec: BackstageSpec)
    ensures Available(objects, namespace, spec) <==> AllFieldsThere(objects, namespace, spec)
  {
    var raw, db := Optional(BackstageRaw(spec)), Optional(LocalDbRaw(spec));
    var a, f, e := NamesIn(RefsOf(spec, AppConfigKind)), NamesIn(RefsOf(spec, ConfigMapFilesKind)),
                   NamesIn(RefsOf(spec, ConfigMapEnvsKind));
    assert Available(objects, namespace, spec) <==> NamesThere(objects, namespace, ReadNames(spec));
    NamesThereOfBoth(objects, namespace, raw, db);
    NamesThereOfBoth(objects, namespace, raw + db, a);
    NamesThereOfBoth(objects, namespace, raw + db + a, f);
    NamesThereOfBoth(objects, namespace, raw + db + a + f, e);
    NamesThereOfBoth(objects, namespace, raw + db + a + f + e, Optional(spec.PluginsName()));
    OptionalThere(objects, namespace, BackstageRaw(spec));
    OptionalThere(objects, namespace, LocalDbRaw(spec));
    OptionalThere(objects, namespace, spec.PluginsName());
    ListThere(objects, namespace, RefsOf(spec, AppConfigKind));
    ListThere(objects, namespace, RefsOf(spec, ConfigMapFilesKind));
    ListThere(objects, namespace, RefsOf(spec, ConfigMapEnvsKind));
  }

  /** Preprocessing succeeds exactly when every ConfigMap that a field names is there and no call fails. */
  lemma ReadsByFields(objects: Store, namespace: string, spec: BackstageSpec, faults: Faults, n: nat)
    ensures var r := ReadAll(objects, ReadKeys(namespace, spec), faults, n);
            r.ok <==> AllFieldsThere(objects, namespace, spec) && Calm(faults, n, r.calls)
  {
    PreprocessWhen(objects, namespace, spec, faults, n);
    AvailableByFields(objects, namespace, spec);
  }

  /** What a ConfigMap in the cluster says under a file name; nothing if the name is empty. */
  function FileIn(objects: Store, namespace: string, name: string, file: string): Option<string> {
    var key := Key(ConfigMaps, namespace, name);
    if name == "" || key !in objects then None
    else
      var data := StringsOf(Get(objects[key].fields, "data"));
      if file in data then Some(data[file]) else None
  }

  /** The names in the CR's raw configuration. */
  function RawField(spec: BackstageSpec): (r: (string, string))
    ensures spec.rawRuntimeConfig.Some? ==>
              r == (spec.rawRuntimeConfig.value.backstageConfigName, spec.rawRuntimeConfig.value.localDbConfigName)
    ensures spec.rawRuntimeConfig.None? ==> r == ("", "")
  {
    (BackstageRaw(spec), LocalDbRaw(spec))
  }

  lemma RawFile(objects: Store, namespace: string, name: string, file: string)
    ensures var raw := RawData(objects, namespace, name);
            FileIn(objects, namespace, name, file) == if file in raw then Some(raw[file]) else None
  {
  }

  /**
   Raw configuration, file by file: that of the ConfigMap named for the local database, else that of the one named for
   Backstage, else nothing.
   */
  lemma RawByFields(objects: Store, namespace: string, spec: BackstageSpec, ext: ExternalConfig, file: string)
    requires Resolves(objects, namespace, spec, ext)
    ensures var (first, second) := RawField(spec);
            var db := FileIn(objects, namespace, second, file);
            var backstage := FileIn(objects, namespace, first, file);
            (if file in ext.rawConfig then Some(ext.rawConfig[file]) else None) == if db.Some? then db else backstage
  {
    var (first, second) := RawField(spec);
    RawFile(objects, namespace, first, file);
    RawFile(objects, namespace, second, file);
  }

  /** What is resolved for each entry of a list: the ConfigMap of its name, as it is in the cluster. */
  ghost predicate EntriesResolved(objects: Store, namespace: string, refs: seq<ObjectKeyRef>,
                                  cms: map<string, ConfigMapV>) {
    forall i :: 0 <= i < |refs| ==>
      var key := Key(ConfigMaps, namespace, refs[i].name);
      && key in objects && refs[i].name in cms
      && cms[refs[i].name] == ConfigMapV(refs[i].name, DataOf(objects[key]))
  }

  lemma EntriesAreResolved(objects: Store, namespace: string, refs: seq<ObjectKeyRef>, cms: ConfigMapsByName)
    requires ListResolved(objects, namespace, NamesIn(refs), cms)
    ensures EntriesResolved(objects, namespace, refs, cms)
  {
    forall i | 0 <= i < |refs| ensures refs[i].name in NamesIn(refs) {
      NameAt(refs, i);
      assert NamesIn(refs)[i] in NamesIn(refs);
    }
  }

  /** The three lists and the plugins, by the CR's fields. */
  lemma ListsByFields(objects: Store, namespace: string, spec: BackstageSpec, ext: ExternalConfig)
    requires Resolves(objects, namespace, spec, ext) && spec.application.Some?
    ensures var app := spec.application.value;
            && (app.appConfig.Some? ==>
                  EntriesResolved(objects, namespace, app.appConfig.value.configMaps, ext.appConfigs))
            && (app.extraFiles.Some? ==>
                  EntriesResolved(objects, namespace, app.extraFiles.value.configMaps, ext.extraFileConfigMaps))
            && (app.extraEnvs.Some? ==>
                  EntriesResolved(objects, namespace, app.extraEnvs.value.configMaps, ext.extraEnvConfigMaps))
            && (app.dynamicPluginsConfigMapName != "" ==>
                  var key := Key(ConfigMaps, namespace, app.dynamicPluginsConfigMapName);
                  && key in objects
                  && ext.dynamicPlugins == ConfigMapV(app.dynamicPluginsConfigMapName, DataOf(objects[key])))
  {
    EntriesAreResolved(objects, namespace, RefsOf(spec, AppConfigKind), ext.appConfigs);
    EntriesAreResolved(objects, namespace, RefsOf(spec, ConfigMapFilesKind), ext.extraFileConfigMaps);
    EntriesAreResolved(objects, namespace, RefsOf(spec, ConfigMapEnvsKind), ext.extraEnvConfigMaps);
  }
}
