/** What the builder is given of the ConfigMaps that a CR names, by the stores that they are read from. */
module Sources {
  import opened BackstageApi
  import opened Builder
  import opened Determinacy
  import opened Machine
  import opened Marshalling
  import opened Names
  import opened Objects
  import opened Pods
  import opened Preprocessing
  import opened Uses
  import opened Wrappers

  function DataAt(objects: Store, namespace: string, name: string): Data {
    var key := ConfigMapKey(namespace, name);
    if key in objects then DataOf(objects[key]) else None
  }

  /** The ConfigMaps whose files the CR has mounted, and which files: the given key's, or all. */
  function FileRefs(spec: BackstageSpec): seq<ObjectKeyRef> {
    RefsOf(spec, AppConfigKind) + RefsOf(spec, ConfigMapFilesKind) + PluginRefs(spec)
  }

  function PluginRefs(spec: BackstageSpec): seq<ObjectKeyRef> {
    if spec.PluginsName() == "" then [] else [ObjectKeyRef(spec.PluginsName(), DYNAMIC_PLUGINS_FILE)]
  }

  /** The CR's raw configuration. */
  function RawNames(spec: BackstageSpec): seq<string> { Optional(BackstageRaw(spec)) + Optional(LocalDbRaw(spec)) }

  /** What raw configuration says of one kind. */
  function Overlay(data: Data, kind: Kind): Option<string> {
    if ConfigFile(kind) in DataMap(data) then Some(DataMap(data)[ConfigFile(kind)]) else None
  }

  ghost predicate SameRaw(d1: Data, d2: Data) {
    forall kind :: Overlay(d1, kind) == Overlay(d2, kind)
  }

  /** Two stores hold the same raw configuration, as far as there are manifests for it. */
  ghost predicate RawAlike(a: Store, b: Store, namespace: string, spec: BackstageSpec) {
    forall name :: name in RawNames(spec) ==> SameRaw(DataAt(a, namespace, name), DataAt(b, namespace, name))
  }

  /** In two stores the CR's references select the same files. */
  ghost predicate FilesAlike(a: Store, b: Store, namespace: string, spec: BackstageSpec) {
    forall r :: r in FileRefs(spec) ==>
      UseOf(DataAt(a, namespace, r.name), r.key) == UseOf(DataAt(b, namespace, r.name), r.key)
  }

  /** The inputs of two runs for one CR, each with what its store holds. */
  ghost predicate ReadFrom(a: Inputs, b: Inputs, was: Store, now: Store) {
    && ValidOrder(a.order) && ValidOrder(b.order)
    && b == a.(password := b.password, order := b.order, ext := b.ext)
    && Resolves(was, a.namespace, a.spec, a.ext) && Resolves(now, a.namespace, a.spec, b.ext)
  }

  lemma RawOverlay(objects: Store, namespace: string, name: string, kind: Kind)
    ensures var raw := RawData(objects, namespace, name);
            Overlay(Some(raw), kind) == if name == "" then None else Overlay(DataAt(objects, namespace, name), kind)
  {
  }

  lemma OverlayOfBoth(m1: map<string, string>, m2: map<string, string>, kind: Kind)
    ensures Overlay(Some(m1 + m2), kind)
         == if Overlay(Some(m2), kind).Some? then Overlay(Some(m2), kind) else Overlay(Some(m1), kind)
  {
  }

  lemma RawNamed(spec: BackstageSpec)
    ensures BackstageRaw(spec) != "" ==> BackstageRaw(spec) in RawNames(spec)
    ensures LocalDbRaw(spec) != "" ==> LocalDbRaw(spec) in RawNames(spec)
  {
  }

  lemma ManifestAlike(a: Inputs, b: Inputs, was: Store, now: Store, kind: Kind)
    requires ReadFrom(a, b, was, now) && RawAlike(was, now, a.namespace, a.spec)
    ensures ManifestOf(a, kind) == ManifestOf(b, kind)
  {
    var ns, first, second := a.namespace, BackstageRaw(a.spec), LocalDbRaw(a.spec);
    RawNamed(a.spec);
    RawOverlay(was, ns, first, kind);
    RawOverlay(was, ns, second, kind);
    RawOverlay(now, ns, first, kind);
    RawOverlay(now, ns, second, kind);
    OverlayOfBoth(RawData(was, ns, first), RawData(was, ns, second), kind);
    OverlayOfBoth(RawData(now, ns, first), RawData(now, ns, second), kind);
    assert first != "" ==> SameRaw(DataAt(was, ns, first), DataAt(now, ns, first));
    assert second != "" ==> SameRaw(DataAt(was, ns, second), DataAt(now, ns, second));
    assert Overlay(Some(a.ext.rawConfig), kind) == Overlay(Some(b.ext.rawConfig), kind);
  }

  /** With the same raw configuration the manifests are the same, whatever else has changed. */
  lemma ManifestsAlike(a: Inputs, b: Inputs, was: Store, now: Store)
    requires ReadFrom(a, b, was, now) && RawAlike(was, now, a.namespace, a.spec)
    ensures SameManifests(a, b)
  {
    forall kind ensures ManifestOf(a, kind) == ManifestOf(b, kind) {
      ManifestAlike(a, b, was, now, kind);
    }
  }

  /** A list's entry of a ConfigMap has the data that the store holds under its name. */
  lemma ListedData(cms: ConfigMapsByName, objects: Store, namespace: string, refs: seq<ObjectKeyRef>, i: nat)
    requires i < |refs| && ListResolved(objects, namespace, NamesIn(refs), cms)
    ensures Lookup(cms, refs[i].name) == ConfigMapV(refs[i].name, DataAt(objects, namespace, refs[i].name))
  {
    assert NamesIn(refs)[i] == refs[i].name by {
      NameAt(refs, i);
    }
    assert refs[i].name in NamesIn(refs);
  }

  lemma EntryFromStore(inp: Inputs, objects: Store, list: Kind, i: nat)
    requires Resolves(objects, inp.namespace, inp.spec, inp.ext) && i < |RefsOf(inp.spec, list)|
    requires list in {AppConfigKind, ConfigMapFilesKind}
    ensures var r, dir := RefsOf(inp.spec, list)[i], DirOf(inp.spec, list);
            var data := DataAt(objects, inp.namespace, r.name);
            EntryOf(inp, list, i) == if list == AppConfigKind then AppConfigC(r.name, data, dir, r.key)
                                     else FilesC(ConfigMapObject, r.name, data, dir, r.key)
  {
    var cms := if list == AppConfigKind then inp.ext.appConfigs else inp.ext.extraFileConfigMaps;
    ListedData(cms, objects, inp.namespace, RefsOf(inp.spec, list), i);
  }

  lemma EnvEntryFromStore(inp: Inputs, objects: Store, i: nat)
    requires Resolves(objects, inp.namespace, inp.spec, inp.ext) && i < |RefsOf(inp.spec, ConfigMapEnvsKind)|
    ensures var r := RefsOf(inp.spec, ConfigMapEnvsKind)[i];
            EntryOf(inp, ConfigMapEnvsKind, i) == EnvsC(ConfigMapObject, r.name, r.key)
  {
    ListedData(inp.ext.extraEnvConfigMaps, objects, inp.namespace, RefsOf(inp.spec, ConfigMapEnvsKind), i);
  }

  lemma PluginsFromStore(inp: Inputs, objects: Store)
    requires Resolves(objects, inp.namespace, inp.spec, inp.ext) && inp.spec.PluginsName() != ""
    ensures OwnPlugins(inp) == PluginsC(inp.spec.PluginsName(), DataAt(objects, inp.namespace, inp.spec.PluginsName()))
  {
  }

  lemma RefIsFileRef(spec: BackstageSpec, list: Kind, i: nat)
    requires list in {AppConfigKind, ConfigMapFilesKind} && i < |RefsOf(spec, list)|
    ensures RefsOf(spec, list)[i] in FileRefs(spec)
  {
    assert RefsOf(spec, list)[i] in RefsOf(spec, list);
  }

  lemma EntryAlike(a: Inputs, b: Inputs, was: Store, now: Store, list: Kind, i: nat)
    requires ReadFrom(a, b, was, now) && FilesAlike(was, now, a.namespace, a.spec) && i < |RefsOf(a.spec, list)|
    ensures SameUse(EntryOf(a, list, i), EntryOf(b, list, i))
  {
    if list in {AppConfigKind, ConfigMapFilesKind} {
      EntryFromStore(a, was, list, i);
      EntryFromStore(b, now, list, i);
      RefIsFileRef(a.spec, list, i);
    } else if list == ConfigMapEnvsKind {
      EnvEntryFromStore(a, was, i);
      EnvEntryFromStore(b, now, i);
    } else {
      SameUseOfItself(EntryOf(a, list, i));
    }
  }

  lemma PluginsAlike(a: Inputs, b: Inputs, was: Store, now: Store)
    requires ReadFrom(a, b, was, now) && FilesAlike(was, now, a.namespace, a.spec) && a.spec.PluginsName() != ""
    ensures SameUse(OwnPlugins(a), OwnPlugins(b))
  {
    PluginsFromStore(a, was);
    PluginsFromStore(b, now);
    assert PluginRefs(a.spec)[0] in FileRefs(a.spec);
  }

  /** Stores that are alike for what the CR uses give inputs that are used alike. */
  lemma InputsAlike(a: Inputs, b: Inputs, was: Store, now: Store)
    requires ReadFrom(a, b, was, now)
    requires RawAlike(was, now, a.namespace, a.spec) && FilesAlike(was, now, a.namespace, a.spec)
    ensures Rebuilt(a, b)
  {
    ManifestsAlike(a, b, was, now);
    forall list, i: nat | i < |RefsOf(a.spec, list)| ensures SameUse(EntryOf(a, list, i), EntryOf(b, list, i)) {
      EntryAlike(a, b, was, now, list, i);
    }
    if a.spec.PluginsName() != "" {
      PluginsAlike(a, b, was, now);
    }
  }
}
