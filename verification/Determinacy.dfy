/** What the built model does not depend on: the order of registration, the random password, the order of map loops. */
module Determinacy {
  import opened Builder
  import opened FinalPod
  import opened Names
  import opened Objects
  import opened Pods
  import opened Seqs
  import opened Sorting
  import opened Uses
  import opened Wrappers

  lemma RegistriesPermute(r1: seq<Kind>, r2: seq<Kind>)
    requires IsRegistry(r1) && IsRegistry(r2)
    ensures multiset(r1) == multiset(r2)
  {
    forall kind: Kind ensures multiset(r1)[kind] == multiset(r2)[kind] {
      OnceIn(r1, kind);
      OnceIn(r2, kind);
      assert kind in r1 && kind in r2;
      assert kind in multiset(r1) && kind in multiset(r2);
    }
  }

  lemma BlocksPermute(inp: Inputs, r1: seq<Kind>, r2: seq<Kind>)
    requires Usable(inp) && IsRegistry(r1) && IsRegistry(r2)
    ensures multiset(Blocks(inp, r1)) == multiset(Blocks(inp, r2))
  {
    RegistriesPermute(r1, r2);
    FilterPermuted((kind: Kind) => IsPlaced(inp, kind), r1, r2);
    MapPermuted((kind: Kind) requires Usable(inp) => DefaultDelta(inp, kind),
                PlacedKinds(inp, r1), PlacedKinds(inp, r2));
  }

  lemma KindsPermute(inp: Inputs, r1: seq<Kind>, r2: seq<Kind>)
    requires IsRegistry(r1) && IsRegistry(r2)
    ensures multiset(SortedKinds(PlacedKinds(inp, r1))) == multiset(SortedKinds(PlacedKinds(inp, r2)))
  {
    RegistriesPermute(r1, r2);
    FilterPermuted((kind: Kind) => IsPlaced(inp, kind), r1, r2);
    SortedPermutes(Itself, PlacedKinds(inp, r1));
    SortedPermutes(Itself, PlacedKinds(inp, r2));
  }

  /**
   Whatever order the kinds are registered in, InitObjects succeeds alike (Succeeds does not mention the registry),
   the kinds in the model are the same, and all objects but the Deployment are identical.
   */
  lemma RegistryOrderIsIrrelevant(inp: Inputs, r1: seq<Kind>, r2: seq<Kind>)
    requires Usable(inp) && Ready(inp) && IsRegistry(r1) && IsRegistry(r2)
    ensures multiset(SortedKinds(PlacedKinds(inp, r1))) == multiset(SortedKinds(PlacedKinds(inp, r2)))
    ensures forall kind :: IsPlaced(inp, kind) && kind != DeploymentKind ==>
              PhaseTwo(inp, r1, kind) == PhaseTwo(inp, r2, kind)
  {
    KindsPermute(inp, r1, r2);
  }

  /** Only the Deployment's pod depends on that order, and what is appended to it differs in order only. */
  lemma RegistryOrderInPod(inp: Inputs, r1: seq<Kind>, r2: seq<Kind>)
    requires Usable(inp) && Ready(inp) && IsRegistry(r1) && IsRegistry(r2) && IsPlaced(inp, DeploymentKind)
    ensures PhaseTwo(inp, r2, DeploymentKind)
         == PhaseTwo(inp, r1, DeploymentKind).(pod := Some(Extended(PodOfSpec(inp), AllAdded(inp, r2))))
    ensures LastPod(inp, r1) == Extended(PodOfSpec(inp), AllAdded(inp, r1))
    ensures SamePieces(AllAdded(inp, r1), AllAdded(inp, r2))
  {
    BlocksPermute(inp, r1, r2);
    SumPermuted(Blocks(inp, r1), Blocks(inp, r2));
  }

  /** Entry i of a list of the CR, with what was read for it. */
  function EntryOf(inp: Inputs, list: Kind, i: nat): Contribution
    requires i < |RefsOf(inp.spec, list)|
  {
    ListedContribution(inp, list, RefsOf(inp.spec, list), DirOf(inp.spec, list), i)
  }

  function OwnPlugins(inp: Inputs): Contribution {
    PluginsC(inp.ext.dynamicPlugins.name, inp.ext.dynamicPlugins.data)
  }

  /** The same CR and manifests, with other ConfigMaps, another password and other loop orders. */
  ghost predicate SameManifests(a: Inputs, b: Inputs) {
    && ValidOrder(a.order) && ValidOrder(b.order)
    && b == a.(password := b.password, order := b.order, ext := b.ext)
    && forall kind :: ManifestOf(a, kind) == ManifestOf(b, kind)
  }

  /** What the CR names is used alike. */
  ghost predicate SameUses(a: Inputs, b: Inputs)
    requires a.spec == b.spec
  {
    && (forall list, i: nat :: i < |RefsOf(a.spec, list)| ==> SameUse(EntryOf(a, list, i), EntryOf(b, list, i)))
    && (a.spec.PluginsName() != "" ==> SameUse(OwnPlugins(a), OwnPlugins(b)))
  }

  /** The same CR and configuration, as far as it is used, with another password and other loop orders. */
  ghost predicate Rebuilt(a: Inputs, b: Inputs) {
    SameManifests(a, b) && SameUses(a, b)
  }

  /** What phase one reads of the inputs. */
  lemma SameManifest(a: Inputs, b: Inputs, kind: Kind)
    requires SameManifests(a, b)
    ensures ManifestOf(a, kind) == ManifestOf(b, kind) && Given(a, kind) == Given(b, kind)
    ensures (IsPlaced(a, kind) <==> IsPlaced(b, kind)) && (IsMissing(a, kind) <==> IsMissing(b, kind))
    ensures DirOfPlugins(a) == DirOfPlugins(b)
  {
    assert ManifestOf(a, DeploymentKind) == ManifestOf(b, DeploymentKind);
  }

  lemma SameUseOfItself(c: Contribution)
    ensures SameUse(c, c)
  {
  }

  lemma UsableRebuilt(a: Inputs, b: Inputs)
    requires SameManifests(a, b) && Usable(a)
    ensures Usable(b)
  {
    forall kind ensures Given(a, kind) == Given(b, kind) && (IsPlaced(a, kind) <==> IsPlaced(b, kind)) {
      SameManifest(a, b, kind);
    }
    forall kind | Given(b, kind).Some? ensures HasShape(kind, Given(b, kind).value) {
      assert Given(a, kind).Some?;
    }
    forall kind | kind in {DeploymentKind, DbStatefulSetKind} && Given(b, kind).Some?
      ensures Given(b, kind).value.pod.value.containers != [] && Given(b, kind).value.body.matchLabels.Some?
    {
      assert Given(a, kind).Some?;
    }
  }

  lemma ReadyRebuilt(a: Inputs, b: Inputs)
    requires SameManifests(a, b)
    ensures Ready(a) <==> Ready(b)
    ensures PhaseTwoFails(a) <==> PhaseTwoFails(b)
  {
    forall kind ensures IsMissing(a, kind) <==> IsMissing(b, kind) {
      SameManifest(a, b, kind);
    }
    SameManifest(a, b, DynamicPluginsKind);
    SameManifest(a, b, DeploymentKind);
  }

  lemma PhaseOneRebuilt(a: Inputs, b: Inputs, kind: Kind)
    requires SameManifests(a, b) && Usable(a) && Usable(b)
    ensures IsPlaced(a, kind) <==> IsPlaced(b, kind)
    ensures IsPlaced(a, kind) ==> PhaseOne(a, kind) == PhaseOne(b, kind)
  {
    SameManifest(a, b, kind);
  }

  function Part(c: Option<Contribution>, site: Site, order: Order, dir: Option<string>): Delta {
    if c.None? then NOTHING else DeltaOf(c.value, site, order, dir)
  }

  lemma PartReordered(c: Option<Contribution>, site: Site, o1: Order, o2: Order, dir: Option<string>)
    requires ValidOrder(o1) && ValidOrder(o2)
    ensures Reordered(Part(c, site, o1, dir), Part(c, site, o2, dir))
  {
    if c.Some? {
      SameUseOfItself(c.value);
      DeltaReordered(c.value, c.value, site, o1, o2, dir);
    }
  }

  function Brought(inp: Inputs, kind: Kind): Option<Contribution>
    requires Usable(inp)
  {
    if IsPlaced(inp, kind) then DefaultContribution(kind, PhaseOne(inp, kind)) else None
  }

  lemma DefaultPart(inp: Inputs, kind: Kind)
    requires Usable(inp)
    ensures DefaultDelta(inp, kind) == Part(Brought(inp, kind), Default(kind), inp.order, DirOfPlugins(inp))
  {
  }

  lemma DefaultReordered(a: Inputs, b: Inputs, kind: Kind)
    requires SameManifests(a, b) && Usable(a) && Usable(b)
    ensures Reordered(DefaultDelta(a, kind), DefaultDelta(b, kind))
  {
    PhaseOneRebuilt(a, b, kind);
    DefaultPart(a, kind);
    DefaultPart(b, kind);
    PartReordered(Brought(a, kind), Default(kind), a.order, b.order, DirOfPlugins(a));
  }

  /** Block by block. */
  ghost predicate AllReordered(ds: seq<Delta>, es: seq<Delta>) {
    |ds| == |es| && forall i :: 0 <= i < |ds| ==> Reordered(ds[i], es[i])
  }

  lemma BothReordered(d1: seq<Delta>, e1: seq<Delta>, d2: seq<Delta>, e2: seq<Delta>)
    requires AllReordered(d1, e1) && AllReordered(d2, e2)
    ensures AllReordered(d1 + d2, e1 + e2)
  {
  }

  lemma ListReordered(a: Inputs, b: Inputs, list: Kind)
    requires Rebuilt(a, b)
    ensures AllReordered(ListBlock(a, list), ListBlock(b, list))
  {
    var refs, dir := RefsOf(a.spec, list), DirOf(a.spec, list);
    forall i | 0 <= i < |refs| ensures Reordered(ListBlock(a, list)[i], ListBlock(b, list)[i]) {
      SameManifest(a, b, DeploymentKind);
      assert SameUse(EntryOf(a, list, i), EntryOf(b, list, i));
      DeltaReordered(EntryOf(a, list, i), EntryOf(b, list, i), Listed(list, i), a.order, b.order, DirOfPlugins(a));
    }
  }

  lemma ListsReordered(a: Inputs, b: Inputs, ds: seq<Delta>, es: seq<Delta>)
    requires Rebuilt(a, b) && AllReordered(ds, es)
    ensures AllReordered(ds + ListBlock(a, AppConfigKind) + ListBlock(a, ConfigMapFilesKind)
                         + ListBlock(a, ConfigMapEnvsKind) + ListBlock(a, SecretFilesKind)
                         + ListBlock(a, SecretEnvsKind),
                         es + ListBlock(b, AppConfigKind) + ListBlock(b, ConfigMapFilesKind)
                         + ListBlock(b, ConfigMapEnvsKind) + ListBlock(b, SecretFilesKind)
                         + ListBlock(b, SecretEnvsKind))
  {
    var ds, es := ds, es;
    ListReordered(a, b, AppConfigKind);
    BothReordered(ds, es, ListBlock(a, AppConfigKind), ListBlock(b, AppConfigKind));
    ds, es := ds + ListBlock(a, AppConfigKind), es + ListBlock(b, AppConfigKind);
    ListReordered(a, b, ConfigMapFilesKind);
    BothReordered(ds, es, ListBlock(a, ConfigMapFilesKind), ListBlock(b, ConfigMapFilesKind));
    ds, es := ds + ListBlock(a, ConfigMapFilesKind), es + ListBlock(b, ConfigMapFilesKind);
    ListReordered(a, b, ConfigMapEnvsKind);
    BothReordered(ds, es, ListBlock(a, ConfigMapEnvsKind), ListBlock(b, ConfigMapEnvsKind));
    ds, es := ds + ListBlock(a, ConfigMapEnvsKind), es + ListBlock(b, ConfigMapEnvsKind);
    ListReordered(a, b, SecretFilesKind);
    BothReordered(ds, es, ListBlock(a, SecretFilesKind), ListBlock(b, SecretFilesKind));
    ds, es := ds + ListBlock(a, SecretFilesKind), es + ListBlock(b, SecretFilesKind);
    ListReordered(a, b, SecretEnvsKind);
    BothReordered(ds, es, ListBlock(a, SecretEnvsKind), ListBlock(b, SecretEnvsKind));
  }

  lemma EndsReordered(a: Inputs, b: Inputs)
    requires Rebuilt(a, b)
    ensures AllReordered([EnvDelta(a.spec)], [EnvDelta(b.spec)])
    ensures AllReordered([PluginsDelta(a), DbDelta(a)], [PluginsDelta(b), DbDelta(b)])
  {
    if a.spec.PluginsName() != "" {
      SameManifest(a, b, DeploymentKind);
      DeltaReordered(OwnPlugins(a), OwnPlugins(b), Listed(DynamicPluginsKind, 0), a.order, b.order, DirOfPlugins(a));
    }
  }

  lemma SamePlaced(a: Inputs, b: Inputs, registry: seq<Kind>)
    requires SameManifests(a, b)
    ensures PlacedKinds(a, registry) == PlacedKinds(b, registry)
    decreases |registry|
  {
    if registry != [] {
      SamePlaced(a, b, registry[..|registry| - 1]);
      SameManifest(a, b, registry[|registry| - 1]);
    }
  }

  lemma DefaultsReordered(a: Inputs, b: Inputs, kinds: seq<Kind>)
    requires SameManifests(a, b) && Usable(a) && Usable(b)
    ensures AllReordered(DefaultDeltas(a, kinds), DefaultDeltas(b, kinds))
  {
    forall i | 0 <= i < |kinds| ensures Reordered(DefaultDeltas(a, kinds)[i], DefaultDeltas(b, kinds)[i]) {
      DefaultReordered(a, b, kinds[i]);
    }
  }

  lemma BlocksReordered(a: Inputs, b: Inputs, registry: seq<Kind>)
    requires Rebuilt(a, b) && Usable(a) && Usable(b)
    ensures AllReordered(Blocks(a, registry), Blocks(b, registry))
  {
    var kinds := PlacedKinds(a, registry);
    SamePlaced(a, b, registry);
    EndsReordered(a, b);
    DefaultsReordered(a, b, kinds);
    var d, e := DefaultDeltas(a, kinds), DefaultDeltas(b, kinds);
    BothReordered([EnvDelta(a.spec)], [EnvDelta(b.spec)], d, e);
    ListsReordered(a, b, [EnvDelta(a.spec)] + d, [EnvDelta(b.spec)] + e);
    BothReordered([EnvDelta(a.spec)] + d + ListBlock(a, AppConfigKind) + ListBlock(a, ConfigMapFilesKind)
                  + ListBlock(a, ConfigMapEnvsKind) + ListBlock(a, SecretFilesKind) + ListBlock(a, SecretEnvsKind),
                  [EnvDelta(b.spec)] + e + ListBlock(b, AppConfigKind) + ListBlock(b, ConfigMapFilesKind)
                  + ListBlock(b, ConfigMapEnvsKind) + ListBlock(b, SecretFilesKind) + ListBlock(b, SecretEnvsKind),
                  [PluginsDelta(a), DbDelta(a)], [PluginsDelta(b), DbDelta(b)]);
  }

  lemma PhaseTwoRebuilt(a: Inputs, b: Inputs, registry: seq<Kind>, kind: Kind)
    requires SameManifests(a, b) && Usable(a) && Usable(b) && Ready(a) && Ready(b) && IsPlaced(a, kind)
    ensures IsPlaced(b, kind) && PhaseTwo(a, registry, kind).meta == PhaseTwo(b, registry, kind).meta
    ensures kind !in {DeploymentKind, DbSecretKind} ==> PhaseTwo(a, registry, kind) == PhaseTwo(b, registry, kind)
  {
    PhaseOneRebuilt(a, b, kind);
    PhaseOneRebuilt(a, b, ServiceKind);
    SameManifest(a, b, DbSecretKind);
    assert !IsMissing(a, ServiceKind);
  }

  lemma DeploymentRebuilt(a: Inputs, b: Inputs, registry: seq<Kind>)
    requires SameManifests(a, b) && Usable(a) && Usable(b) && Ready(a) && Ready(b)
    ensures IsPlaced(a, DeploymentKind) && IsPlaced(b, DeploymentKind)
    ensures PhaseTwo(b, registry, DeploymentKind)
         == PhaseTwo(a, registry, DeploymentKind).(pod := Some(Extended(PodOfSpec(a), AllAdded(b, registry))))
  {
    assert !IsMissing(a, DeploymentKind);
    PhaseOneRebuilt(a, b, DeploymentKind);
  }

  /**
   Building again for the same CR, configuration and cluster, with a fresh password and fresh loop orders: it succeeds
   alike and gives the same kinds in the same order; only the DB secret's data and, inside the Deployment's pod, the
   order of the files within each block may differ.
   */
  lemma RebuildChangesLittle(a: Inputs, b: Inputs, registry: seq<Kind>)
    requires Rebuilt(a, b) && Usable(a) && Ready(a)
    ensures Usable(b) && Ready(b) && (Succeeds(a) <==> Succeeds(b))
    ensures SortedKinds(PlacedKinds(a, registry)) == SortedKinds(PlacedKinds(b, registry))
    ensures forall kind :: IsPlaced(a, kind) ==>
              IsPlaced(b, kind) && PhaseTwo(a, registry, kind).meta == PhaseTwo(b, registry, kind).meta
    ensures forall kind :: IsPlaced(a, kind) && kind !in {DeploymentKind, DbSecretKind} ==>
              PhaseTwo(a, registry, kind) == PhaseTwo(b, registry, kind)
    ensures IsPlaced(a, DeploymentKind) && AllReordered(Blocks(a, registry), Blocks(b, registry))
    ensures PhaseTwo(b, registry, DeploymentKind)
         == PhaseTwo(a, registry, DeploymentKind).(pod := Some(Extended(PodOfSpec(a), AllAdded(b, registry))))
  {
    UsableRebuilt(a, b);
    ReadyRebuilt(a, b);
    forall kind | IsPlaced(a, kind)
      ensures IsPlaced(b, kind) && PhaseTwo(a, registry, kind).meta == PhaseTwo(b, registry, kind).meta
      ensures kind !in {DeploymentKind, DbSecretKind} ==> PhaseTwo(a, registry, kind) == PhaseTwo(b, registry, kind)
    {
      PhaseTwoRebuilt(a, b, registry, kind);
    }
    SamePlaced(a, b, registry);
    DeploymentRebuilt(a, b, registry);
    BlocksReordered(a, b, registry);
  }

  /** The same loop orders as well: only the password is new. */
  ghost predicate Repeated(a: Inputs, b: Inputs) {
    Rebuilt(a, b) && a.order == b.order
  }

  lemma DefaultsRepeated(a: Inputs, b: Inputs, kinds: seq<Kind>)
    requires SameManifests(a, b) && a.order == b.order && Usable(a) && Usable(b)
    ensures DefaultDeltas(a, kinds) == DefaultDeltas(b, kinds)
  {
    forall i | 0 <= i < |kinds| ensures DefaultDelta(a, kinds[i]) == DefaultDelta(b, kinds[i]) {
      PhaseOneRebuilt(a, b, kinds[i]);
    }
  }

  lemma ListRepeated(a: Inputs, b: Inputs, list: Kind)
    requires Repeated(a, b)
    ensures ListBlock(a, list) == ListBlock(b, list)
  {
    SameManifest(a, b, DeploymentKind);
    forall i | 0 <= i < |RefsOf(a.spec, list)| ensures ListBlock(a, list)[i] == ListBlock(b, list)[i] {
      assert SameUse(EntryOf(a, list, i), EntryOf(b, list, i));
      DeltaRepeated(EntryOf(a, list, i), EntryOf(b, list, i), Listed(list, i), a.order, DirOfPlugins(a));
    }
  }

  lemma EndsRepeated(a: Inputs, b: Inputs)
    requires Repeated(a, b)
    ensures PluginsDelta(a) == PluginsDelta(b) && DbDelta(a) == DbDelta(b)
  {
    SameManifest(a, b, DeploymentKind);
    SameManifest(a, b, DbSecretKind);
    if a.spec.PluginsName() != "" {
      DeltaRepeated(OwnPlugins(a), OwnPlugins(b), Listed(DynamicPluginsKind, 0), a.order, DirOfPlugins(a));
    }
  }

  lemma BlocksRepeated(a: Inputs, b: Inputs, registry: seq<Kind>)
    requires Repeated(a, b) && Usable(a) && Usable(b)
    ensures Blocks(a, registry) == Blocks(b, registry)
  {
    SamePlaced(a, b, registry);
    DefaultsRepeated(a, b, PlacedKinds(a, registry));
    ListRepeated(a, b, AppConfigKind);
    ListRepeated(a, b, ConfigMapFilesKind);
    ListRepeated(a, b, ConfigMapEnvsKind);
    ListRepeated(a, b, SecretFilesKind);
    ListRepeated(a, b, SecretEnvsKind);
    EndsRepeated(a, b);
  }

  /** The password reaches the DB secret and nothing else. */
  lemma PasswordStaysInSecret(a: Inputs, b: Inputs, registry: seq<Kind>, kind: Kind)
    requires Repeated(a, b) && Usable(a) && Ready(a) && IsPlaced(a, kind) && kind != DbSecretKind
    ensures Usable(b) && Ready(b) && IsPlaced(b, kind)
    ensures PhaseTwo(a, registry, kind) == PhaseTwo(b, registry, kind)
  {
    RebuildChangesLittle(a, b, registry);
    BlocksRepeated(a, b, registry);
  }
}
