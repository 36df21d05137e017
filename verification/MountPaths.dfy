/** When the mount paths of the Backstage container are distinct. */
module MountPaths {
  import opened Builder
  import opened FilePaths
  import opened FinalPod
  import opened Names
  import opened Objects
  import opened Pods
  import opened Seqs
  import opened Wrappers

  /** A file that a contributor asks to be mounted, and the directory it asks for. */
  datatype Selection = Selection(dir: string, file: string)

  function PathFor(s: Selection): string { Join(s.dir, s.file) }

  function Cleaned(s: Selection): Selection { Selection(Clean(s.dir), s.file) }

  function InDir(dir: string): string -> Selection {
    (file: string) => Selection(dir, file)
  }

  /** Without data the whole object is mounted under its own name. */
  function FilesSelected(name: string, data: Data, dir: string, key: string, order: seq<string>): seq<Selection> {
    if data.None? then [Selection(dir, name)] else Map(InDir(dir), Selected(order, key))
  }

  function SelectionsOf(c: Contribution, site: Site, order: Order): seq<Selection> {
    match c
    case AppConfigC(name, data, dir, key) =>
      FilesSelected(name, data, dir, key, order(site, MountLoop, KeysOf(data)))
    case FilesC(_, name, data, dir, key) =>
      FilesSelected(name, data, dir, key, order(site, MountLoop, KeysOf(data)))
    case _ => []
  }

  function DefaultSelections(inp: Inputs, kind: Kind): seq<Selection>
    requires Usable(inp)
  {
    if !IsPlaced(inp, kind) then [] else
      var c := DefaultContribution(kind, PhaseOne(inp, kind));
      if c.None? then [] else SelectionsOf(c.value, Default(kind), inp.order)
  }

  function ListSelections(inp: Inputs, list: Kind): seq<seq<Selection>> {
    var refs, dir := RefsOf(inp.spec, list), DirOf(inp.spec, list);
    seq(|refs|, i requires 0 <= i < |refs| =>
      SelectionsOf(ListedContribution(inp, list, refs, dir, i), Listed(list, i), inp.order))
  }

  /** The selections of each of the Blocks, in the same order. */
  function BlockSelections(inp: Inputs, registry: seq<Kind>): seq<seq<Selection>>
    requires Usable(inp)
  {
    [[]] + Map((kind: Kind) requires Usable(inp) => DefaultSelections(inp, kind), PlacedKinds(inp, registry))
    + ListSelections(inp, AppConfigKind) + ListSelections(inp, ConfigMapFilesKind)
    + ListSelections(inp, ConfigMapEnvsKind)
    + ListSelections(inp, SecretFilesKind) + ListSelections(inp, SecretEnvsKind) + [[], []]
  }

  /** Everything the default objects and the CR ask to be mounted into the Backstage container. */
  function AllSelections(inp: Inputs, registry: seq<Kind>): seq<Selection>
    requires Usable(inp)
  {
    Concat(BlockSelections(inp, registry))
  }

  function Paths(ms: seq<VolumeMount>): seq<string> { Map(PathOf, ms) }

  /** The mounts of a delta are those of its selections. */
  ghost predicate Mounts(d: Delta, ss: seq<Selection>) {
    Paths(d.mounts) == Map(PathFor, ss)
  }

  lemma FilesMount(name: string, data: Data, dir: string, key: string, order: seq<string>)
    ensures Paths(MountsOf(name, dir, key, data, order)) == Map(PathFor, FilesSelected(name, data, dir, key, order))
  {
    var mounts, asked := MountsOf(name, dir, key, data, order), FilesSelected(name, data, dir, key, order);
    assert |mounts| == |asked|;
    forall i | 0 <= i < |mounts| ensures PathOf(mounts[i]) == PathFor(asked[i]) {}
  }

  lemma ContributionMounts(c: Contribution, site: Site, order: Order, dir: Option<string>)
    ensures Mounts(DeltaOf(c, site, order, dir), SelectionsOf(c, site, order))
  {
    match c
    case AppConfigC(name, data, mountPath, key) =>
      FilesMount(name, data, mountPath, key, order(site, MountLoop, KeysOf(data)));
    case FilesC(_, name, data, mountPath, key) =>
      FilesMount(name, data, mountPath, key, order(site, MountLoop, KeysOf(data)));
    case _ =>
      assert Paths([]) == Map(PathFor, []);
  }

  lemma DefaultMounts(inp: Inputs, kind: Kind)
    requires Usable(inp)
    ensures Mounts(DefaultDelta(inp, kind), DefaultSelections(inp, kind))
  {
    if IsPlaced(inp, kind) && DefaultContribution(kind, PhaseOne(inp, kind)).Some? {
      ContributionMounts(DefaultContribution(kind, PhaseOne(inp, kind)).value, Default(kind), inp.order,
                         DirOfPlugins(inp));
    }
  }

  /** Block by block. */
  ghost predicate AllMount(ds: seq<Delta>, sss: seq<seq<Selection>>) {
    |ds| == |sss| && forall i :: 0 <= i < |ds| ==> Mounts(ds[i], sss[i])
  }

  lemma BothMount(ds: seq<Delta>, sss: seq<seq<Selection>>, es: seq<Delta>, ttt: seq<seq<Selection>>)
    requires AllMount(ds, sss) && AllMount(es, ttt)
    ensures AllMount(ds + es, sss + ttt)
  {
  }

  lemma ListMounts(inp: Inputs, list: Kind)
    ensures AllMount(ListBlock(inp, list), ListSelections(inp, list))
  {
    var refs, dir := RefsOf(inp.spec, list), DirOf(inp.spec, list);
    forall i | 0 <= i < |refs| ensures Mounts(ListBlock(inp, list)[i], ListSelections(inp, list)[i]) {
      ContributionMounts(ListedContribution(inp, list, refs, dir, i), Listed(list, i), inp.order, DirOfPlugins(inp));
    }
  }

  lemma DefaultsMount(inp: Inputs, kinds: seq<Kind>)
    requires Usable(inp)
    ensures AllMount(DefaultDeltas(inp, kinds),
                     Map((kind: Kind) requires Usable(inp) => DefaultSelections(inp, kind), kinds))
  {
    forall i | 0 <= i < |kinds| ensures Mounts(DefaultDeltas(inp, kinds)[i], DefaultSelections(inp, kinds[i])) {
      DefaultMounts(inp, kinds[i]);
    }
  }

  /** The blocks of the five lists. */
  lemma ListsMount(inp: Inputs, ds: seq<Delta>, sss: seq<seq<Selection>>)
    requires AllMount(ds, sss)
    ensures AllMount(ds + ListBlock(inp, AppConfigKind) + ListBlock(inp, ConfigMapFilesKind)
                     + ListBlock(inp, ConfigMapEnvsKind) + ListBlock(inp, SecretFilesKind)
                     + ListBlock(inp, SecretEnvsKind),
                     sss + ListSelections(inp, AppConfigKind) + ListSelections(inp, ConfigMapFilesKind)
                     + ListSelections(inp, ConfigMapEnvsKind) + ListSelections(inp, SecretFilesKind)
                     + ListSelections(inp, SecretEnvsKind))
  {
    var ds, sss := ds, sss;
    ListMounts(inp, AppConfigKind);
    BothMount(ds, sss, ListBlock(inp, AppConfigKind), ListSelections(inp, AppConfigKind));
    ds, sss := ds + ListBlock(inp, AppConfigKind), sss + ListSelections(inp, AppConfigKind);
    ListMounts(inp, ConfigMapFilesKind);
    BothMount(ds, sss, ListBlock(inp, ConfigMapFilesKind), ListSelections(inp, ConfigMapFilesKind));
    ds, sss := ds + ListBlock(inp, ConfigMapFilesKind), sss + ListSelections(inp, ConfigMapFilesKind);
    ListMounts(inp, ConfigMapEnvsKind);
    BothMount(ds, sss, ListBlock(inp, ConfigMapEnvsKind), ListSelections(inp, ConfigMapEnvsKind));
    ds, sss := ds + ListBlock(inp, ConfigMapEnvsKind), sss + ListSelections(inp, ConfigMapEnvsKind);
    ListMounts(inp, SecretFilesKind);
    BothMount(ds, sss, ListBlock(inp, SecretFilesKind), ListSelections(inp, SecretFilesKind));
    ds, sss := ds + ListBlock(inp, SecretFilesKind), sss + ListSelections(inp, SecretFilesKind);
    ListMounts(inp, SecretEnvsKind);
    BothMount(ds, sss, ListBlock(inp, SecretEnvsKind), ListSelections(inp, SecretEnvsKind));
  }

  lemma EndsMount(inp: Inputs)
    ensures AllMount([EnvDelta(inp.spec)], [[]])
    ensures AllMount([PluginsDelta(inp), DbDelta(inp)], [[], []])
  {
    assert EnvDelta(inp.spec).mounts == [] && PluginsDelta(inp).mounts == [] && DbDelta(inp).mounts == [];
    assert Paths([]) == Map(PathFor, []);
  }

  lemma BlocksMount(inp: Inputs, registry: seq<Kind>)
    requires Usable(inp)
    ensures AllMount(Blocks(inp, registry), BlockSelections(inp, registry))
  {
    var kinds := PlacedKinds(inp, registry);
    var env: seq<seq<Selection>>, ends: seq<seq<Selection>> := [[]], [[], []];
    var ds := DefaultDeltas(inp, kinds);
    var sss := Map((kind: Kind) requires Usable(inp) => DefaultSelections(inp, kind), kinds);
    EndsMount(inp);
    DefaultsMount(inp, kinds);
    BothMount([EnvDelta(inp.spec)], env, ds, sss);
    ListsMount(inp, [EnvDelta(inp.spec)] + ds, env + sss);
    BothMount([EnvDelta(inp.spec)] + ds + ListBlock(inp, AppConfigKind) + ListBlock(inp, ConfigMapFilesKind)
              + ListBlock(inp, ConfigMapEnvsKind) + ListBlock(inp, SecretFilesKind) + ListBlock(inp, SecretEnvsKind),
              env + sss + ListSelections(inp, AppConfigKind) + ListSelections(inp, ConfigMapFilesKind)
              + ListSelections(inp, ConfigMapEnvsKind) + ListSelections(inp, SecretFilesKind)
              + ListSelections(inp, SecretEnvsKind),
              [PluginsDelta(inp), DbDelta(inp)], ends);
  }

  lemma {:induction false} SumMounts(ds: seq<Delta>, sss: seq<seq<Selection>>)
    requires AllMount(ds, sss)
    ensures Mounts(Sum(ds), Concat(sss))
  {
    if ds != [] {
      var n := |ds| - 1;
      SumMounts(ds[..n], sss[..n]);
      assert Mounts(ds[n], sss[n]);
      assert Paths(Sum(ds).mounts) == Paths(Sum(ds[..n]).mounts) + Paths(ds[n].mounts);
      assert Map(PathFor, Concat(sss)) == Map(PathFor, Concat(sss[..n])) + Map(PathFor, sss[n]);
    }
  }

  lemma {:induction false} PathsToldApart(ss: seq<Selection>)
    requires forall s :: s in ss ==> Simple(s.file)
    ensures Distinct(Map(PathFor, ss)) <==> Distinct(Map(Cleaned, ss))
  {
    forall i, j | 0 <= i < j < |ss| ensures PathFor(ss[i]) == PathFor(ss[j]) <==> Cleaned(ss[i]) == Cleaned(ss[j]) {
      JoinIsInjective(ss[i].dir, ss[i].file, ss[j].dir, ss[j].file);
    }
    SameDistinct(Map(PathFor, ss), Map(Cleaned, ss));
  }

  lemma AppendedPaths(given: ContainerV, last: ContainerV, d: Delta, asked: seq<Selection>)
    requires last.mounts == given.mounts + d.mounts && Mounts(d, asked)
    ensures Paths(last.mounts) == Paths(given.mounts) + Map(PathFor, asked)
  {
    assert Paths(last.mounts) == Paths(given.mounts) + Paths(d.mounts);
  }

  /** The mount paths of the Backstage container when the builder is done. */
  function LastPaths(inp: Inputs, registry: seq<Kind>): seq<string>
    requires Usable(inp) && Ready(inp) && LastPod(inp, registry).containers != []
  {
    Paths(LastPod(inp, registry).containers[0].mounts)
  }

  /**
   For file names that are plain, the mount paths are distinct exactly when the manifest's own are, the requested
   pairs of cleaned directory and file are, and no request falls on a path of the manifest.
   */
  lemma DistinctPaths(inp: Inputs, registry: seq<Kind>)
    requires Usable(inp) && Ready(inp) && IsPlaced(inp, DeploymentKind)
    requires forall s :: s in AllSelections(inp, registry) ==> Simple(s.file)
    ensures LastPod(inp, registry).containers != []
    ensures var base, asked := Paths(ManifestPod(inp).containers[0].mounts), AllSelections(inp, registry);
            Distinct(LastPaths(inp, registry)) <==>
              && Distinct(base)
              && Distinct(Map(Cleaned, asked))
              && forall path :: path in base ==> path !in Map(PathFor, asked)
  {
    var base, asked := Paths(ManifestPod(inp).containers[0].mounts), AllSelections(inp, registry);
    PodAfter(inp, registry);
    BlocksMount(inp, registry);
    SumMounts(Blocks(inp, registry), BlockSelections(inp, registry));
    AppendedPaths(ManifestPod(inp).containers[0], LastPod(inp, registry).containers[0], AllAdded(inp, registry), asked);
    DistinctOfBoth(base, Map(PathFor, asked));
    PathsToldApart(asked);
  }
}
