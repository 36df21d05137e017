/** Where the --config arguments of the Backstage container come from. */
module AppConfigs {
  import opened Builder
  import opened FinalPod
  import opened Names
  import opened Objects
  import opened Pods
  import opened Seqs
  import opened Validation

  ghost predicate Silent(d: Delta) { d.configs == [] }

  lemma {:induction false} NoConfigs(ds: seq<Delta>)
    requires forall i :: 0 <= i < |ds| ==> Silent(ds[i])
    ensures Sum(ds).configs == []
  {
    if ds != [] {
      assert Silent(ds[|ds| - 1]);
      NoConfigs(ds[..|ds| - 1]);
    }
  }

  lemma ConfigsBetween(a: seq<Delta>, d: Delta, b: seq<Delta>)
    requires Sum(a).configs == [] && Sum(b).configs == []
    ensures Sum(a + [d] + b).configs == d.configs
  {
    SumStep(a, d);
    SumOfBoth(a + [d], b);
  }

  lemma OnlyAppConfigs(inp: Inputs, kind: Kind)
    requires Usable(inp) && (kind != AppConfigKind || !IsPlaced(inp, kind))
    ensures Silent(DefaultDelta(inp, kind))
  {
  }

  lemma NoDefaultConfigs(inp: Inputs, kinds: seq<Kind>)
    requires Usable(inp) && AppConfigKind !in kinds
    ensures Sum(DefaultDeltas(inp, kinds)).configs == []
  {
    forall i | 0 <= i < |kinds| ensures Silent(DefaultDeltas(inp, kinds)[i]) {
      OnlyAppConfigs(inp, kinds[i]);
    }
    NoConfigs(DefaultDeltas(inp, kinds));
  }

  lemma OneDefaultConfig(inp: Inputs, a: seq<Kind>, b: seq<Kind>)
    requires Usable(inp) && AppConfigKind !in a && AppConfigKind !in b
    ensures Sum(DefaultDeltas(inp, a + [AppConfigKind] + b)).configs == DefaultDelta(inp, AppConfigKind).configs
  {
    var d := DefaultDelta(inp, AppConfigKind);
    NoDefaultConfigs(inp, a);
    NoDefaultConfigs(inp, b);
    ConfigsBetween(DefaultDeltas(inp, a), d, DefaultDeltas(inp, b));
    DefaultDeltasOfBoth(inp, a, [AppConfigKind]);
    DefaultDeltasOfBoth(inp, a + [AppConfigKind], b);
    assert DefaultDeltas(inp, [AppConfigKind]) == [d];
  }

  lemma DistinctSplit(kinds: seq<Kind>, k: nat)
    requires Distinct(kinds) && k < |kinds|
    ensures kinds == kinds[..k] + [kinds[k]] + kinds[k + 1..]
    ensures kinds[k] !in kinds[..k] && kinds[k] !in kinds[k + 1..]
  {
  }

  /** One default app-config at most, so its arguments are all the default arguments. */
  lemma DefaultConfigs(inp: Inputs, kinds: seq<Kind>)
    requires Usable(inp) && Distinct(kinds)
    ensures AppConfigKind in kinds ==>
              Sum(DefaultDeltas(inp, kinds)).configs == DefaultDelta(inp, AppConfigKind).configs
    ensures AppConfigKind !in kinds ==> Sum(DefaultDeltas(inp, kinds)).configs == []
  {
    if AppConfigKind in kinds {
      var k :| 0 <= k < |kinds| && kinds[k] == AppConfigKind;
      DistinctSplit(kinds, k);
      OneDefaultConfig(inp, kinds[..k], kinds[k + 1..]);
    } else {
      NoDefaultConfigs(inp, kinds);
    }
  }

  lemma PlacedDefaults(inp: Inputs, registry: seq<Kind>)
    requires Usable(inp) && IsRegistry(registry)
    ensures Sum(DefaultDeltas(inp, PlacedKinds(inp, registry))).configs == DefaultDelta(inp, AppConfigKind).configs
  {
    FilterDistinct((kind: Kind) => IsPlaced(inp, kind), registry);
    FilterMembers((kind: Kind) => IsPlaced(inp, kind), registry);
    DefaultConfigs(inp, PlacedKinds(inp, registry));
    if !IsPlaced(inp, AppConfigKind) {
      OnlyAppConfigs(inp, AppConfigKind);
    }
  }

  lemma ListConfigs(inp: Inputs, list: Kind)
    requires list != AppConfigKind
    ensures Sum(ListBlock(inp, list)).configs == []
  {
    NoConfigs(ListBlock(inp, list));
  }

  lemma SilentLists(inp: Inputs)
    ensures forall list :: list != AppConfigKind ==> Silent(Sum(ListBlock(inp, list)))
  {
    forall list | list != AppConfigKind ensures Silent(Sum(ListBlock(inp, list))) {
      ListConfigs(inp, list);
    }
  }

  lemma PlusSilent(a: Delta, b: Delta)
    requires Silent(b)
    ensures Plus(a, b).configs == a.configs
  {
  }

  lemma SilentPlugins(inp: Inputs)
    ensures Silent(PluginsDelta(inp)) && Silent(DbDelta(inp)) && Silent(EnvDelta(inp.spec))
  {
  }

  lemma WithListsConfigs(inp: Inputs, soFar: Delta)
    ensures WithSpecLists(inp, soFar).configs == soFar.configs + Sum(ListBlock(inp, AppConfigKind)).configs
  {
    var d := Plus(soFar, Sum(ListBlock(inp, AppConfigKind)));
    SilentLists(inp);
    SilentPlugins(inp);
    PlusSilent(d, Sum(ListBlock(inp, ConfigMapFilesKind)));
    d := Plus(d, Sum(ListBlock(inp, ConfigMapFilesKind)));
    PlusSilent(d, Sum(ListBlock(inp, ConfigMapEnvsKind)));
    d := Plus(d, Sum(ListBlock(inp, ConfigMapEnvsKind)));
    PlusSilent(d, Sum(ListBlock(inp, SecretFilesKind)));
    d := Plus(d, Sum(ListBlock(inp, SecretFilesKind)));
    PlusSilent(d, Sum(ListBlock(inp, SecretEnvsKind)));
    d := Plus(d, Sum(ListBlock(inp, SecretEnvsKind)));
    PlusSilent(d, PluginsDelta(inp));
  }

  lemma PlainEnds(inp: Inputs, lists: Delta, defaults: Delta)
    ensures Plus(lists, DbDelta(inp)).configs == lists.configs
    ensures Plus(EnvDelta(inp.spec), defaults).configs == defaults.configs
  {
  }

  lemma AllConfigs(inp: Inputs, registry: seq<Kind>)
    requires Usable(inp) && IsRegistry(registry)
    ensures AllAdded(inp, registry).configs
         == DefaultDelta(inp, AppConfigKind).configs + Sum(ListBlock(inp, AppConfigKind)).configs
  {
    PlacedDefaults(inp, registry);
    BlocksAddUp(inp, registry);
    var defaults := Sum(DefaultDeltas(inp, PlacedKinds(inp, registry)));
    var soFar := Plus(EnvDelta(inp.spec), defaults);
    WithListsConfigs(inp, soFar);
    PlainEnds(inp, WithSpecLists(inp, soFar), defaults);
  }

  lemma ArgumentsAfter(inp: Inputs, registry: seq<Kind>)
    requires Usable(inp) && Ready(inp) && IsPlaced(inp, DeploymentKind)
    ensures LastPod(inp, registry).containers != []
    ensures LastPod(inp, registry).containers[0].args
         == ManifestPod(inp).containers[0].args + ConfigArgs(AllAdded(inp, registry).configs)
  {
    PodAfter(inp, registry);
  }

  /**
   The arguments of the Backstage container: those of the manifest, then those of the default app-config,
   then those of the CR's list in its order.
   */
  lemma ConfigArguments(inp: Inputs, registry: seq<Kind>)
    requires Usable(inp) && Ready(inp) && IsRegistry(registry) && IsPlaced(inp, DeploymentKind)
    ensures LastPod(inp, registry).containers != []
    ensures LastPod(inp, registry).containers[0].args
         == ManifestPod(inp).containers[0].args
            + (ConfigArgs(DefaultDelta(inp, AppConfigKind).configs)
               + ConfigArgs(Sum(ListBlock(inp, AppConfigKind)).configs))
  {
    ArgumentsAfter(inp, registry);
    AllConfigs(inp, registry);
    ConfigArgsOfBoth(DefaultDelta(inp, AppConfigKind).configs, Sum(ListBlock(inp, AppConfigKind)).configs);
  }

  /**
   Each block of arguments passes exactly the files that the same ConfigMap mounts, in whatever order, if the ConfigMap
   has data; without data it is mounted as a whole and nothing is passed.
   */
  lemma DefaultConfigsAreMounted(inp: Inputs)
    requires Usable(inp) && ValidOrder(inp.order)
    requires IsPlaced(inp, AppConfigKind)
    ensures Given(inp, AppConfigKind).value.body.ConfigMapBody?
    ensures ConfigsMounted(DefaultDelta(inp, AppConfigKind)) <==> Given(inp, AppConfigKind).value.body.data.Some?
    ensures Given(inp, AppConfigKind).value.body.data.None? ==> DefaultDelta(inp, AppConfigKind).configs == []
  {
    var c := DefaultContribution(AppConfigKind, PhaseOne(inp, AppConfigKind)).value;
    ConfigsMatchMounts(c, Default(AppConfigKind), inp.order, DirOfPlugins(inp));
  }

  lemma ListedConfigsAreMounted(inp: Inputs, i: nat)
    requires ValidOrder(inp.order) && i < |RefsOf(inp.spec, AppConfigKind)|
    ensures var cm := Lookup(inp.ext.appConfigs, RefsOf(inp.spec, AppConfigKind)[i].name);
            && (ConfigsMounted(ListBlock(inp, AppConfigKind)[i]) <==> cm.data.Some?)
            && (cm.data.None? ==> ListBlock(inp, AppConfigKind)[i].configs == [])
  {
    var refs, dir := RefsOf(inp.spec, AppConfigKind), DirOf(inp.spec, AppConfigKind);
    ConfigsMatchMounts(ListedContribution(inp, AppConfigKind, refs, dir, i), Listed(AppConfigKind, i), inp.order,
                       DirOfPlugins(inp));
  }
}
