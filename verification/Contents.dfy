/** What the built model contains, in which order, and what its objects say of each other. */
module Contents {
  import opened Builder
  import opened Names
  import opened Objects
  import opened Pods
  import opened Seqs
  import opened Sorting
  import opened Wrappers

  ghost predicate Contains(inp: Inputs, registry: seq<Kind>, kind: Kind)
    requires Usable(inp) && Ready(inp)
  {
    exists i :: 0 <= i < |Built(inp, registry)| && Built(inp, registry)[i].kind == kind
  }

  lemma BuiltKinds(inp: Inputs, registry: seq<Kind>)
    requires Usable(inp) && Ready(inp)
    ensures var kinds := SortedKinds(PlacedKinds(inp, registry));
            && |Built(inp, registry)| == |kinds|
            && forall i :: 0 <= i < |kinds| ==> Built(inp, registry)[i].kind == kinds[i]
  {
    SortedPlaced(inp, registry);
  }

  lemma InKinds(inp: Inputs, registry: seq<Kind>, kinds: seq<Kind>, kind: Kind)
    requires Usable(inp) && Ready(inp) && kinds == SortedKinds(PlacedKinds(inp, registry))
    ensures Contains(inp, registry, kind) <==> kind in kinds
  {
    BuiltKinds(inp, registry);
    if kind in kinds {
      var i :| 0 <= i < |kinds| && kinds[i] == kind;
      assert Built(inp, registry)[i].kind == kind;
    }
  }

  lemma ContainsPlaced(inp: Inputs, registry: seq<Kind>, kind: Kind)
    requires Usable(inp) && Ready(inp) && IsRegistry(registry)
    ensures Contains(inp, registry, kind) <==> IsPlaced(inp, kind)
  {
    SortedPlaced(inp, registry);
    InKinds(inp, registry, SortedKinds(PlacedKinds(inp, registry)), kind);
  }

  predicate Always(kind: Kind) { kind in {DeploymentKind, ServiceKind} }
  predicate ForLocalDb(kind: Kind) { kind in {DbStatefulSetKind, DbServiceKind} }

  /** Which kinds a successfully built model holds, for every CR, configuration and registry. */
  lemma ExactContents(inp: Inputs, registry: seq<Kind>, kind: Kind)
    requires Usable(inp) && Ready(inp) && IsRegistry(registry)
    ensures Contains(inp, registry, kind) <==>
              var configured := ManifestOf(inp, kind).Configured?;
              if Always(kind) then true
              else if ForLocalDb(kind) then inp.spec.IsLocalDbEnabled()
              else if kind == DbSecretKind then configured && inp.spec.IsLocalDbEnabled()
              else if kind == DynamicPluginsKind then configured && inp.spec.PluginsName() == ""
              else if kind == RouteKind then inp.operator.isOpenShift && (configured || inp.spec.IsRouteEnabled())
              else configured
  {
    ContainsPlaced(inp, registry, kind);
    assert !IsMissing(inp, kind);
  }

  /** No kind occurs twice. */
  lemma EachKindOnce(inp: Inputs, registry: seq<Kind>, i: nat, j: nat)
    requires Usable(inp) && Ready(inp) && IsRegistry(registry)
    requires i < j < |Built(inp, registry)|
    ensures Built(inp, registry)[i].kind != Built(inp, registry)[j].kind
  {
    var placed := PlacedKinds(inp, registry);
    FilterDistinct((kind: Kind) => IsPlaced(inp, kind), registry);
    SortedPermutes(Itself, placed);
    PermutedIsDistinct(placed, SortedKinds(placed));
    BuiltKinds(inp, registry);
  }

  lemma FirstKind(kinds: seq<Kind>)
    requires DeploymentKind in kinds
    ensures SortedKinds(kinds) != [] && SortedKinds(kinds)[0] == DeploymentKind
  {
    var d := Filter(OfDeployment(Itself), kinds);
    FilterMembers(OfDeployment(Itself), kinds);
    assert IsDeployment(Itself(DeploymentKind)) && DeploymentKind in d;
    assert SortedKinds(kinds)[0] == d[0] && d[0] in d && IsDeployment(Itself(d[0]));
  }

  lemma LastKind(kinds: seq<Kind>)
    requires DbStatefulSetKind in kinds
    ensures SortedKinds(kinds) != [] && SortedKinds(kinds)[|SortedKinds(kinds)| - 1] == DbStatefulSetKind
  {
    var f := Filter(OfStatefulSet(Itself), kinds);
    FilterMembers(OfStatefulSet(Itself), kinds);
    assert IsStatefulSet(Itself(DbStatefulSetKind)) && DbStatefulSetKind in f;
    var last := f[|f| - 1];
    assert SortedKinds(kinds)[|SortedKinds(kinds)| - 1] == last && last in f && IsStatefulSet(Itself(last));
  }

  lemma AlwaysPlaced(inp: Inputs, registry: seq<Kind>)
    requires Ready(inp) && IsRegistry(registry)
    ensures DeploymentKind in PlacedKinds(inp, registry)
    ensures inp.spec.IsLocalDbEnabled() ==> DbStatefulSetKind in PlacedKinds(inp, registry)
  {
    assert !IsMissing(inp, DeploymentKind) && !IsMissing(inp, DbStatefulSetKind);
    FilterMembers((kind: Kind) => IsPlaced(inp, kind), registry);
  }

  /** The Deployment is applied first, and the database's StatefulSet, if there is one, last. */
  lemma DeploymentFirst(inp: Inputs, registry: seq<Kind>)
    requires Usable(inp) && Ready(inp) && IsRegistry(registry)
    ensures var built := Built(inp, registry);
            && built != []
            && built[0].kind == DeploymentKind
            && (inp.spec.IsLocalDbEnabled() ==> built[|built| - 1].kind == DbStatefulSetKind)
  {
    BuiltKinds(inp, registry);
    AlwaysPlaced(inp, registry);
    FirstKind(PlacedKinds(inp, registry));
    if inp.spec.IsLocalDbEnabled() {
      LastKind(PlacedKinds(inp, registry));
    }
  }

  /** The Route leads to the Service, whatever its manifest says. */
  lemma RouteToService(inp: Inputs, registry: seq<Kind>)
    requires Usable(inp) && Ready(inp) && IsPlaced(inp, RouteKind)
    ensures IsPlaced(inp, ServiceKind)
    ensures PhaseTwo(inp, registry, RouteKind).body.toName == PhaseTwo(inp, registry, ServiceKind).meta.name
  {
    assert !IsMissing(inp, ServiceKind);
  }

  /** Generated credentials: the run's password for both users, and the database service's name and port. */
  lemma GeneratedCredentials(inp: Inputs, registry: seq<Kind>)
    requires Usable(inp) && Ready(inp) && Generates(inp)
    ensures IsPlaced(inp, DbServiceKind)
    ensures var data := PhaseTwo(inp, registry, DbSecretKind).body.stringData;
            var service := PhaseTwo(inp, registry, DbServiceKind);
            && data.Some?
            && data.value.Keys == {"POSTGRES_PASSWORD", "POSTGRESQL_ADMIN_PASSWORD", "POSTGRES_USER",
                                   "POSTGRES_HOST", "POSTGRES_PORT"}
            && data.value["POSTGRES_PASSWORD"] == inp.password
            && data.value["POSTGRESQL_ADMIN_PASSWORD"] == inp.password
            && data.value["POSTGRES_USER"] == "postgres"
            && data.value["POSTGRES_HOST"] == service.meta.name == RuntimeName(DbServiceKind, inp.name)
            && data.value["POSTGRES_PORT"] == Decimal(service.body.ports[0])
  {
    assert !IsMissing(inp, DbServiceKind);
  }

  /** Another password gives another DB secret. */
  lemma PasswordShows(a: Inputs, b: Inputs, registry: seq<Kind>)
    requires Usable(a) && Ready(a) && Generates(a) && Usable(b) && Ready(b) && Generates(b)
    requires a.password != b.password
    ensures PhaseTwo(a, registry, DbSecretKind).body != PhaseTwo(b, registry, DbSecretKind).body
  {
    GeneratedCredentials(a, registry);
    GeneratedCredentials(b, registry);
  }

  /** Given credentials are those of the manifest: a CR that names its own auth secret has nothing generated. */
  lemma GivenCredentials(inp: Inputs, registry: seq<Kind>)
    requires Usable(inp) && Ready(inp) && IsPlaced(inp, DbSecretKind) && !Generates(inp)
    ensures PhaseTwo(inp, registry, DbSecretKind).body == Given(inp, DbSecretKind).value.body
  {
  }

  /** Decimal(n) reads back as n: the port is not lost in its text. */
  function ReadDigits(s: string): nat {
    if s == "" then 0
    else 10 * ReadDigits(s[..|s| - 1]) + (if '0' <= s[|s| - 1] <= '9' then (s[|s| - 1] - '0') as nat else 0)
  }

  function ReadDecimal(s: string): int {
    if s != "" && s[0] == '-' then 0 - ReadDigits(s[1..]) else ReadDigits(s)
  }

  lemma {:induction false} DigitsReadBack(n: nat)
    ensures ReadDigits(Digits(n)) == n && Digits(n) != "" && Digits(n)[0] != '-'
  {
    if n >= 10 {
      DigitsReadBack(n / 10);
      assert Digits(n)[..|Digits(n)| - 1] == Digits(n / 10);
    }
  }

  lemma DecimalReadsBack(n: int)
    ensures ReadDecimal(Decimal(n)) == n
  {
    if n < 0 {
      DigitsReadBack(-n);
      assert Decimal(n)[1..] == Digits(-n);
    } else {
      DigitsReadBack(n);
    }
  }

  function FirstContainer(o: ObjectV): ContainerV
    requires o.pod.Some? && o.pod.value.containers != []
  {
    o.pod.value.containers[0]
  }

  /**
   The database container gets the variables of the DB secret exactly when there is one; beside that and the operator's
   image, the StatefulSet's pod is the manifest's.
   */
  lemma DbSecretReachesPods(inp: Inputs, registry: seq<Kind>)
    requires Usable(inp) && Ready(inp) && IsPlaced(inp, DbStatefulSetKind)
    ensures Given(inp, DbStatefulSetKind).Some? && Given(inp, DbStatefulSetKind).value.pod.Some?
    ensures Given(inp, DbStatefulSetKind).value.pod.value.containers != []
    ensures var source := EnvFromSource(SecretObject, RuntimeName(DbSecretKind, inp.name));
            var given := Given(inp, DbStatefulSetKind).value.pod.value;
            var first := given.containers[0];
            PhaseTwo(inp, registry, DbStatefulSetKind).pod == Some(given.(containers := given.containers[0 := first.(
              image := if inp.operator.dbImage == "" then first.image else inp.operator.dbImage,
              envFrom := first.envFrom + if IsPlaced(inp, DbSecretKind) then [source] else [])]))
  {
    var given := Given(inp, DbStatefulSetKind).value.pod.value;
    var pod := DbEnvImage(given, inp.operator.dbImage);
    assert PhaseOne(inp, DbStatefulSetKind).pod == Some(pod);
    ExtendedByNothing(pod);
    DbExtended(inp, pod);
    DbFirst(given, inp.operator.dbImage, DbDelta(inp).envFrom);
  }

  lemma DbFirst(given: PodV, image: string, more: seq<EnvFromSource>)
    requires given.containers != []
    ensures var pod, first := DbEnvImage(given, image), given.containers[0];
            pod.(containers := pod.containers[0 := pod.containers[0].(envFrom := pod.containers[0].envFrom + more)]) ==
              given.(containers := given.containers[0 := first.(
                image := if image == "" then first.image else image, envFrom := first.envFrom + more)])
  {
  }

  lemma DbExtended(inp: Inputs, pod: PodV)
    requires pod.containers != []
    ensures var first := pod.containers[0];
            Extended(pod, DbDelta(inp)) ==
              pod.(containers := pod.containers[0 := first.(envFrom := first.envFrom + DbDelta(inp).envFrom)])
  {
    ExtendedByNothing(pod);
    AppendToTwice(pod.containers[0], NOTHING, NOTHING);
    assert Extended(pod, DbDelta(inp)).initContainers == Extended(pod, NOTHING).initContainers;
  }

  /** The Backstage container gets them too, after all its other sources. */
  lemma DbSecretReachesBackstage(inp: Inputs, registry: seq<Kind>)
    requires Usable(inp) && Ready(inp) && IsPlaced(inp, DbSecretKind)
    ensures IsPlaced(inp, DeploymentKind)
    ensures var sources := FirstContainer(PhaseTwo(inp, registry, DeploymentKind)).envFrom;
            sources != [] && sources[|sources| - 1] == EnvFromSource(SecretObject, RuntimeName(DbSecretKind, inp.name))
  {
    assert !IsMissing(inp, DeploymentKind);
    var blocks := Blocks(inp, registry);
    assert blocks[|blocks| - 1] == DbDelta(inp);
    assert Sum(blocks) == Plus(Sum(blocks[..|blocks| - 1]), DbDelta(inp));
  }

  /** The twelve init functions register every kind once. */
  lemma RegistryIsComplete()
    ensures IsRegistry(REGISTRY)
  {
    forall kind: Kind ensures kind in REGISTRY {
      match kind
      case AppConfigKind => assert REGISTRY[0] == kind;
      case ConfigMapEnvsKind => assert REGISTRY[1] == kind;
      case ConfigMapFilesKind => assert REGISTRY[2] == kind;
      case DbSecretKind => assert REGISTRY[3] == kind;
      case DbServiceKind => assert REGISTRY[4] == kind;
      case DbStatefulSetKind => assert REGISTRY[5] == kind;
      case DeploymentKind => assert REGISTRY[6] == kind;
      case DynamicPluginsKind => assert REGISTRY[7] == kind;
      case RouteKind => assert REGISTRY[8] == kind;
      case SecretEnvsKind => assert REGISTRY[9] == kind;
      case SecretFilesKind => assert REGISTRY[10] == kind;
      case ServiceKind => assert REGISTRY[11] == kind;
    }
  }
}
