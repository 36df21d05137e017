/** What a successful run leaves in the cluster, read from the stored objects under the names of the Kubernetes API. */
module Stored {
  import opened Builder
  import opened Contents
  import opened FinalPod
  import opened Machine
  import opened Marshalling
  import opened MergePatch
  import opened Names
  import opened Objects
  import opened Plans
  import opened Resources
  import opened Selectors
  import opened SentObjects
  import opened Seqs

  function LabelsAt(objects: Store, key: Key): Labels {
    if key in objects then objects[key].labels else map[]
  }

  function AnnotationsAt(objects: Store, key: Key): Labels {
    if key in objects then objects[key].annotations else map[]
  }

  /** Entries that are wanted and not empty win; where none is, the live ones stay; there are no others. */
  ghost predicate WantedOverLive(now: Labels, want: Labels, live: Labels) {
    forall k ::
      && (k in want && want[k] != "" ==> k in now && now[k] == want[k])
      && (k in live && (k !in want || want[k] == "") ==> k in now && now[k] == live[k])
      && (k in now ==> k in want || k in live)
  }

  /** All entries that are wanted win. */
  ghost predicate LaidOver(now: Labels, want: Labels, live: Labels) {
    forall k ::
      && (k in want ==> k in now && now[k] == want[k])
      && (k in live && k !in want ==> k in now && now[k] == live[k])
      && (k in now ==> k in want || k in live)
  }

  /** The kind is applied and not deleted again. */
  predicate Applied(inp: Inputs, kind: Kind) {
    IsPlaced(inp, kind)
    && OwnKey(inp, kind) !in Deletions(inp.spec, inp.namespace, inp.name, inp.operator.isOpenShift)
  }

  /** Labels and annotations of an object that is read first: the built ones, over those of the live object. */
  lemma LabelsAfterRun(inp: Inputs, registry: seq<Kind>, objects: Store, kind: Kind)
    requires Usable(inp) && Ready(inp) && IsRegistry(registry) && Applied(inp, kind) && ApiKindOf(kind) != Secrets
    ensures var key, want, once := OwnKey(inp, kind), PhaseTwo(inp, registry, kind).meta,
                                   Settle(PlanOf(inp, registry), objects);
            && key in once
            && WantedOverLive(once[key].labels, want.labels, LabelsAt(objects, key))
            && WantedOverLive(once[key].annotations, want.annotations, AnnotationsAt(objects, key))
  {
    ClusterAfterRun(inp, registry, objects, kind);
    MetadataReadsBack(PhaseTwo(inp, registry, kind));
  }

  /** A Secret other than the DB secret is laid over the live one without a look at it. */
  lemma SecretLabelsAfterRun(inp: Inputs, registry: seq<Kind>, objects: Store, kind: Kind)
    requires Usable(inp) && Ready(inp) && IsRegistry(registry) && Applied(inp, kind)
    requires kind in {SecretEnvsKind, SecretFilesKind}
    ensures var key, want, once := OwnKey(inp, kind), PhaseTwo(inp, registry, kind).meta,
                                   Settle(PlanOf(inp, registry), objects);
            && key in once
            && LaidOver(once[key].labels, want.labels, LabelsAt(objects, key))
            && LaidOver(once[key].annotations, want.annotations, AnnotationsAt(objects, key))
  {
    ClusterAfterRun(inp, registry, objects, kind);
    MetadataReadsBack(PhaseTwo(inp, registry, kind));
  }

  /** Beside labels and annotations, an object that is read first is stored as it was built. */
  lemma StoredAsBuilt(inp: Inputs, registry: seq<Kind>, objects: Store, kind: Kind)
    requires Usable(inp) && Ready(inp) && IsRegistry(registry) && Applied(inp, kind) && ApiKindOf(kind) != Secrets
    ensures var key, built := OwnKey(inp, kind), PhaseTwo(inp, registry, kind);
            var once := Settle(PlanOf(inp, registry), objects);
            && key in once && once[key].fields == FieldsOf(built) && once[key].meta == MetaOf(built.meta)
  {
    ClusterAfterRun(inp, registry, objects, kind);
  }

  function SelectorAt(r: Resource): Labels { StringsAt(MembersAt(r.fields, "spec"), "selector") }

  ghost function SelectorBuilt(inp: Inputs, registry: seq<Kind>, service: Kind): Labels
    requires Usable(inp) && Ready(inp) && IsPlaced(inp, service) && service in {ServiceKind, DbServiceKind}
  {
    PhaseTwo(inp, registry, service).body.selector
  }

  lemma StoredSelector(inp: Inputs, registry: seq<Kind>, objects: Store, service: Kind)
    requires Usable(inp) && Ready(inp) && IsRegistry(registry) && Applied(inp, service)
    requires service in {ServiceKind, DbServiceKind}
    ensures var once := Settle(PlanOf(inp, registry), objects);
            && OwnKey(inp, service) in once
            && SelectorAt(once[OwnKey(inp, service)]) == SelectorBuilt(inp, registry, service)
  {
    StoredAsBuilt(inp, registry, objects, service);
    ServiceReadsBack(PhaseTwo(inp, registry, service));
  }

  lemma StoredPodLabels(inp: Inputs, registry: seq<Kind>, objects: Store, workload: Kind)
    requires Usable(inp) && Ready(inp) && IsRegistry(registry) && Applied(inp, workload)
    requires workload in {DeploymentKind, DbStatefulSetKind}
    ensures var once := Settle(PlanOf(inp, registry), objects);
            && OwnKey(inp, workload) in once
            && PodLabelsIn(once[OwnKey(inp, workload)].fields) == PhaseTwo(inp, registry, workload).body.podLabels
  {
    StoredAsBuilt(inp, registry, objects, workload);
    WorkloadReadsBack(PhaseTwo(inp, registry, workload));
  }

  /** The stored selectors select the stored pods exactly as the built ones do. */
  lemma StoredSelectorsAgree(inp: Inputs, registry: seq<Kind>, objects: Store, service: Kind, workload: Kind)
    requires Usable(inp) && Ready(inp) && IsRegistry(registry) && Applied(inp, service) && Applied(inp, workload)
    requires service in {ServiceKind, DbServiceKind} && workload in {DeploymentKind, DbStatefulSetKind}
    ensures var once := Settle(PlanOf(inp, registry), objects);
            && OwnKey(inp, service) in once && OwnKey(inp, workload) in once
            && (Selects(SelectorAt(once[OwnKey(inp, service)]), PodLabelsIn(once[OwnKey(inp, workload)].fields)) <==>
                  && (service == DbServiceKind <==> workload == DbStatefulSetKind)
                  && Selects(Unset(SelectorGiven(inp, service)), PodLabelsGiven(inp, workload)))
  {
    StoredSelector(inp, registry, objects, service);
    StoredPodLabels(inp, registry, objects, workload);
    SelectorsAgree(inp, registry, service, workload);
  }

  /** The stored Deployment: its replicas, and the finished pod container by container. */
  lemma StoredDeployment(inp: Inputs, registry: seq<Kind>, objects: Store)
    requires Usable(inp) && Ready(inp) && IsRegistry(registry)
    ensures IsPlaced(inp, DeploymentKind)
    ensures var once, pod := Settle(PlanOf(inp, registry), objects), LastPod(inp, registry);
            var key := OwnKey(inp, DeploymentKind);
            && key in once
            && Get(MembersAt(once[key].fields, "spec"), "replicas")
               == NumberOrNull(PhaseTwo(inp, registry, DeploymentKind).body.replicas)
            && ContainersIn(PodIn(once[key].fields), "containers") == Map(Plain, pod.containers)
            && ContainersIn(PodIn(once[key].fields), "initContainers") == Map(Plain, pod.initContainers)
            && Map(NameFrom, ItemsAt(PodIn(once[key].fields), "imagePullSecrets")) == pod.pullSecrets
            && ItemsAt(PodIn(once[key].fields), "volumes") == Map(VolumeJson, pod.volumes)
  {
    assert !IsMissing(inp, DeploymentKind);
    Deleted(inp, DeploymentKind);
    StoredAsBuilt(inp, registry, objects, DeploymentKind);
    WorkloadReadsBack(PhaseTwo(inp, registry, DeploymentKind));
    PodReadsBack(LastPod(inp, registry));
  }

  /** The stored Route leads to the stored Service. */
  lemma StoredRoute(inp: Inputs, registry: seq<Kind>, objects: Store)
    requires Usable(inp) && Ready(inp) && IsRegistry(registry) && Applied(inp, RouteKind)
    ensures Applied(inp, ServiceKind)
    ensures var once := Settle(PlanOf(inp, registry), objects);
            && OwnKey(inp, RouteKind) in once && OwnKey(inp, ServiceKind) in once
            && TextAt(MembersAt(MembersAt(once[OwnKey(inp, RouteKind)].fields, "spec"), "to"), "name")
               == TextAt(once[OwnKey(inp, ServiceKind)].meta, "name") == OwnKey(inp, ServiceKind).name
  {
    Deleted(inp, ServiceKind);
    RouteToService(inp, registry);
    StoredAsBuilt(inp, registry, objects, RouteKind);
    StoredAsBuilt(inp, registry, objects, ServiceKind);
    RouteReadsBack(PhaseTwo(inp, registry, RouteKind));
    MetadataReadsBack(PhaseTwo(inp, registry, ServiceKind));
  }

  /** A run that creates the DB secret stores its own password, for both users, and the database service's address. */
  lemma StoredCredentials(inp: Inputs, registry: seq<Kind>, objects: Store)
    requires Usable(inp) && Ready(inp) && IsRegistry(registry) && Generates(inp)
    requires OwnKey(inp, DbSecretKind) !in objects
    ensures OwnKey(inp, DbSecretKind) in Settle(PlanOf(inp, registry), objects)
    ensures var once := Settle(PlanOf(inp, registry), objects);
            var data := StringsAt(once[OwnKey(inp, DbSecretKind)].fields, "stringData");
            && data.Keys == {"POSTGRES_PASSWORD", "POSTGRESQL_ADMIN_PASSWORD", "POSTGRES_USER", "POSTGRES_HOST",
                             "POSTGRES_PORT"}
            && data["POSTGRES_PASSWORD"] == inp.password && data["POSTGRESQL_ADMIN_PASSWORD"] == inp.password
            && data["POSTGRES_USER"] == "postgres"
            && data["POSTGRES_HOST"] == OwnKey(inp, DbServiceKind).name
  {
    Deleted(inp, DbSecretKind);
    ClusterAfterRun(inp, registry, objects, DbSecretKind);
    GeneratedCredentials(inp, registry);
    SecretReadsBack(PhaseTwo(inp, registry, DbSecretKind));
  }
}
