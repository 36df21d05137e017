/**
 The model builder as a function of its inputs. Phase one decides for each registered kind alone whether
 its object is placed in the model; phase two completes the placed objects from the others.
 BackstageModel in Runtime does the same on heap objects, step by step.
 */
module Builder {
  import opened BackstageApi
  import opened Names
  import opened Objects
  import opened Pods
  import opened Seqs
  import opened Sorting
  import opened Wrappers

  function WithImage(c: ContainerV, image: string): ContainerV { c.(image := image) }

  function ImageSetter(image: string): ContainerV -> ContainerV {
    (c: ContainerV) => WithImage(c, image)
  }

  /** The image variable overrides the first container and all init containers. */
  function EnvImage(pod: PodV, image: string): PodV
    requires pod.containers != []
  {
    if image == "" then pod
    else pod.(containers := pod.containers[0 := WithImage(pod.containers[0], image)],
              initContainers := Map(ImageSetter(image), pod.initContainers))
  }

  /** The image of the CR overrides every container of the pod. */
  function SpecImage(pod: PodV, image: Option<string>): PodV {
    if image.None? then pod
    else pod.(containers := Map(ImageSetter(image.value), pod.containers),
              initContainers := Map(ImageSetter(image.value), pod.initContainers),
              ephemeral := Map(ImageSetter(image.value), pod.ephemeral))
  }

  function DbEnvImage(pod: PodV, image: string): PodV
    requires pod.containers != []
  {
    if image == "" then pod else pod.(containers := pod.containers[0 := WithImage(pod.containers[0], image)])
  }

  /** setRoute starts from an empty route, whatever route.yaml holds. */
  function SpecifiedRoute(route: Route): ObjectV {
    ObjectV(Meta("", "", map[], map[], []), RouteBody(route.host, route.subdomain, route.tls, "", map[]), None)
  }

  function Given(inp: Inputs, kind: Kind): Option<ObjectV> {
    match ManifestOf(inp, kind)
    case Configured(o) => Some(o)
    case _ => None
  }

  /** Whether the kind ends up in the model, once its manifest is readable. */
  predicate IsPlaced(inp: Inputs, kind: Kind) {
    var given := Given(inp, kind).Some?;
    match kind
    case AppConfigKind | ConfigMapEnvsKind | ConfigMapFilesKind | SecretEnvsKind | SecretFilesKind => given
    case DeploymentKind | ServiceKind => given
    case DbSecretKind | DbServiceKind | DbStatefulSetKind => given && inp.spec.IsLocalDbEnabled()
    case DynamicPluginsKind => given && inp.spec.PluginsName() == ""
    case RouteKind => inp.operator.isOpenShift && (given || inp.spec.IsRouteEnabled())
  }

  /** Whether the kind alone makes InitObjects fail in its first phase. */
  predicate IsMissing(inp: Inputs, kind: Kind) {
    || ManifestOf(inp, kind).Unreadable?
    || (kind in {DeploymentKind, ServiceKind} && Given(inp, kind).None?)
    || (kind in {DbServiceKind, DbStatefulSetKind} && inp.spec.IsLocalDbEnabled() && Given(inp, kind).None?)
  }

  /** The route is taken from the CR unless the CR gives host, subdomain and TLS together. */
  predicate RouteFromSpec(inp: Inputs) {
    inp.spec.IsRouteEnabled() && !inp.spec.IsRouteEmpty()
  }

  /**
   What the operator needs of readable manifests so as not to dereference a nil pointer or index an empty slice:
   decoded types, a container and a selector in each workload, a port when credentials are generated,
   a route.yaml when the CR's route is not taken from the CR, and no other controller on an object to be owned.
   */
  ghost predicate Usable(inp: Inputs) {
    && (forall kind :: Given(inp, kind).Some? ==> HasShape(kind, Given(inp, kind).value))
    && (forall kind :: kind in {DeploymentKind, DbStatefulSetKind} && Given(inp, kind).Some? ==>
          && Given(inp, kind).value.pod.value.containers != []
          && Given(inp, kind).value.body.matchLabels.Some?)
    && (Generates(inp) && Given(inp, DbServiceKind).Some? ==> Given(inp, DbServiceKind).value.body.ports != [])
    && (IsPlaced(inp, RouteKind) ==> RouteFromSpec(inp) || Given(inp, RouteKind).Some?)
    && (inp.operator.ownsRuntime ==>
          forall kind :: IsPlaced(inp, kind) && !(kind == RouteKind && RouteFromSpec(inp)) ==>
            CanControl(Given(inp, kind).value.meta.owners, inp.name))
  }

  /** Credentials are generated for a placed DB secret unless the CR names an auth secret. */
  predicate Generates(inp: Inputs) {
    IsPlaced(inp, DbSecretKind) && !inp.spec.IsAuthSecretSpecified()
  }

  /** addToModel, for a kind that is placed. */
  function Added(inp: Inputs, kind: Kind): ObjectV
    requires IsPlaced(inp, kind)
    requires Usable(inp)
  {
    match kind
    case RouteKind =>
      if RouteFromSpec(inp) then SpecifiedRoute(inp.spec.application.value.route.value)
      else Given(inp, kind).value
    case DeploymentKind =>
      var o := Given(inp, kind).value;
      o.(pod := Some(EnvImage(o.pod.value, inp.operator.backstageImage)))
    case DbStatefulSetKind =>
      var o := Given(inp, kind).value;
      o.(pod := Some(DbEnvImage(o.pod.value, inp.operator.dbImage)))
    case _ => Given(inp, kind).value
  }

  function SetKubeLabels(labels: Labels, backstageName: string): Labels {
    labels["app.kubernetes.io/name" := "backstage"]["app.kubernetes.io/instance" := backstageName]
  }

  /** The selectors that setMetaInfo writes into the body. */
  function Labelled(kind: Kind, body: Body, backstageName: string): Body
    requires body.WorkloadBody? ==> body.matchLabels.Some?
  {
    var value := if kind in {DbServiceKind, DbStatefulSetKind} then DbAppLabel(backstageName)
                 else AppLabel(backstageName);
    match body
    case ServiceBody(_, _, _) => body.(selector := body.selector[APP_LABEL := value])
    case WorkloadBody(_, _, _, _) =>
      body.(podLabels := body.podLabels[APP_LABEL := value],
            matchLabels := Some(body.matchLabels.value[APP_LABEL := value]))
    case _ => body
  }

  /** setMetaInfo: the generated name, the CR's namespace, labels, selectors and owner. */
  function WithMetaInfo(inp: Inputs, kind: Kind, o: ObjectV): ObjectV
    requires o.body.WorkloadBody? ==> o.body.matchLabels.Some?
  {
    o.(meta := o.meta.(name := RuntimeName(kind, inp.name),
                       namespace := inp.namespace,
                       labels := SetKubeLabels(o.meta.labels, inp.name),
                       owners := if inp.operator.ownsRuntime then WithOwner(o.meta.owners, ControllerRef(inp.name))
                                 else o.meta.owners),
       body := Labelled(kind, o.body, inp.name))
  }

  /** The object of a placed kind after phase one. */
  function PhaseOne(inp: Inputs, kind: Kind): (o: ObjectV)
    requires IsPlaced(inp, kind)
    requires Usable(inp)
    ensures HasShape(kind, o)
    ensures o.meta.name == RuntimeName(kind, inp.name) && o.meta.namespace == inp.namespace
    ensures kind in {DeploymentKind, DbStatefulSetKind} ==> o.pod.value.containers != []
  {
    WithMetaInfo(inp, kind, Added(inp, kind))
  }

  function PlacedKinds(inp: Inputs, registry: seq<Kind>): seq<Kind> {
    Filter((kind: Kind) => IsPlaced(inp, kind), registry)
  }

  /** The six kinds whose objects contribute to the Backstage pod. */
  function DefaultContribution(kind: Kind, o: ObjectV): Option<Contribution>
    requires HasShape(kind, o)
  {
    match kind
    case AppConfigKind => Some(AppConfigC(o.meta.name, o.body.data, DEFAULT_MOUNT_DIR, ""))
    case ConfigMapFilesKind => Some(FilesC(ConfigMapObject, o.meta.name, o.body.data, DEFAULT_MOUNT_DIR, ""))
    case SecretFilesKind => Some(FilesC(SecretObject, o.meta.name, o.body.stringData, DEFAULT_MOUNT_DIR, ""))
    case ConfigMapEnvsKind => Some(EnvsC(ConfigMapObject, o.meta.name, ""))
    case SecretEnvsKind => Some(EnvsC(SecretObject, o.meta.name, ""))
    case DynamicPluginsKind => Some(PluginsC(o.meta.name, o.body.data))
    case _ => None
  }

  /** The working directory of the dynamic plugins' init container in the deployment manifest. */
  function DirOfPlugins(inp: Inputs): Option<string> {
    if Given(inp, DeploymentKind).Some? && Given(inp, DeploymentKind).value.pod.Some?
    then PluginsDir(Given(inp, DeploymentKind).value.pod.value.initContainers) else None
  }

  function DefaultDelta(inp: Inputs, kind: Kind): Delta
    requires Usable(inp)
  {
    if !IsPlaced(inp, kind) then NOTHING else
      var c := DefaultContribution(kind, PhaseOne(inp, kind));
      if c.None? then NOTHING else DeltaOf(c.value, Default(kind), inp.order, DirOfPlugins(inp))
  }

  function DirOr(mountPath: string): string {
    if mountPath != "" then mountPath else DEFAULT_MOUNT_DIR
  }

  /** Secrets are not read: the wrapper claims a single key, the one the CR gives. */
  function SecretFile(r: ObjectKeyRef, dir: string): Contribution {
    FilesC(SecretObject, r.name, Some(map[r.key := ""]), dir, r.key)
  }

  /** The contribution of entry i of one of the lists in the CR. The list is named by the kind of its wrapper. */
  function ListedContribution(inp: Inputs, list: Kind, refs: seq<ObjectKeyRef>, dir: string, i: nat): Contribution
    requires i < |refs|
  {
    var r := refs[i];
    match list
    case AppConfigKind =>
      var cm := Lookup(inp.ext.appConfigs, r.name); AppConfigC(cm.name, cm.data, dir, r.key)
    case ConfigMapFilesKind =>
      var cm := Lookup(inp.ext.extraFileConfigMaps, r.name); FilesC(ConfigMapObject, cm.name, cm.data, dir, r.key)
    case ConfigMapEnvsKind =>
      var cm := Lookup(inp.ext.extraEnvConfigMaps, r.name); EnvsC(ConfigMapObject, cm.name, r.key)
    case SecretFilesKind => SecretFile(r, dir)
    case _ => EnvsC(SecretObject, r.name, r.key)
  }

  function ListedDeltas(inp: Inputs, list: Kind, refs: seq<ObjectKeyRef>, dir: string): seq<Delta> {
    seq(|refs|, i requires 0 <= i < |refs| =>
      DeltaOf(ListedContribution(inp, list, refs, dir, i), Listed(list, i), inp.order, DirOfPlugins(inp)))
  }

  /** The references of a list in the CR, and the directory they are mounted under. */
  function RefsOf(spec: BackstageSpec, list: Kind): seq<ObjectKeyRef> {
    if spec.application.None? then [] else
      var app := spec.application.value;
      match list
      case AppConfigKind => if app.appConfig.None? then [] else app.appConfig.value.configMaps
      case ConfigMapFilesKind => if app.extraFiles.None? then [] else app.extraFiles.value.configMaps
      case ConfigMapEnvsKind => if app.extraEnvs.None? then [] else app.extraEnvs.value.configMaps
      case SecretFilesKind => if app.extraFiles.None? then [] else app.extraFiles.value.secrets
      case SecretEnvsKind => if app.extraEnvs.None? then [] else app.extraEnvs.value.secrets
      case _ => []
  }

  function DirOf(spec: BackstageSpec, list: Kind): string {
    if spec.application.None? then DEFAULT_MOUNT_DIR else
      var app := spec.application.value;
      match list
      case AppConfigKind =>
        if app.appConfig.None? then DEFAULT_MOUNT_DIR else DirOr(app.appConfig.value.mountPath)
      case ConfigMapFilesKind | SecretFilesKind =>
        if app.extraFiles.None? then DEFAULT_MOUNT_DIR else DirOr(app.extraFiles.value.mountPath)
      case _ => DEFAULT_MOUNT_DIR
  }

  function ListBlock(inp: Inputs, list: Kind): seq<Delta> {
    ListedDeltas(inp, list, RefsOf(inp.spec, list), DirOf(inp.spec, list))
  }

  function EnvValues(envs: seq<Env>): seq<EnvVar> {
    Map((e: Env) => EnvValue(e.name, e.value), envs)
  }

  /** The plain variables of the CR. */
  function EnvDelta(spec: BackstageSpec): Delta {
    if spec.application.Some? && spec.application.value.extraEnvs.Some?
    then NOTHING.(env := EnvValues(spec.application.value.extraEnvs.value.envs)) else NOTHING
  }

  /** The CR's own dynamic plugins. */
  function PluginsDelta(inp: Inputs): Delta {
    if inp.spec.PluginsName() == "" then NOTHING
    else DeltaOf(PluginsC(inp.ext.dynamicPlugins.name, inp.ext.dynamicPlugins.data),
                 Listed(DynamicPluginsKind, 0), inp.order, DirOfPlugins(inp))
  }

  /** The environment from the DB secret, in the Backstage and in the database container. */
  function DbDelta(inp: Inputs): Delta {
    if IsPlaced(inp, DbSecretKind)
    then NOTHING.(envFrom := [EnvFromSource(SecretObject, RuntimeName(DbSecretKind, inp.name))]) else NOTHING
  }

  function DefaultDeltas(inp: Inputs, kinds: seq<Kind>): seq<Delta>
    requires Usable(inp)
  {
    Map((kind: Kind) requires Usable(inp) => DefaultDelta(inp, kind), kinds)
  }

  /** Everything appended to the Backstage pod, block by block: plain variables, defaults, then the lists of the CR. */
  function Blocks(inp: Inputs, registry: seq<Kind>): seq<Delta>
    requires Usable(inp)
  {
    [EnvDelta(inp.spec)] + DefaultDeltas(inp, PlacedKinds(inp, registry))
    + ListBlock(inp, AppConfigKind) + ListBlock(inp, ConfigMapFilesKind) + ListBlock(inp, ConfigMapEnvsKind)
    + ListBlock(inp, SecretFilesKind) + ListBlock(inp, SecretEnvsKind)
    + [PluginsDelta(inp), DbDelta(inp)]
  }

  /** setReplicas, setImagePullSecrets and setImage on the deployment of phase one. */
  function PodOfSpec(inp: Inputs): (pod: PodV)
    requires Usable(inp) && IsPlaced(inp, DeploymentKind)
    ensures pod.containers != []
  {
    var pod := PhaseOne(inp, DeploymentKind).pod.value;
    if inp.spec.application.None? then pod else
      var app := inp.spec.application.value;
      SpecImage(pod.(pullSecrets := pod.pullSecrets + app.imagePullSecrets), app.image)
  }

  function FinalDeployment(inp: Inputs, registry: seq<Kind>): ObjectV
    requires Usable(inp) && IsPlaced(inp, DeploymentKind)
  {
    var o := PhaseOne(inp, DeploymentKind);
    o.(body := if inp.spec.application.Some? && inp.spec.application.value.replicas.Some?
               then o.body.(replicas := inp.spec.application.value.replicas) else o.body,
       pod := Some(Extended(PodOfSpec(inp), Sum(Blocks(inp, registry)))))
  }

  function Digits(n: nat): string {
    if n < 10 then ['0' + n as char] else Digits(n / 10) + ['0' + (n % 10) as char]
  }

  /** strconv.FormatInt in base 10. */
  function Decimal(n: int): string {
    if n < 0 then "-" + Digits(-n) else Digits(n)
  }

  function Credentials(password: string, host: string, port: int): map<string, string> {
    map["POSTGRES_PASSWORD" := password, "POSTGRESQL_ADMIN_PASSWORD" := password, "POSTGRES_USER" := "postgres",
        "POSTGRES_HOST" := host, "POSTGRES_PORT" := Decimal(port)]
  }

  /** No kind makes phase one fail. */
  ghost predicate Ready(inp: Inputs) {
    forall kind :: !IsMissing(inp, kind)
  }

  /** The object of a placed kind after validate. */
  function PhaseTwo(inp: Inputs, registry: seq<Kind>, kind: Kind): (o: ObjectV)
    requires Usable(inp) && Ready(inp) && IsPlaced(inp, kind)
    ensures HasShape(kind, o)
    ensures o.meta == PhaseOne(inp, kind).meta
  {
    assert !IsMissing(inp, DeploymentKind) && !IsMissing(inp, ServiceKind) && !IsMissing(inp, DbServiceKind);
    var o := PhaseOne(inp, kind);
    match kind
    case DeploymentKind => FinalDeployment(inp, registry)
    case DbSecretKind =>
      if !Generates(inp) then o else
        var service := PhaseOne(inp, DbServiceKind);
        o.(body := o.body.(stringData :=
             Some(Credentials(inp.password, service.meta.name, service.body.ports[0]))))
    case DbStatefulSetKind =>
      if IsPlaced(inp, DbSecretKind) then o.(pod := Some(Extended(o.pod.value, DbDelta(inp)))) else o
    case RouteKind => o.(body := o.body.(toName := PhaseOne(inp, ServiceKind).meta.name))
    case _ => o
  }

  predicate Keyless(r: ObjectKeyRef) { r.key == "" }

  ghost predicate KeyMissing(refs: seq<ObjectKeyRef>) {
    exists r :: r in refs && Keyless(r)
  }

  /** A secret mounted as a file needs a key; dynamic plugins need their init container. */
  ghost predicate PhaseTwoFails(inp: Inputs) {
    || KeyMissing(RefsOf(inp.spec, SecretFilesKind))
    || ((inp.spec.PluginsName() != "" || IsPlaced(inp, DynamicPluginsKind)) && DirOfPlugins(inp).None?)
  }

  datatype RuntimeObjectV = RuntimeObjectV(kind: Kind, value: ObjectV)

  function Itself(kind: Kind): Kind { kind }

  function SortedKinds(kinds: seq<Kind>): seq<Kind> {
    Sorted(Itself, kinds)
  }

  lemma SortedPlaced(inp: Inputs, registry: seq<Kind>)
    ensures forall kind :: kind in SortedKinds(PlacedKinds(inp, registry)) <==> kind in registry && IsPlaced(inp, kind)
  {
    SortedMembers(Itself, PlacedKinds(inp, registry));
    FilterMembers((kind: Kind) => IsPlaced(inp, kind), registry);
  }

  /** The objects in the order in which they are applied. */
  ghost function Built(inp: Inputs, registry: seq<Kind>): seq<RuntimeObjectV>
    requires Usable(inp) && Ready(inp)
  {
    SortedPlaced(inp, registry);
    var kinds := SortedKinds(PlacedKinds(inp, registry));
    seq(|kinds|, i requires 0 <= i < |kinds| => RuntimeObjectV(kinds[i], PhaseTwo(inp, registry, kinds[i])))
  }

  ghost predicate Succeeds(inp: Inputs)
    requires Usable(inp)
  {
    Ready(inp) && !PhaseTwoFails(inp)
  }
}
