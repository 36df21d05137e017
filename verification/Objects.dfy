/** Kubernetes objects as values, and the inputs from which the model is built. */
module Objects {
  import opened BackstageApi
  import opened MergePatch
  import opened Names
  import opened Pods
  import opened Wrappers

  /** Maps of labels: a nil map reads as an empty one, and the code allocates before it writes. */
  type Labels = map<string, string>

  /** An owner reference: the owner's group and kind, its name, and whether it is the controller. */
  datatype OwnerRef = OwnerRef(kind: string, name: string, controller: bool)

  datatype Meta = Meta(name: string, namespace: string, labels: Labels, annotations: Labels, owners: seq<OwnerRef>)

  const BACKSTAGE_KIND := "Backstage.rhdh.redhat.com"

  /** The reference that makes a CR the controller of an object. */
  function ControllerRef(backstageName: string): OwnerRef { OwnerRef(BACKSTAGE_KIND, backstageName, true) }

  predicate SameOwner(a: OwnerRef, b: OwnerRef) { a.kind == b.kind && a.name == b.name }

  /** metav1.GetControllerOf: the first reference that is marked as the controller. */
  function ControllerOf(owners: seq<OwnerRef>): Option<OwnerRef> {
    if owners == [] then None
    else if owners[0].controller then Some(owners[0])
    else ControllerOf(owners[1..])
  }

  /** SetControllerReference fails, and the operator panics, on an object that something else controls. */
  predicate CanControl(owners: seq<OwnerRef>, backstageName: string) {
    var c := ControllerOf(owners);
    c.Some? ==> SameOwner(c.value, ControllerRef(backstageName))
  }

  /** The reference replaces the first one to the same owner, or is appended. */
  function WithOwner(owners: seq<OwnerRef>, ref: OwnerRef): seq<OwnerRef> {
    if owners == [] then [ref]
    else if SameOwner(owners[0], ref) then [ref] + owners[1..]
    else [owners[0]] + WithOwner(owners[1..], ref)
  }

  function OtherOwners(owners: seq<OwnerRef>, ref: OwnerRef): seq<OwnerRef> {
    if owners == [] then []
    else (if SameOwner(owners[0], ref) then [] else [owners[0]]) + OtherOwners(owners[1..], ref)
  }

  /** The CR becomes the one controller, and owners that the manifest names stay. */
  lemma {:induction false} OneController(owners: seq<OwnerRef>, backstageName: string)
    requires CanControl(owners, backstageName)
    ensures var ref := ControllerRef(backstageName);
            var after := WithOwner(owners, ref);
            ControllerOf(after) == Some(ref) && OtherOwners(after, ref) == OtherOwners(owners, ref)
  {
    if owners != [] && !SameOwner(owners[0], ControllerRef(backstageName)) {
      OneController(owners[1..], backstageName);
    }
  }

  /** What the operator reads or writes in each API kind; rest stands for all other fields. */
  datatype Body =
    | ConfigMapBody(data: Data)
    | SecretBody(stringData: Data, rest: map<string, Json>)
    | ServiceBody(selector: Labels, ports: seq<int>, rest: map<string, Json>)
    | RouteBody(host: string, subdomain: string, tls: Option<TLS>, toName: string, rest: map<string, Json>)
    | WorkloadBody(replicas: Option<int>, matchLabels: Option<Labels>, podLabels: Labels, rest: map<string, Json>)

  datatype ObjectV = ObjectV(meta: Meta, body: Body, pod: Option<PodV>)

  /** What decoding into the Go type of this kind can yield. */
  predicate HasShape(kind: Kind, o: ObjectV) {
    && (match ApiKindOf(kind)
        case ConfigMaps => o.body.ConfigMapBody?
        case Secrets => o.body.SecretBody?
        case Services => o.body.ServiceBody?
        case Routes => o.body.RouteBody?
        case Deployments | StatefulSets => o.body.WorkloadBody?)
    && (o.body.WorkloadBody? <==> o.pod.Some?)
  }

  /** The manifest of a kind after the default file and the overlay are decoded. */
  datatype Manifest = Unreadable | NotConfigured | Configured(manifest: ObjectV)

  datatype ConfigMapV = ConfigMapV(name: string, data: Data)

  const ZERO_CONFIG_MAP := ConfigMapV("", None)

  datatype ExternalConfig = ExternalConfig(
    rawConfig: map<string, string>,
    appConfigs: map<string, ConfigMapV>,
    extraFileConfigMaps: map<string, ConfigMapV>,
    extraEnvConfigMaps: map<string, ConfigMapV>,
    dynamicPlugins: ConfigMapV)

  const NO_EXTERNAL := ExternalConfig(map[], map[], map[], map[], ZERO_CONFIG_MAP)

  /** Reading a Go map: a missing entry is the zero value. */
  function Lookup(m: map<string, ConfigMapV>, name: string): ConfigMapV {
    if name in m then m[name] else ZERO_CONFIG_MAP
  }

  /** The key of a kind in the default configuration and in the raw configuration. */
  function ConfigFile(kind: Kind): string {
    match kind
    case AppConfigKind => "app-config.yaml"
    case ConfigMapEnvsKind => "configmap-envs.yaml"
    case ConfigMapFilesKind => "configmap-files.yaml"
    case DbSecretKind => "db-secret.yaml"
    case DbServiceKind => "db-service.yaml"
    case DbStatefulSetKind => "db-statefulset.yaml"
    case DeploymentKind => "deployment.yaml"
    case DynamicPluginsKind => "dynamic-plugins.yaml"
    case RouteKind => "route.yaml"
    case SecretEnvsKind => "secret-envs.yaml"
    case SecretFilesKind => "secret-files.yaml"
    case ServiceKind => "service.yaml"
  }

  /**
   The operator's settings: the decoder of default files and overlays, the two image
   variables of its environment ("" when unset), ownership and the platform.
   */
  datatype Operator = Operator(
    load: (Kind, Option<string>) -> Manifest,
    backstageImage: string,
    dbImage: string,
    ownsRuntime: bool,
    isOpenShift: bool)

  /** Everything InitObjects depends on; password and order differ from call to call. */
  datatype Inputs = Inputs(
    namespace: string, name: string, spec: BackstageSpec,
    ext: ExternalConfig, operator: Operator, password: string, order: Order)

  function ManifestOf(inp: Inputs, kind: Kind): Manifest {
    var file := ConfigFile(kind);
    inp.operator.load(kind, if file in inp.ext.rawConfig then Some(inp.ext.rawConfig[file]) else None)
  }

  /** A twelve-fold registry: every kind once, in any order. */
  ghost predicate IsRegistry(registry: seq<Kind>) {
    && (forall kind: Kind :: kind in registry)
    && (forall i, j :: 0 <= i < j < |registry| ==> registry[i] != registry[j])
  }

  const ALL_KINDS: set<Kind> := {
    AppConfigKind, ConfigMapEnvsKind, ConfigMapFilesKind, DbSecretKind, DbServiceKind, DbStatefulSetKind,
    DeploymentKind, DynamicPluginsKind, RouteKind, SecretEnvsKind, SecretFilesKind, ServiceKind}

  /** The order in which Go runs the init functions of the package: by file name. */
  const REGISTRY: seq<Kind> := [
    AppConfigKind, ConfigMapEnvsKind, ConfigMapFilesKind, DbSecretKind, DbServiceKind, DbStatefulSetKind,
    DeploymentKind, DynamicPluginsKind, RouteKind, SecretEnvsKind, SecretFilesKind, ServiceKind]
}
