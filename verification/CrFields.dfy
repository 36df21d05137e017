/** What the fields of a CR and the settings of the operator do to the built model, in their own terms. */
module CrFields {
  import opened BackstageApi
  import opened Builder
  import opened Contents
  import opened Names
  import opened Objects
  import opened Pods
  import opened Wrappers

  /** A local database unless the CR says no. */
  predicate WantsDatabase(spec: BackstageSpec) {
    spec.database.None? || spec.database.value.enableLocalDb != Some(false)
  }

  /** A route when the CR describes one, unless it says no. */
  predicate WantsRoute(spec: BackstageSpec) {
    spec.application.Some? && spec.application.value.route.Some?
    && spec.application.value.route.value.enabled != Some(false)
  }

  /** The route of the CR is complete: host, subdomain and TLS are all given. */
  predicate RouteComplete(spec: BackstageSpec)
    requires WantsRoute(spec)
  {
    var route := spec.application.value.route.value;
    route.host != "" && route.subdomain != "" && route.tls.Some? && route.tls.value != TLS("", "", "", "")
  }

  predicate NamesAuthSecret(spec: BackstageSpec) {
    spec.database.Some? && spec.database.value.authSecretName != ""
  }

  predicate NamesPlugins(spec: BackstageSpec) {
    spec.application.Some? && spec.application.value.dynamicPluginsConfigMapName != ""
  }

  predicate HasManifest(inp: Inputs, kind: Kind) { ManifestOf(inp, kind).Configured? }

  /** Which kinds a model holds, by the CR's fields: an if and only if for every kind. */
  lemma ContentsByFields(inp: Inputs, registry: seq<Kind>, kind: Kind)
    requires Usable(inp) && Ready(inp) && IsRegistry(registry)
    ensures Contains(inp, registry, kind) <==>
              match kind
              case DeploymentKind => true
              case ServiceKind => true
              case DbStatefulSetKind => WantsDatabase(inp.spec)
              case DbServiceKind => WantsDatabase(inp.spec)
              case DbSecretKind => WantsDatabase(inp.spec) && HasManifest(inp, DbSecretKind)
              case DynamicPluginsKind => !NamesPlugins(inp.spec) && HasManifest(inp, DynamicPluginsKind)
              case RouteKind => inp.operator.isOpenShift && (WantsRoute(inp.spec) || HasManifest(inp, RouteKind))
              case _ => HasManifest(inp, kind)
  {
    ExactContents(inp, registry, kind);
  }

  /** When credentials are generated. */
  lemma GeneratesByFields(inp: Inputs)
    ensures Generates(inp) <==> WantsDatabase(inp.spec) && HasManifest(inp, DbSecretKind) && !NamesAuthSecret(inp.spec)
  {
  }

  /** Some secret that the CR has mounted as files is given without a key. */
  ghost predicate SomeKeyMissing(spec: BackstageSpec) {
    && spec.application.Some? && spec.application.value.extraFiles.Some?
    && exists i :: 0 <= i < |spec.application.value.extraFiles.value.secrets|
                   && spec.application.value.extraFiles.value.secrets[i].key == ""
  }

  /** The deployment's manifest has the init container of dynamic plugins. */
  ghost predicate HasPluginsContainer(inp: Inputs) {
    && HasManifest(inp, DeploymentKind)
    && var pod := ManifestOf(inp, DeploymentKind).manifest.pod;
       pod.Some? && exists i :: 0 <= i < |pod.value.initContainers|
                                && pod.value.initContainers[i].name == "install-dynamic-plugins"
  }

  lemma {:induction false} PluginsDirFound(cs: seq<ContainerV>)
    ensures PluginsDir(cs).Some? <==> exists i :: 0 <= i < |cs| && cs[i].name == "install-dynamic-plugins"
    ensures forall i :: 0 <= i < |cs| && cs[i].name == "install-dynamic-plugins"
                        && (forall j :: 0 <= j < i ==> cs[j].name != "install-dynamic-plugins") ==>
              PluginsDir(cs) == Some(cs[i].workingDir)
  {
    if cs != [] {
      PluginsDirFound(cs[1..]);
      forall i | 0 <= i < |cs| && cs[i].name == "install-dynamic-plugins"
                 && (forall j :: 0 <= j < i ==> cs[j].name != "install-dynamic-plugins")
        ensures PluginsDir(cs) == Some(cs[i].workingDir)
      {
        if i > 0 {
          assert cs[0].name != "install-dynamic-plugins" && cs[1..][i - 1] == cs[i];
          assert forall j :: 0 <= j < i - 1 ==> cs[1..][j] == cs[j + 1];
        }
      }
      if i :| 0 <= i < |cs| && cs[i].name == "install-dynamic-plugins" {
        assert i > 0 ==> cs[1..][i - 1] == cs[i];
      }
      if i :| 0 <= i < |cs[1..]| && cs[1..][i].name == "install-dynamic-plugins" {
        assert cs[i + 1] == cs[1..][i];
      }
    }
  }

  lemma PluginsContainerFound(inp: Inputs)
    ensures DirOfPlugins(inp).Some? <==> HasPluginsContainer(inp)
  {
    if HasManifest(inp, DeploymentKind) && ManifestOf(inp, DeploymentKind).manifest.pod.Some? {
      PluginsDirFound(ManifestOf(inp, DeploymentKind).manifest.pod.value.initContainers);
    }
  }

  lemma KeyMissingByFields(spec: BackstageSpec)
    ensures KeyMissing(RefsOf(spec, SecretFilesKind)) <==> SomeKeyMissing(spec)
  {
    var refs := RefsOf(spec, SecretFilesKind);
    if r :| r in refs && Keyless(r) {
      var i :| 0 <= i < |refs| && refs[i] == r;
    }
    if SomeKeyMissing(spec) {
      var i :| 0 <= i < |spec.application.value.extraFiles.value.secrets|
               && spec.application.value.extraFiles.value.secrets[i].key == "";
      assert refs[i] in refs;
    }
  }

  /** When a model can be built, by manifests and fields. */
  lemma SucceedsByFields(inp: Inputs)
    requires Usable(inp)
    ensures Succeeds(inp) <==>
              && (forall kind :: !ManifestOf(inp, kind).Unreadable?)
              && HasManifest(inp, DeploymentKind) && HasManifest(inp, ServiceKind)
              && (WantsDatabase(inp.spec) ==> HasManifest(inp, DbStatefulSetKind) && HasManifest(inp, DbServiceKind))
              && !SomeKeyMissing(inp.spec)
              && (NamesPlugins(inp.spec) || HasManifest(inp, DynamicPluginsKind) ==> HasPluginsContainer(inp))
  {
    KeyMissingByFields(inp.spec);
    PluginsContainerFound(inp);
    ReadyByManifests(inp);
  }

  lemma ReadyByManifests(inp: Inputs)
    ensures Ready(inp) <==>
              && (forall kind :: !ManifestOf(inp, kind).Unreadable?)
              && HasManifest(inp, DeploymentKind) && HasManifest(inp, ServiceKind)
              && (WantsDatabase(inp.spec) ==> HasManifest(inp, DbStatefulSetKind) && HasManifest(inp, DbServiceKind))
  {
    if Ready(inp) {
      assert !IsMissing(inp, DeploymentKind) && !IsMissing(inp, ServiceKind);
      assert !IsMissing(inp, DbStatefulSetKind) && !IsMissing(inp, DbServiceKind);
      forall kind ensures !ManifestOf(inp, kind).Unreadable? {
        assert !IsMissing(inp, kind);
      }
    }
  }

  /** The overlay that raw configuration has under a file name. */
  function OverlayNamed(inp: Inputs, file: string): Option<string> {
    if file in inp.ext.rawConfig then Some(inp.ext.rawConfig[file]) else None
  }

  /** Which file overlays the manifest of which kind. */
  lemma OverlayFiles(inp: Inputs)
    ensures ManifestOf(inp, AppConfigKind) == inp.operator.load(AppConfigKind, OverlayNamed(inp, "app-config.yaml"))
    ensures ManifestOf(inp, ConfigMapEnvsKind)
         == inp.operator.load(ConfigMapEnvsKind, OverlayNamed(inp, "configmap-envs.yaml"))
    ensures ManifestOf(inp, ConfigMapFilesKind)
         == inp.operator.load(ConfigMapFilesKind, OverlayNamed(inp, "configmap-files.yaml"))
    ensures ManifestOf(inp, DbSecretKind) == inp.operator.load(DbSecretKind, OverlayNamed(inp, "db-secret.yaml"))
    ensures ManifestOf(inp, DbServiceKind) == inp.operator.load(DbServiceKind, OverlayNamed(inp, "db-service.yaml"))
    ensures ManifestOf(inp, DbStatefulSetKind)
         == inp.operator.load(DbStatefulSetKind, OverlayNamed(inp, "db-statefulset.yaml"))
  {
  }

  lemma MoreOverlayFiles(inp: Inputs)
    ensures ManifestOf(inp, DeploymentKind) == inp.operator.load(DeploymentKind, OverlayNamed(inp, "deployment.yaml"))
    ensures ManifestOf(inp, DynamicPluginsKind)
         == inp.operator.load(DynamicPluginsKind, OverlayNamed(inp, "dynamic-plugins.yaml"))
    ensures ManifestOf(inp, RouteKind) == inp.operator.load(RouteKind, OverlayNamed(inp, "route.yaml"))
    ensures ManifestOf(inp, SecretEnvsKind) == inp.operator.load(SecretEnvsKind, OverlayNamed(inp, "secret-envs.yaml"))
    ensures ManifestOf(inp, SecretFilesKind)
         == inp.operator.load(SecretFilesKind, OverlayNamed(inp, "secret-files.yaml"))
    ensures ManifestOf(inp, ServiceKind) == inp.operator.load(ServiceKind, OverlayNamed(inp, "service.yaml"))
  {
  }

  /** No two kinds share an overlay file. */
  lemma OverlayFilesDiffer(a: Kind, b: Kind)
    requires ConfigFile(a) == ConfigFile(b)
    ensures a == b
  {
  }

  // What is written into every object

  /** The metadata of a built object: the operator's name, namespace and labels over what the manifest says. */
  lemma BuiltMetadata(inp: Inputs, registry: seq<Kind>, kind: Kind)
    requires Usable(inp) && Ready(inp) && IsPlaced(inp, kind)
    requires !(kind == RouteKind && WantsRoute(inp.spec) && !RouteComplete(inp.spec))
    ensures HasManifest(inp, kind)
    ensures var meta, given := PhaseTwo(inp, registry, kind).meta, ManifestOf(inp, kind).manifest.meta;
            && meta.namespace == inp.namespace && meta.annotations == given.annotations
            && LabelsOfOperator(meta.labels, given.labels, inp.name)
            && (!inp.operator.ownsRuntime ==> meta.owners == given.owners)
            && (inp.operator.ownsRuntime ==>
                  var ref := OwnerRef("Backstage.rhdh.redhat.com", inp.name, true);
                  && ControllerOf(meta.owners) == Some(ref)
                  && OtherOwners(meta.owners, ref) == OtherOwners(given.owners, ref))
  {
    if inp.operator.ownsRuntime {
      OneController(ManifestOf(inp, kind).manifest.meta.owners, inp.name);
    }
  }

  /** The operator's two labels over the given ones. */
  ghost predicate LabelsOfOperator(labels: Labels, given: Labels, backstageName: string) {
    forall k ::
      if k == "app.kubernetes.io/name" then k in labels && labels[k] == "backstage"
      else if k == "app.kubernetes.io/instance" then k in labels && labels[k] == backstageName
      else (k in labels <==> k in given) && (k in labels ==> labels[k] == given[k])
  }

  /** A route that the CR describes is built from it alone, unless it is complete; then route.yaml is used instead. */
  lemma BuiltRoute(inp: Inputs, registry: seq<Kind>)
    requires Usable(inp) && Ready(inp) && IsPlaced(inp, RouteKind)
    ensures var o, service := PhaseTwo(inp, registry, RouteKind), inp.name + "-backstage";
            if WantsRoute(inp.spec) && !RouteComplete(inp.spec) then
              var route := inp.spec.application.value.route.value;
              && o.body == RouteBody(route.host, route.subdomain, route.tls, service, map[])
              && o.meta.annotations == map[] && LabelsOfOperator(o.meta.labels, map[], inp.name)
              && o.meta.namespace == inp.namespace
            else
              HasManifest(inp, RouteKind) && o.body == ManifestOf(inp, RouteKind).manifest.body.(toName := service)
  {
    assert !IsMissing(inp, ServiceKind);
    ServiceName(inp.name);
  }

  lemma ServiceName(n: string)
    ensures RuntimeName(ServiceKind, n) == n + "-backstage"
  {
    assert n + "-" + "backstage" == n + ("-" + "backstage");
  }

  /** The CR's replicas reach the Deployment. */
  lemma BuiltReplicas(inp: Inputs, registry: seq<Kind>)
    requires Usable(inp) && Ready(inp)
    ensures IsPlaced(inp, DeploymentKind) && HasManifest(inp, DeploymentKind)
    ensures var body := PhaseTwo(inp, registry, DeploymentKind).body;
            var given := ManifestOf(inp, DeploymentKind).manifest.body;
            && body.WorkloadBody? && given.WorkloadBody?
            && body.replicas == if inp.spec.application.Some? && inp.spec.application.value.replicas.Some?
                                then inp.spec.application.value.replicas else given.replicas
  {
    assert !IsMissing(inp, DeploymentKind);
  }

  /** The label that ties services to pods, spelled out. */
  lemma OperatorLabels(inp: Inputs, registry: seq<Kind>, kind: Kind)
    requires Usable(inp) && Ready(inp) && IsPlaced(inp, kind)
    ensures var body, app := PhaseTwo(inp, registry, kind).body, "backstage.io/app";
            && (kind == ServiceKind ==> app in body.selector && body.selector[app] == "backstage-" + inp.name)
            && (kind == DbServiceKind ==> app in body.selector && body.selector[app] == "backstage-db-" + inp.name)
            && (kind == DeploymentKind ==> app in body.podLabels && body.podLabels[app] == "backstage-" + inp.name)
            && (kind == DbStatefulSetKind ==>
                  app in body.podLabels && body.podLabels[app] == "backstage-db-" + inp.name)
            && (kind in {DeploymentKind, DbStatefulSetKind} ==>
                  body.matchLabels.Some? && app in body.matchLabels.value && app in body.podLabels
                  && body.matchLabels.value[app] == body.podLabels[app])
  {
  }

  lemma Dashed(n: string, t: string)
    ensures GenerateRuntimeObjectName(n, t) == n + ("-" + t)
  {
  }

  /** The keys of a CR's ConfigMaps, spelled out. */
  lemma ConfigMapKeys(ns: string, n: string)
    ensures KeyOf(AppConfigKind, ns, n) == Key(ConfigMaps, ns, n + "-backstage-appconfig")
    ensures KeyOf(ConfigMapEnvsKind, ns, n) == Key(ConfigMaps, ns, n + "-backstage-envs")
    ensures KeyOf(ConfigMapFilesKind, ns, n) == Key(ConfigMaps, ns, n + "-backstage-files")
    ensures KeyOf(DynamicPluginsKind, ns, n) == Key(ConfigMaps, ns, n + "-backstage-dynamic-plugins")
  {
    Dashed(n, "backstage-appconfig");
    Dashed(n, "backstage-envs");
    Dashed(n, "backstage-files");
    Dashed(n, "backstage-dynamic-plugins");
    DashedTypes();
    LongDashedTypes();
  }

  lemma DashedTypes()
    ensures "-" + "backstage-envs" == "-backstage-envs" && "-" + "backstage-files" == "-backstage-files"
    ensures "-" + "backstage-db" == "-backstage-db" && "-" + "backstage" == "-backstage"
  {
  }

  lemma LongDashedTypes()
    ensures "-" + "backstage-appconfig" == "-backstage-appconfig"
    ensures "-" + "backstage-dynamic-plugins" == "-backstage-dynamic-plugins"
  {
  }

  /** The keys of its other objects. */
  lemma OtherKeys(ns: string, n: string)
    ensures KeyOf(SecretEnvsKind, ns, n) == Key(Secrets, ns, n + "-backstage-envs")
    ensures KeyOf(SecretFilesKind, ns, n) == Key(Secrets, ns, n + "-backstage-files")
    ensures KeyOf(DbSecretKind, ns, n) == Key(Secrets, ns, n + "-backstage-db")
    ensures KeyOf(DbServiceKind, ns, n) == Key(Services, ns, n + "-backstage-db")
    ensures KeyOf(DbStatefulSetKind, ns, n) == Key(StatefulSets, ns, n + "-backstage-db")
    ensures KeyOf(DeploymentKind, ns, n) == Key(Deployments, ns, n + "-backstage")
    ensures KeyOf(ServiceKind, ns, n) == Key(Services, ns, n + "-backstage")
    ensures KeyOf(RouteKind, ns, n) == Key(Routes, ns, n + "-backstage")
  {
    Dashed(n, "backstage-envs");
    Dashed(n, "backstage-files");
    Dashed(n, "backstage-db");
    Dashed(n, "backstage");
    DashedTypes();
  }
}
