/** Small configurations of the operator, for the concrete inputs on which properties fail. */
module Samples {
  import opened BackstageApi
  import opened Builder
  import opened MergePatch
  import opened Names
  import opened Objects
  import opened Pods
  import opened Wrappers

  const NO_META := Meta("", "", map[], map[], [])

  /** A deployment with the init container that dynamic plugins need. */
  function SampleDeployment(): ObjectV {
    var init := ContainerV(PLUGINS_INIT_CONTAINER, "image", "", [], [], [], [], Null);
    var container := ContainerV("backstage", "image", "", [], [], [], [], Null);
    ObjectV(NO_META, WorkloadBody(None, Some(map[]), map[], map[]), Some(PodV([init], [container], [], [], [], Null)))
  }

  function SampleService(selector: Labels): ObjectV { ObjectV(NO_META, ServiceBody(selector, [], map[]), None) }

  function SampleConfigMap(data: Data): ObjectV { ObjectV(NO_META, ConfigMapBody(data), None) }

  /** The sample deployment and service, and, if there is one, the ConfigMap of a kind. */
  function SampleManifest(kind: Kind, selector: Labels, more: Option<(Kind, Data)>): Manifest {
    if kind == DeploymentKind then Configured(SampleDeployment())
    else if kind == ServiceKind then Configured(SampleService(selector))
    else if more.Some? && more.value.0 == kind then Configured(SampleConfigMap(more.value.1))
    else NotConfigured
  }

  /** Neither overlays nor images, not on OpenShift. */
  function SampleOperator(selector: Labels, more: Option<(Kind, Data)>): Operator {
    Operator((kind: Kind, overlay: Option<string>) => SampleManifest(kind, selector, more), "", "", false, false)
  }

  /** A CR without a local database. */
  function SampleSpec(application: Option<Application>): BackstageSpec {
    BackstageSpec(application, None, Some(Database(Some(false), "")))
  }

  function NoOrder(): Order { (site: Site, loop: Loop, keys: set<string>) => [] }

  /** Inputs with such an operator and such a CR, whose ConfigMap kind, if there is one, the CR does not replace. */
  ghost predicate IsSample(inp: Inputs, selector: Labels, more: Option<(Kind, Data)>) {
    && inp.operator == SampleOperator(selector, more)
    && inp.spec == SampleSpec(inp.spec.application)
    && (inp.spec.application.Some? ==> inp.spec.application.value.route.None?)
    && RefsOf(inp.spec, SecretFilesKind) == []
    && (more.Some? ==> ApiKindOf(more.value.0) == ConfigMaps && inp.spec.PluginsName() == "")
  }

  lemma SampleGiven(inp: Inputs, selector: Labels, more: Option<(Kind, Data)>, kind: Kind)
    requires IsSample(inp, selector, more)
    ensures ManifestOf(inp, kind) == SampleManifest(kind, selector, more) && !IsMissing(inp, kind)
    ensures IsPlaced(inp, kind) <==> kind in {DeploymentKind, ServiceKind} || (more.Some? && kind == more.value.0)
  {
  }

  lemma SampleShape(kind: Kind, selector: Labels, more: Option<(Kind, Data)>)
    requires more.Some? ==> ApiKindOf(more.value.0) == ConfigMaps
    ensures match SampleManifest(kind, selector, more)
            case Unreadable => false
            case NotConfigured => true
            case Configured(o) =>
              && HasShape(kind, o) && kind !in {DbServiceKind, DbStatefulSetKind, RouteKind}
              && (kind == DeploymentKind ==> o.pod.value.containers != [] && o.body.matchLabels.Some?)
  {
  }

  lemma SampleIsUsable(inp: Inputs, selector: Labels, more: Option<(Kind, Data)>)
    requires IsSample(inp, selector, more)
    ensures Usable(inp) && Ready(inp)
  {
    forall kind
      ensures ManifestOf(inp, kind) == SampleManifest(kind, selector, more) && !IsMissing(inp, kind)
      ensures IsPlaced(inp, kind) <==> kind in {DeploymentKind, ServiceKind} || (more.Some? && kind == more.value.0)
    {
      SampleGiven(inp, selector, more, kind);
    }
    forall kind ensures Given(inp, kind).Some? ==> HasShape(kind, Given(inp, kind).value) {
      SampleShape(kind, selector, more);
    }
    SampleShape(DeploymentKind, selector, more);
    SampleShape(DbStatefulSetKind, selector, more);
    SampleShape(DbServiceKind, selector, more);
  }

  /** The builder accepts them. */
  lemma SampleSucceeds(inp: Inputs, selector: Labels, more: Option<(Kind, Data)>)
    requires IsSample(inp, selector, more)
    ensures Usable(inp) && Succeeds(inp)
  {
    SampleIsUsable(inp, selector, more);
    SampleGiven(inp, selector, more, DeploymentKind);
    assert SampleDeployment().pod.value.initContainers[0].name == PLUGINS_INIT_CONTAINER;
  }
}
