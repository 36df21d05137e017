/** addToModel and setMetaInfo of the twelve wrapper types, each against what PhaseOne says of its kind. */
module PhaseOneHeap {
  import opened Builder
  import opened DeploymentPod
  import opened KubeObjects
  import opened Names
  import opened Objects
  import opened PodMutator
  import opened Wrappers

  /** A wrapper that holds the decoded manifest of its kind, or nil. */
  ghost predicate Decoded(inp: Inputs, r: RuntimeObject)
    reads r, r.Footprint()
  {
    if r.obj == null then Given(inp, r.kind).None?
    else r.obj.Valid() && Given(inp, r.kind) == Some(r.obj.Value())
  }

  ghost predicate Holds(r: RuntimeObject, v: ObjectV)
    reads r, r.Footprint()
  {
    r.obj != null && r.obj.Valid() && r.obj.Value() == v
  }

  /** BackstageDeployment.addToModel */
  method AddDeployment(inp: Inputs, r: RuntimeObject) returns (failed: bool)
    requires Usable(inp) && Decoded(inp, r) && r.kind == DeploymentKind
    modifies r.Footprint()
    ensures r.obj == old(r.obj)
    ensures failed <==> !IsPlaced(inp, r.kind)
    ensures !failed ==> Holds(r, Added(inp, r.kind))
  {
    if r.obj == null {
      return true;
    }
    OverrideImage(r.obj.pod, inp.operator.backstageImage);
    return false;
  }

  /** The write reaches the pod through a struct copy, whose slices are the pod's own. */
  method OverrideDbImage(pod: PodSpec, image: string)
    requires pod.Valid() && pod.containers != []
    modifies pod.Footprint()
    ensures pod.Value() == DbEnvImage(old(pod.Value()), image)
  {
    if image != "" {
      FirstsAreApart(pod);
      var podSpec := new PodSpec.Copy(pod);
      var container := podSpec.containers[0];
      container.image := image;
    }
  }

  /** DbStatefulSet.addToModel */
  method AddDbStatefulSet(inp: Inputs, localDbEnabled: bool, r: RuntimeObject) returns (added: bool, failed: bool)
    requires Usable(inp) && Decoded(inp, r) && r.kind == DbStatefulSetKind
    requires localDbEnabled == inp.spec.IsLocalDbEnabled()
    modifies r.Footprint()
    ensures r.obj == old(r.obj)
    ensures failed <==> localDbEnabled && Given(inp, r.kind).None?
    ensures added <==> IsPlaced(inp, r.kind)
    ensures added ==> Holds(r, Added(inp, r.kind))
  {
    if r.obj == null {
      return false, localDbEnabled;
    } else if !localDbEnabled {
      return false, false;
    }
    OverrideDbImage(r.obj.pod, inp.operator.dbImage);
    return true, false;
  }

  /** BackstageRoute.addToModel with setRoute, which drops whatever route.yaml gave. */
  method AddRoute(inp: Inputs, isOpenshift: bool, r: RuntimeObject) returns (added: bool)
    requires Usable(inp) && Decoded(inp, r) && r.kind == RouteKind && isOpenshift == inp.operator.isOpenShift
    modifies r
    ensures added <==> IsPlaced(inp, r.kind)
    ensures added ==> Holds(r, Added(inp, r.kind)) && (r.obj == old(r.obj) || fresh(r.obj.Footprint()))
    ensures !added ==> r.obj == old(r.obj)
  {
    if (r.obj == null && !inp.spec.IsRouteEnabled()) || !isOpenshift {
      return false;
    }
    if inp.spec.IsRouteEnabled() && !inp.spec.IsRouteEmpty() {
      var specified := inp.spec.application.value.route.value;
      r.obj := new KubeObject(Meta("", "", map[], map[], []),
                              RouteBody(specified.host, specified.subdomain, specified.tls, "", map[]), null);
    }
    return true;
  }

  /** addToModel of the kind, without the model's own pointer and list. */
  method AddToModel(inp: Inputs, localDbEnabled: bool, isOpenshift: bool, r: RuntimeObject)
    returns (added: bool, failed: bool)
    requires Usable(inp) && Decoded(inp, r) && !ManifestOf(inp, r.kind).Unreadable?
    requires localDbEnabled == inp.spec.IsLocalDbEnabled() && isOpenshift == inp.operator.isOpenShift
    modifies r.Footprint()
    ensures failed <==> IsMissing(inp, r.kind)
    ensures !failed ==> (added <==> IsPlaced(inp, r.kind))
    ensures !failed && added ==> Holds(r, Added(inp, r.kind)) && (r.obj == old(r.obj) || fresh(r.obj.Footprint()))
  {
    failed := false;
    match r.kind {
      case DeploymentKind =>
        failed := AddDeployment(inp, r);
        added := !failed;
      case ServiceKind =>
        failed := r.obj == null;
        added := !failed;
      case DbStatefulSetKind =>
        added, failed := AddDbStatefulSet(inp, localDbEnabled, r);
      case DbServiceKind =>
        added, failed := r.obj != null && localDbEnabled, r.obj == null && localDbEnabled;
      case DbSecretKind =>
        added := r.obj != null && localDbEnabled;
      case RouteKind =>
        added := AddRoute(inp, isOpenshift, r);
      case DynamicPluginsKind =>
        added := r.obj != null
                 && !(inp.spec.application.Some? && inp.spec.application.value.dynamicPluginsConfigMapName != "");
      case _ =>
        added := r.obj != null;
    }
  }

  /** SetKubeLabels fills the map in place. */
  method FillKubeLabels(obj: KubeObject, backstageName: string)
    modifies obj`meta
    ensures obj.meta == old(obj.meta).(labels := SetKubeLabels(old(obj.meta.labels), backstageName))
  {
    obj.meta := obj.meta.(labels := obj.meta.labels["app.kubernetes.io/name" := "backstage"]);
    obj.meta := obj.meta.(labels := obj.meta.labels["app.kubernetes.io/instance" := backstageName]);
  }

  /** GenerateLabel on the selectors and labels that the kind has. */
  method WriteSelectors(kind: Kind, obj: KubeObject, backstageName: string)
    requires obj.body.WorkloadBody? ==> obj.body.matchLabels.Some?
    modifies obj`body
    ensures obj.body == Labelled(kind, old(obj.body), backstageName)
  {
    var value := if kind in {DbServiceKind, DbStatefulSetKind} then DbAppLabel(backstageName)
                 else AppLabel(backstageName);
    match obj.body {
      case ServiceBody(selector, _, _) =>
        obj.body := obj.body.(selector := selector[APP_LABEL := value]);
      case WorkloadBody(_, matchLabels, podLabels, _) =>
        obj.body := obj.body.(podLabels := podLabels[APP_LABEL := value]);
        obj.body := obj.body.(matchLabels := Some(matchLabels.value[APP_LABEL := value]));
      case _ =>
    }
  }

  /** The setMetaInfo of the kind, then the generic one. */
  method SetMetaInfo(inp: Inputs, kind: Kind, obj: KubeObject)
    requires obj.Valid()
    requires obj.body.WorkloadBody? ==> obj.body.matchLabels.Some?
    requires inp.operator.ownsRuntime ==> CanControl(obj.meta.owners, inp.name)
    modifies obj
    ensures obj.Value() == WithMetaInfo(inp, kind, old(obj.Value()))
  {
    ghost var was := obj.meta;
    obj.meta := obj.meta.(name := RuntimeName(kind, inp.name));
    WriteSelectors(kind, obj, inp.name);
    obj.meta := obj.meta.(namespace := inp.namespace);
    FillKubeLabels(obj, inp.name);
    if inp.operator.ownsRuntime {
      obj.meta := obj.meta.(owners := WithOwner(obj.meta.owners, ControllerRef(inp.name)));
    }
    assert obj.meta == was.(name := RuntimeName(kind, inp.name), namespace := inp.namespace,
                            labels := SetKubeLabels(was.labels, inp.name),
                            owners := if inp.operator.ownsRuntime then WithOwner(was.owners, ControllerRef(inp.name))
                                      else was.owners);
    assert obj.pod != null ==> obj.pod.Value() == old(obj.pod.Value());
  }
}
