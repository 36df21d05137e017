/** validate of the DB secret, the DB StatefulSet, the dynamic plugins and the route. */
module Validators {
  import opened Builder
  import opened DeploymentPod
  import opened KubeObjects
  import opened Names
  import opened Objects
  import opened PodMutator
  import opened Pods
  import opened Validation
  import opened Wrappers

  /** The value of a placed kind's object, before and after its validate has run. */
  ghost predicate Stage(inp: Inputs, registry: seq<Kind>, kind: Kind, done: bool, v: ObjectV) {
    && Usable(inp) && Ready(inp) && IsPlaced(inp, kind)
    && v == if done then PhaseTwo(inp, registry, kind) else PhaseOne(inp, kind)
  }

  /** What no validate changes, whichever of them have run. */
  lemma StageKeeps(inp: Inputs, registry: seq<Kind>, kind: Kind, done: bool, v: ObjectV)
    requires Stage(inp, registry, kind, done, v)
    ensures HasShape(kind, v) && v.meta == PhaseOne(inp, kind).meta
    ensures kind !in {DeploymentKind, DbSecretKind, DbStatefulSetKind, RouteKind} ==> v == PhaseOne(inp, kind)
    ensures kind == DeploymentKind ==> PluginsDir(v.pod.value.initContainers) == DirOfPlugins(inp)
  {
    if kind == DeploymentKind {
      FirstPodDir(inp);
      ExtendedKeepsDir(PodOfSpec(inp), Sum(Blocks(inp, registry)));
    }
  }

  /** DbSecret.validate */
  method ValidateDbSecret(inp: Inputs, obj: KubeObject, service: RuntimeObject?, ghost registry: seq<Kind>)
    requires obj.Valid() && Stage(inp, registry, DbSecretKind, false, obj.Value())
    requires IsPlaced(inp, DbServiceKind) && service != null && Shows(service, PhaseOne(inp, DbServiceKind))
    modifies obj`body
    ensures Stage(inp, registry, DbSecretKind, true, obj.Value())
  {
    if inp.spec.IsAuthSecretSpecified() || !inp.spec.IsLocalDbEnabled() {
      return;
    }
    var pswd := inp.password;
    obj.body := obj.body.(stringData := Some(map[
      "POSTGRES_PASSWORD" := pswd,
      "POSTGRESQL_ADMIN_PASSWORD" := pswd,
      "POSTGRES_USER" := "postgres",
      "POSTGRES_HOST" := service.obj.meta.name,
      "POSTGRES_PORT" := Decimal(service.obj.body.ports[0])]));
  }

  /** setDbEnvsFromSecret: the append goes through a copy of the pod struct and reaches the pod. */
  method SetDbEnvsFromSecret(pod: PodSpec, name: string)
    requires pod.Valid() && pod.containers != []
    modifies pod.Footprint()
    ensures pod.Value() == Extended(old(pod.Value()), NOTHING.(envFrom := [EnvFromSource(SecretObject, name)]))
  {
    ghost var was := pod.Value();
    FirstsAreApart(pod);
    var podSpec := new PodSpec.Copy(pod);
    var container := podSpec.containers[0];
    container.envFrom := container.envFrom + [EnvFromSource(SecretObject, name)];
    AppendsExtend(pod, was, NOTHING.(envFrom := [EnvFromSource(SecretObject, name)]));
  }

  /** DbStatefulSet.validate */
  method ValidateDbStatefulSet(inp: Inputs, obj: KubeObject, dbSecret: RuntimeObject?, ghost registry: seq<Kind>)
    requires obj.Valid() && Stage(inp, registry, DbStatefulSetKind, false, obj.Value())
    requires dbSecret == null <==> !IsPlaced(inp, DbSecretKind)
    requires dbSecret != null ==>
               dbSecret.obj != null && dbSecret.obj.meta.name == RuntimeName(DbSecretKind, inp.name)
    modifies obj.Footprint()
    ensures Stage(inp, registry, DbStatefulSetKind, true, obj.Value())
  {
    if dbSecret != null {
      SetDbEnvsFromSecret(obj.pod, dbSecret.obj.meta.name);
    }
  }

  /** DynamicPlugins.validate: the image is written to a copy of the init container, so the pod does not change. */
  method ValidateDynamicPlugins(inp: Inputs, pod: PodSpec) returns (failed: bool)
    requires PluginsDir(pod.Value().initContainers) == DirOfPlugins(inp)
    ensures failed <==> DirOfPlugins(inp).None?
  {
    var initContainer := DynamicPluginsInitContainer(pod.initContainers);
    if initContainer == null {
      return true;
    }
    if inp.operator.backstageImage != "" {
      initContainer.image := inp.operator.backstageImage;
    }
    return false;
  }

  /** BackstageRoute.validate */
  method ValidateRoute(inp: Inputs, obj: KubeObject, service: RuntimeObject?, ghost registry: seq<Kind>)
    requires obj.Valid() && Stage(inp, registry, RouteKind, false, obj.Value())
    requires service != null && service.obj != null && service.obj.meta.name == RuntimeName(ServiceKind, inp.name)
    modifies obj`body
    ensures Stage(inp, registry, RouteKind, true, obj.Value())
  {
    obj.body := obj.body.(toName := service.obj.meta.name);
  }
}
