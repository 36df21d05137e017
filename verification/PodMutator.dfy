/**
 Pods on the heap and their mutators: containers are reached through pointers and appended to in place.
 Each mutator is proved to leave the pod that the function Extended of Pods describes.
 */
module PodMutator {
  import opened FilePaths
  import opened MergePatch
  import opened Pods
  import opened Seqs
  import opened Wrappers

  class Container {
    const name: string
    var image: string
    const workingDir: string
    var args: seq<string>
    var env: seq<EnvVar>
    var envFrom: seq<EnvFromSource>
    var mounts: seq<VolumeMount>
    const rest: Json

    constructor (v: ContainerV)
      ensures Value() == v
    {
      name, image, workingDir, args := v.name, v.image, v.workingDir, v.args;
      env, envFrom, mounts, rest := v.env, v.envFrom, v.mounts, v.rest;
    }

    function Value(): ContainerV
      reads this
    {
      ContainerV(name, image, workingDir, args, env, envFrom, mounts, rest)
    }
  }

  function Values(cs: seq<Container>): seq<ContainerV>
    reads cs
  {
    seq(|cs|, i requires 0 <= i < |cs| reads cs => cs[i].Value())
  }

  class PodSpec {
    const initContainers: seq<Container>
    const containers: seq<Container>
    const ephemeral: seq<Container>
    var volumes: seq<Volume>
    var pullSecrets: seq<string>
    const rest: Json

    constructor (v: PodV, initContainers: seq<Container>, containers: seq<Container>, ephemeral: seq<Container>)
      ensures this.initContainers == initContainers && this.containers == containers && this.ephemeral == ephemeral
      ensures volumes == v.volumes && pullSecrets == v.pullSecrets && rest == v.rest
    {
      this.initContainers, this.containers, this.ephemeral := initContainers, containers, ephemeral;
      volumes, pullSecrets, rest := v.volumes, v.pullSecrets, v.rest;
    }

    /** A Go struct copy: the slices of the copy are the slices of the original. */
    constructor Copy(other: PodSpec)
      ensures initContainers == other.initContainers && containers == other.containers && ephemeral == other.ephemeral
      ensures volumes == other.volumes && pullSecrets == other.pullSecrets && rest == other.rest
    {
      initContainers, containers, ephemeral := other.initContainers, other.containers, other.ephemeral;
      volumes, pullSecrets, rest := other.volumes, other.pullSecrets, other.rest;
    }

    /** Init, main and ephemeral containers. */
    function All(): seq<Container> { initContainers + containers + ephemeral }

    ghost function Footprint(): set<object> {
      {this as object} + (set i | 0 <= i < |initContainers| :: initContainers[i] as object)
      + (set i | 0 <= i < |containers| :: containers[i] as object)
      + (set i | 0 <= i < |ephemeral| :: ephemeral[i] as object)
    }

    ghost predicate Valid() { Distinct(All()) }

    function Value(): PodV
      reads Footprint()
    {
      assert forall i | 0 <= i < |initContainers| :: initContainers[i] in Footprint();
      assert forall i | 0 <= i < |containers| :: containers[i] in Footprint();
      assert forall i | 0 <= i < |ephemeral| :: ephemeral[i] in Footprint();
      PodV(Values(initContainers), Values(containers), Values(ephemeral), volumes, pullSecrets, rest)
    }
  }

  /** The first containers are objects of their own. */
  lemma FirstsAreApart(pod: PodSpec)
    requires pod.Valid()
    ensures pod.containers != [] ==> pod.containers[0] in pod.All()
    ensures pod.initContainers != [] ==> pod.initContainers[0] in pod.All()
    ensures pod.containers != [] && pod.initContainers != [] ==> pod.containers[0] != pod.initContainers[0]
    ensures pod.containers != [] ==>
              && (forall i | 1 <= i < |pod.containers| :: pod.containers[i] != pod.containers[0])
              && (forall i | 0 <= i < |pod.initContainers| :: pod.initContainers[i] != pod.containers[0])
              && (forall i | 0 <= i < |pod.ephemeral| :: pod.ephemeral[i] != pod.containers[0])
    ensures pod.initContainers != [] ==>
              && (forall i | 1 <= i < |pod.initContainers| :: pod.initContainers[i] != pod.initContainers[0])
              && (forall i | 0 <= i < |pod.containers| :: pod.containers[i] != pod.initContainers[0])
              && (forall i | 0 <= i < |pod.ephemeral| :: pod.ephemeral[i] != pod.initContainers[0])
  {
    var all, n, m := pod.All(), |pod.initContainers|, |pod.containers|;
    forall i | 0 <= i < n ensures all[i] == pod.initContainers[i] {}
    forall i | 0 <= i < m ensures all[n + i] == pod.containers[i] {}
    forall i | 0 <= i < |pod.ephemeral| ensures all[n + m + i] == pod.ephemeral[i] {}
  }

  /** The pod now is the pod then with the delta appended, if only the first containers and the volumes changed. */
  lemma AppendsExtend(pod: PodSpec, was: PodV, d: Delta)
    requires |was.containers| == |pod.containers| > 0 && |was.initContainers| == |pod.initContainers|
    requires pod.rest == was.rest && pod.pullSecrets == was.pullSecrets && pod.volumes == was.volumes + d.volumes
    requires pod.containers[0].Value() == AppendTo(was.containers[0], d)
    requires pod.initContainers != [] ==>
               pod.initContainers[0].Value() == WithMounts(was.initContainers[0], d.initMounts)
    requires |was.ephemeral| == |pod.ephemeral|
    requires forall i | 1 <= i < |pod.containers| :: pod.containers[i].Value() == was.containers[i]
    requires forall i | 1 <= i < |pod.initContainers| :: pod.initContainers[i].Value() == was.initContainers[i]
    requires forall i | 0 <= i < |pod.ephemeral| :: pod.ephemeral[i].Value() == was.ephemeral[i]
    ensures pod.Value() == Extended(was, d)
  {
    var now := Extended(was, d);
    forall i | 0 <= i < |pod.containers| ensures Values(pod.containers)[i] == now.containers[i] {
    }
    forall i | 0 <= i < |pod.initContainers| ensures Values(pod.initContainers)[i] == now.initContainers[i] {
    }
    assert Values(pod.containers) == now.containers && Values(pod.initContainers) == now.initContainers;
    assert Values(pod.ephemeral) == now.ephemeral;
  }

  function WithMounts(c: ContainerV, mounts: seq<VolumeMount>): ContainerV {
    c.(mounts := c.mounts + mounts)
  }

  method MountFilesFrom(podSpec: PodSpec, container: Container, kind: ObjectKind, objectName: string,
                        mountPath: string, fileName: string, data: Data, keys: seq<string>)
    requires multiset(keys) == multiset(KeysOf(data))
    modifies {podSpec, container}
    ensures podSpec.volumes == old(podSpec.volumes) + [VolumeOf(kind, objectName)]
    ensures container.Value()
         == WithMounts(old(container.Value()), MountsOf(objectName, mountPath, fileName, data, keys))
    ensures podSpec.pullSecrets == old(podSpec.pullSecrets)
  {
    var volName := objectName;
    podSpec.volumes := podSpec.volumes + [Volume(volName, FromObject(kind, objectName, 420, false))];
    if data.Some? {
      assert keys[..0] == [];
      for i := 0 to |keys|
        invariant podSpec.volumes == old(podSpec.volumes) + [VolumeOf(kind, objectName)]
        invariant podSpec.pullSecrets == old(podSpec.pullSecrets)
        invariant container.Value() == WithMounts(old(container.Value()),
                                                  Map(Mounted(volName, mountPath), Selected(keys[..i], fileName)))
      {
        var file := keys[i];
        TakeStep(keys, i);
        FilterStep(IsSelected(fileName), keys[..i], file);
        if fileName == "" || fileName == file {
          var vm := VolumeMount(volName, Join(mountPath, file), file, true);
          MapStep(Mounted(volName, mountPath), Selected(keys[..i], fileName), file);
          container.mounts := container.mounts + [vm];
        }
      }
      assert keys[..|keys|] == keys;
    } else {
      var vm := VolumeMount(volName, Join(mountPath, objectName), "", true);
      container.mounts := container.mounts + [vm];
    }
  }

  function WithEnv(c: ContainerV, e: EnvVar): ContainerV {
    c.(env := c.env + [e])
  }

  function WithEnvFrom(c: ContainerV, e: EnvFromSource): ContainerV {
    c.(envFrom := c.envFrom + [e])
  }

  method AddEnvVarsFrom(container: Container, kind: ObjectKind, objectName: string, varName: string)
    modifies container
    ensures container.Value()
         == if varName == "" then WithEnvFrom(old(container.Value()), EnvFromSource(kind, objectName))
            else WithEnv(old(container.Value()), EnvFromKey(varName, kind, objectName, varName))
  {
    if varName == "" {
      container.envFrom := container.envFrom + [EnvFromSource(kind, objectName)];
    } else {
      container.env := container.env + [EnvFromKey(varName, kind, objectName, varName)];
    }
  }

  lemma ConfigsStep(mountPath: string, key: string, keys: seq<string>, i: nat)
    requires i < |keys|
    ensures ConfigArgs(ConfigsOf(mountPath, key, keys[..i + 1]))
         == ConfigArgs(ConfigsOf(mountPath, key, keys[..i]))
            + if key == "" || key == keys[i] then ["--config", Join(mountPath, keys[i])] else []
  {
    var file := keys[i];
    var done := Selected(keys[..i], key);
    TakeStep(keys, i);
    FilterStep(IsSelected(key), keys[..i], file);
    if key == "" || key == file {
      MapStep(Joined(mountPath), done, file);
      ConfigArgsOfBoth(Map(Joined(mountPath), done), [Join(mountPath, file)]);
      assert ConfigArgs([Join(mountPath, file)]) == ["--config", Join(mountPath, file)];
    } else {
      assert Selected(keys[..i + 1], key) == done;
    }
  }

  /** The second loop of AppConfig.updatePod. */
  method PassConfigs(container: Container, mountPath: string, key: string, keys: seq<string>)
    modifies container`args
    ensures container.args == old(container.args) + ConfigArgs(ConfigsOf(mountPath, key, keys))
  {
    assert keys[..0] == [];
    for i := 0 to |keys|
      invariant container.args == old(container.args) + ConfigArgs(ConfigsOf(mountPath, key, keys[..i]))
    {
      var file := keys[i];
      ConfigsStep(mountPath, key, keys, i);
      if key == "" || key == file {
        container.args := container.args + ["--config", Join(mountPath, file)];
      }
    }
    assert keys[..|keys|] == keys;
  }

  /** AppConfig.updatePod: mounts the files and passes each with --config, in two loops over the same map. */
  method UpdatePodWithAppConfig(podSpec: PodSpec, name: string, data: Data, mountPath: string, key: string,
                                site: Site, order: Order)
    requires podSpec.Valid() && podSpec.containers != [] && ValidOrder(order)
    modifies podSpec.Footprint()
    ensures podSpec.Value()
         == Extended(old(podSpec.Value()), DeltaOf(AppConfigC(name, data, mountPath, key), site, order, None))
  {
    FirstsAreApart(podSpec);
    ghost var was := podSpec.Value();
    var mountKeys := order(site, MountLoop, KeysOf(data));
    var configKeys := order(site, ConfigLoop, KeysOf(data));
    MountFilesFrom(podSpec, podSpec.containers[0], ConfigMapObject, name, mountPath, key, data, mountKeys);
    PassConfigs(podSpec.containers[0], mountPath, key, configKeys);
    AppendsExtend(podSpec, was, DeltaOf(AppConfigC(name, data, mountPath, key), site, order, None));
  }

  /** ConfigMapFiles.updatePod and SecretFiles.updatePod. */
  method UpdatePodWithFiles(podSpec: PodSpec, kind: ObjectKind, name: string, data: Data, mountPath: string,
                            key: string, site: Site, order: Order)
    requires podSpec.Valid() && podSpec.containers != [] && ValidOrder(order)
    modifies podSpec.Footprint()
    ensures podSpec.Value()
         == Extended(old(podSpec.Value()), DeltaOf(FilesC(kind, name, data, mountPath, key), site, order, None))
  {
    FirstsAreApart(podSpec);
    ghost var was := podSpec.Value();
    MountFilesFrom(podSpec, podSpec.containers[0], kind, name, mountPath, key, data,
                   order(site, MountLoop, KeysOf(data)));
    AppendsExtend(podSpec, was, DeltaOf(FilesC(kind, name, data, mountPath, key), site, order, None));
  }

  /** ConfigMapEnvs.updatePod and SecretEnvs.updatePod. */
  method UpdatePodWithEnvs(podSpec: PodSpec, kind: ObjectKind, name: string, key: string, site: Site, order: Order)
    requires podSpec.Valid() && podSpec.containers != [] && ValidOrder(order)
    modifies podSpec.Footprint()
    ensures podSpec.Value() == Extended(old(podSpec.Value()), DeltaOf(EnvsC(kind, name, key), site, order, None))
  {
    FirstsAreApart(podSpec);
    ghost var was := podSpec.Value();
    AddEnvVarsFrom(podSpec.containers[0], kind, name, key);
    AppendsExtend(podSpec, was, DeltaOf(EnvsC(kind, name, key), site, order, None));
  }

  /**
   The first init container of the expected name. The range loop of the source copies each container
   into its loop variable, so what comes back is a copy: a write to it never reaches the pod.
   */
  method DynamicPluginsInitContainer(initContainers: seq<Container>) returns (found: Container?)
    ensures found == null <==> PluginsDir(Values(initContainers)).None?
    ensures found != null ==> fresh(found) && Some(found.workingDir) == PluginsDir(Values(initContainers))
  {
    assert initContainers[0..] == initContainers;
    for i := 0 to |initContainers|
      invariant PluginsDir(Values(initContainers[i..])) == PluginsDir(Values(initContainers))
    {
      var ic := new Container(initContainers[i].Value());
      assert Values(initContainers[i..])[1..] == Values(initContainers[i + 1..]);
      if ic.name == PLUGINS_INIT_CONTAINER {
        return ic;
      }
    }
    return null;
  }

  /** DynamicPlugins.updatePod: mounts into the first init container, under the named one's working directory. */
  method UpdatePodWithPlugins(podSpec: PodSpec, name: string, data: Data, site: Site, order: Order)
    requires podSpec.Valid() && podSpec.containers != [] && ValidOrder(order)
    modifies podSpec.Footprint()
    ensures podSpec.Value()
         == Extended(old(podSpec.Value()),
                     DeltaOf(PluginsC(name, data), site, order, PluginsDir(old(podSpec.Value()).initContainers)))
  {
    var found := DynamicPluginsInitContainer(podSpec.initContainers);
    if found != null {
      MountPlugins(podSpec, name, found.workingDir, data, site, order);
    } else {
      ExtendedByNothing(podSpec.Value());
    }
  }

  method MountPlugins(podSpec: PodSpec, name: string, dir: string, data: Data, site: Site, order: Order)
    requires podSpec.Valid() && podSpec.containers != [] && podSpec.initContainers != [] && ValidOrder(order)
    modifies podSpec.Footprint()
    ensures podSpec.Value() == Extended(old(podSpec.Value()), DeltaOf(PluginsC(name, data), site, order, Some(dir)))
  {
    FirstsAreApart(podSpec);
    ghost var was := podSpec.Value();
    MountFilesFrom(podSpec, podSpec.initContainers[0], ConfigMapObject, name, dir, DYNAMIC_PLUGINS_FILE, data,
                   order(site, MountLoop, KeysOf(data)));
    AppendsExtend(podSpec, was, DeltaOf(PluginsC(name, data), site, order, Some(dir)));
  }

  /** updatePod of whichever contributor it is. */
  method UpdatePod(podSpec: PodSpec, c: Contribution, site: Site, order: Order)
    requires podSpec.Valid() && podSpec.containers != [] && ValidOrder(order)
    modifies podSpec.Footprint()
    ensures podSpec.Value()
         == Extended(old(podSpec.Value()), DeltaOf(c, site, order, PluginsDir(old(podSpec.Value()).initContainers)))
  {
    match c
    case AppConfigC(name, data, mountPath, key) =>
      UpdatePodWithAppConfig(podSpec, name, data, mountPath, key, site, order);
    case FilesC(kind, name, data, mountPath, key) =>
      UpdatePodWithFiles(podSpec, kind, name, data, mountPath, key, site, order);
    case EnvsC(kind, name, key) =>
      UpdatePodWithEnvs(podSpec, kind, name, key, site, order);
    case PluginsC(name, data) =>
      UpdatePodWithPlugins(podSpec, name, data, site, order);
  }
}
