/** For which CRs a second run changes nothing: exactly those whose first run leaves alone what the builder uses. */
module Idempotence {
  import opened BackstageApi
  import opened Builder
  import opened Determinacy
  import opened FinalPod
  import opened Machine
  import opened Marshalling
  import opened MountedFiles
  import opened Names
  import opened Objects
  import opened Pods
  import opened Repetition
  import opened Rereading
  import opened SentObjects
  import opened Sources
  import opened Uses

  /** The files of the ConfigMaps that the CR has mounted have names; the API server accepts no others. */
  ghost predicate FilesAreNamed(objects: Store, namespace: string, spec: BackstageSpec) {
    forall r :: r in FileRefs(spec) ==> "" !in KeysOf(DataAt(objects, namespace, r.name))
  }

  /** A reference of the CR's lists that selects other files gives the Backstage container other mounts. */
  lemma ContainersDiffer(a: Inputs, b: Inputs, registry: seq<Kind>, was: Store, now: Store, r: ObjectKeyRef)
    requires ReadFrom(a, b, was, now) && SameManifests(a, b) && a.order == b.order
    requires Usable(a) && Usable(b) && Ready(a) && Ready(b)
    requires IsPlaced(a, DeploymentKind) && IsPlaced(b, DeploymentKind)
    requires FilesAreNamed(was, a.namespace, a.spec) && FilesAreNamed(now, a.namespace, a.spec)
    requires r in ContainerRefs(a.spec)
    requires UseOf(DataAt(was, a.namespace, r.name), r.key) != UseOf(DataAt(now, a.namespace, r.name), r.key)
    ensures LastPod(a, registry).containers != [] && LastPod(b, registry).containers != []
    ensures LastPod(a, registry).containers[0].mounts != LastPod(b, registry).containers[0].mounts
  {
    ContainerMounts(a, registry);
    ContainerMounts(b, registry);
    if LastPod(a, registry).containers[0].mounts == LastPod(b, registry).containers[0].mounts {
      ListedMountsTell(a, b, registry);
      var file := OtherUseOtherMounts(was, now, a.namespace, ContainerRefs(a.spec), r);
      ListedMountsFile(a, was, r.name, file);
      ListedMountsFile(b, now, r.name, file);
    }
  }

  lemma InitContainerThere(inp: Inputs, registry: seq<Kind>)
    requires Usable(inp) && Succeeds(inp) && IsPlaced(inp, DeploymentKind) && inp.spec.PluginsName() != ""
    requires IsRegistry(registry)
    ensures DirOfPlugins(inp).Some? && ManifestPod(inp).initContainers != []
    ensures LastPod(inp, registry).initContainers != []
  {
    InitContainerMounts(inp, registry);
  }

  /** Stores that are used otherwise give Deployments that are sent otherwise. */
  lemma DeploymentsDiffer(a: Inputs, b: Inputs, registry: seq<Kind>, was: Store, now: Store)
    requires ReadFrom(a, b, was, now) && SameManifests(a, b) && a.order == b.order && IsRegistry(registry)
    requires Usable(a) && Usable(b) && Succeeds(a) && Succeeds(b)
    requires IsPlaced(a, DeploymentKind) && IsPlaced(b, DeploymentKind)
    requires FilesAreNamed(was, a.namespace, a.spec) && FilesAreNamed(now, a.namespace, a.spec)
    requires !FilesAlike(was, now, a.namespace, a.spec)
    ensures FieldsOf(PhaseTwo(a, registry, DeploymentKind)) != FieldsOf(PhaseTwo(b, registry, DeploymentKind))
  {
    var r :| r in FileRefs(a.spec)
      && UseOf(DataAt(was, a.namespace, r.name), r.key) != UseOf(DataAt(now, a.namespace, r.name), r.key);
    if r in ContainerRefs(a.spec) {
      ContainersDiffer(a, b, registry, was, now, r);
    } else {
      assert r in PluginRefs(a.spec);
      InitContainersDiffer(a, b, registry, was, now);
    }
    OtherMountsOtherFields(PhaseTwo(a, registry, DeploymentKind), PhaseTwo(b, registry, DeploymentKind));
  }

  /** Dynamic plugins that are used otherwise give the first init container other mounts. */
  lemma InitContainersDiffer(a: Inputs, b: Inputs, registry: seq<Kind>, was: Store, now: Store)
    requires ReadFrom(a, b, was, now) && SameManifests(a, b) && IsRegistry(registry) && a.spec.PluginsName() != ""
    requires Usable(a) && Usable(b) && Succeeds(a) && Succeeds(b)
    requires IsPlaced(a, DeploymentKind) && IsPlaced(b, DeploymentKind)
    requires UseOf(DataAt(was, a.namespace, a.spec.PluginsName()), DYNAMIC_PLUGINS_FILE)
             != UseOf(DataAt(now, a.namespace, a.spec.PluginsName()), DYNAMIC_PLUGINS_FILE)
    ensures LastPod(a, registry).initContainers != [] && LastPod(b, registry).initContainers != []
    ensures LastPod(a, registry).initContainers[0].mounts != LastPod(b, registry).initContainers[0].mounts
  {
    InitContainerThere(a, registry);
    InitContainerThere(b, registry);
    if LastPod(a, registry).initContainers[0].mounts == LastPod(b, registry).initContainers[0].mounts {
      PluginsTell(a, b, registry, was, now);
    }
  }

  lemma OtherMountsOtherFields(v: ObjectV, w: ObjectV)
    requires v.body.WorkloadBody? && v.pod.Some? && w.body.WorkloadBody? && w.pod.Some?
    requires || (v.pod.value.containers != [] && w.pod.value.containers != []
                 && v.pod.value.containers[0].mounts != w.pod.value.containers[0].mounts)
             || (v.pod.value.initContainers != [] && w.pod.value.initContainers != []
                 && v.pod.value.initContainers[0].mounts != w.pod.value.initContainers[0].mounts)
    ensures FieldsOf(v) != FieldsOf(w)
  {
    if FieldsOf(v) == FieldsOf(w) {
      SentAlikeMountsAlike(v, w);
    }
  }

  /** No file without a name, before the first run and after it. */
  ghost predicate NamedThroughout(t: Attempt, objects: Store)
    requires Safe(t, objects)
  {
    && FilesAreNamed(objects, t.backstage.namespace, t.backstage.spec)
    && FilesAreNamed(Result(t, objects).objects, t.backstage.namespace, t.backstage.spec)
  }

  lemma DeploymentAfter(t: Attempt, u: Attempt, objects: Store)
    requires Again(t, u) && Safe(t, objects) && Result(t, objects).ok && KeepsItsRaw(t, objects)
    requires Safe(u, Result(t, objects).objects) && Result(u, Result(t, objects).objects).ok
    ensures ReadsOf(t, objects).ok && ReadsOf(u, Result(t, objects).objects).ok
    ensures var once := Result(t, objects).objects;
            var a, b, registry := InputsOf(t, objects), InputsOf(u, once), t.setup.registry;
            var key := KeyOf(DeploymentKind, t.backstage.namespace, t.backstage.name);
            && Usable(a) && Usable(b) && Succeeds(a) && Succeeds(b)
            && IsPlaced(a, DeploymentKind) && IsPlaced(b, DeploymentKind)
            && key in once && once[key].fields == FieldsOf(PhaseTwo(a, registry, DeploymentKind))
            && key in Result(u, once).objects
            && Result(u, once).objects[key].fields == FieldsOf(PhaseTwo(b, registry, DeploymentKind))
  {
    var once := Result(t, objects).objects;
    WhatWorked(t, objects);
    WhatWorked(u, once);
    SecondManifests(t, u, objects);
    SecondPlanDeployment(InputsOf(t, objects), InputsOf(u, once), t.setup.registry, objects);
  }

  /** A run that does not leave alone what the builder uses has a second run change the Deployment. */
  lemma SecondRunChangesDeployment(t: Attempt, u: Attempt, objects: Store)
    requires Again(t, u) && u.order == t.order && Safe(t, objects) && Result(t, objects).ok
    requires NamesNoRawOfItsOwn(t.backstage) && NamedThroughout(t, objects) && !KeepsToItself(t, objects)
    requires Safe(u, Result(t, objects).objects) && Result(u, Result(t, objects).objects).ok
    ensures var once := Result(t, objects).objects;
            var key := KeyOf(DeploymentKind, t.backstage.namespace, t.backstage.name);
            key in once && key in Result(u, once).objects && Result(u, once).objects[key] != once[key]
  {
    var once := Result(t, objects).objects;
    OwnRawKept(t, objects);
    DeploymentAfter(t, u, objects);
    GivenFromStores(t, u, objects);
    SecondManifests(t, u, objects);
    OtherFiles(t, objects);
    DeploymentsDiffer(InputsOf(t, objects), InputsOf(u, once), t.setup.registry, objects, once);
  }

  lemma OtherFiles(t: Attempt, objects: Store)
    requires Safe(t, objects) && Result(t, objects).ok && IsRegistry(t.setup.registry)
    requires KeepsItsRaw(t, objects) && !KeepsToItself(t, objects)
    ensures !FilesAlike(objects, Result(t, objects).objects, t.backstage.namespace, t.backstage.spec)
  {
    WhatWorked(t, objects);
    WhatWasThere(t, objects);
    FilesAlikeExactly(InputsOf(t, objects), t.setup.registry, objects);
  }

  /**
   Exactly which CRs a second run is idle for, among those whose raw configuration is not generated for them: those
   that have no file mounted of a ConfigMap of their own, or only files that are there both before and after the run.
   */
  lemma SecondRunIsIdleExactly(t: Attempt, u: Attempt, objects: Store)
    requires Again(t, u) && u.order == t.order && Safe(t, objects) && Result(t, objects).ok
    requires NamesNoRawOfItsOwn(t.backstage) && NamedThroughout(t, objects)
    ensures Safe(u, Result(t, objects).objects)
    ensures var once := Result(t, objects).objects;
            Result(u, once).ok ==> (Result(u, once).objects == once <==> KeepsToItself(t, objects))
  {
    OwnRawKept(t, objects);
    SecondRunIsSafe(t, u, objects);
    if Result(u, Result(t, objects).objects).ok {
      if KeepsToItself(t, objects) {
        SecondRunIsIdle(t, u, objects);
      } else {
        SecondRunChangesDeployment(t, u, objects);
      }
    }
  }
}
