# Backstage operator: a verified model

The operator keeps the Kubernetes objects of a Backstage installation in line with a custom resource (CR). One run of its
reconciler reads the CR and the ConfigMaps it names, builds a model of up to twelve objects from default manifests, raw
configuration and the CR, applies these objects to the cluster, deletes what is switched off, and writes a status.

This project models both halves and proves what they promise.

**The model builder.** `RuntimeModel`, `PhaseOneHeap`, `Runtime`, `Validation`, `Validators` and `InitObjects` do what the
Go code does, on heap objects: twelve wrapper types are decoded and registered, containers are appended to through
pointers, a struct copy shares its slices with the original, a loop variable does not, and the list is sorted by insertion
sort under a comparator that is no order. `Builder` says the same as a function of the inputs. `InitObjects.InitObjects` is
proved to build exactly what that function says, and to fail exactly when it says so. `Contents`, `CrFields`,
`Selectors`, `FinalPod`, `Entries`, `Volumes`, `AppConfigs`, `MountPaths`, `PluginPaths`, `Uses` and `Determinacy` prove
what the function means.

**The reconciler.** `ClusterApi` is the API server as the reconciler reaches it: a map from keys to resources, and calls
each of which may be served, refused, or served with its reply lost. `Preprocessing`, `Reconciler` and `Reconciling` do the
run step by step on such a cluster. `Machine` is the same run as a machine that makes one call a step; the methods are
proved to do what the machine does. `Programs` puts the reads of preprocessing before it, so that a run plans from what
it has read itself. `Convergence`, `Plans` and `Guarantees` prove what follows for single runs; `ReadFields` and
`Stored` say it in the fields of the CR and of the stored objects; `Conditions` holds the status of a run; `Sources`,
`Repetition`, `Rereading`, `MountedFiles`, `Idempotence` and `OwnConfig` for a run after a run; `Interleaving`,
`Isolation`, `Lasting`, `Histories` and `Interference` for histories of any number of interleaved runs, with faults and
other writers; `StatusHistory` for the stored status.

**What both rest on.** `MergePatch` is JSON merge patch, section 2 of RFC 7396, with the difference that
`client.MergeFrom` computes; `Resources` separates labels and annotations from the rest; `Marshalling` turns objects into
what is sent and `SentObjects` reads it back; `Names` holds names, keys and labels; `FilePaths` is `filepath.Clean` and
`filepath.Join`; `Sorting`, `Seqs` and `Pods` hold the pure parts of the builder; `Samples` holds small configurations
for inputs on which properties fail.

`dafny verify dfyconfig.toml` checks the whole project.

## How the source is read

- A Go panic is a precondition. `Builder.Usable` lists what the operator needs of readable manifests: a container and a
  selector in each workload, a port on the database service when credentials are generated, a `route.yaml` when
  `IsRouteEmpty` holds, and no other controller among the owners that a manifest names, if the operator owns its
  objects. Under it, every pointer and index that the two phases use is proved to be there. In `StatusHistory` a run may
  panic; its deferred status update then stores the conditions that it began with.
- Ranging over a map takes an order: an input of the builder (one order for each loop that runs, any at all), and a
  nondeterministic choice in the loops of the reconciler.
- The random password is an input. Everything is proved for any password in each run.
- A nil map reads as an empty one, and the code allocates before it writes. Only for a ConfigMap's or Secret's data does
  nil make a difference to the code, so there it is kept.
- A resource holds what the operator sends. Members that the server owns (`resourceVersion`, `uid`,
  `creationTimestamp`, ...) are not part of it.
- `IsRouteEmpty` is true, despite its name, when host, subdomain and TLS are all given; the code then uses `route.yaml`
  instead of the CR. The model follows the code.
- `db-secret.yaml` is mandatory for a local database according to `docs/admin.md`; the code accepts its absence. The
  comment on `AuthSecretName` says that a local database's host is `backstage-psql-<CR name>` and that the named secret is
  used; the code generates `<CR name>-backstage-db` and only refrains from filling in generated credentials. The model
  follows the code.
- The unused entry `db-service-hl.yaml` of `docs/admin.md` has no counterpart in the code.

## Model

| member | source | states |
|---|---|---|
| InitObjects.InitObjects | pkg/model/runtime.go:122-181 | For every input and registration order, the in-place build fails exactly when a manifest is unreadable or missing, a mounted secret has no key, or dynamic plugins lack their init container; otherwise the wrappers, in order, hold what the pure builder describes. |
| Runtime.LoadAll | pkg/model/runtime.go:136-167 | The registry loop fails exactly when some kind is missing or unreadable; otherwise the list holds the placed kinds in registry order, each with its phase-one value, sharing no heap objects, and every model pointer is nil exactly when its kind is absent. |
| InitObjects.ValidateAll | pkg/model/runtime.go:170-175 | The validation loop fails exactly when the specification's phase two does, dereferences nothing that phase one did not provide, and leaves every object as phase two says, whatever order the objects come in. |
| RuntimeModel.BackstageModel.SetRuntimeObject | pkg/model/runtime.go:81-89 | A type never occurs twice: a new type is appended, a known one replaced in place. |
| RuntimeModel.BackstageModel.SortRuntimeObjects | pkg/model/runtime.go:91-101 | Insertion sort under the comparator, which is what sort.Slice does with at most twelve elements, ends with the Deployments, then all ordinary objects in reverse order, then the StatefulSets. |
| RuntimeModel.AtMostTwelve | pkg/model/runtime.go:81-101 | A list in which no type occurs twice has at most twelve elements. |
| Sorting.InsertedIsSorted | pkg/model/runtime.go:93-101 | Although two ordinary objects are each less than the other, an element moved left over all it is less than lands where the sorted list has it. |
| Sorting.SortedPermutes | pkg/model/runtime.go:91-101 | Sorting loses and duplicates nothing. |
| PhaseOneHeap.AddToModel | pkg/model/runtime.go:161-166 | addToModel of every kind, stated against IsMissing and IsPlaced: fails, skips or adds as these say, and an added wrapper holds the value that the specification gives it. |
| PhaseOneHeap.AddDbStatefulSet | pkg/model/db-statefulset.go:63-85 | Mandatory with a local database; the image written through a copy of the pod struct reaches the StatefulSet, because the copy shares its containers. |
| PhaseOneHeap.AddRoute | pkg/model/route.go:39-121 | A Route is added exactly on OpenShift when configured or enabled, and is built afresh from the CR unless the CR gives host, subdomain and TLS. |
| PhaseOneHeap.SetMetaInfo | pkg/model/runtime.go:184-198 | Name, namespace, labels and selectors are set; the CR is added to the owner references or replaces the reference to it; everything else is kept. |
| Objects.OneController | pkg/model/runtime.go:189-196 | After that the CR is the controller, and every other owner that the manifest names is still there, in order. |
| DeploymentPod.OverrideImage | pkg/model/deployment.go:79-86 | The operator's image variable reaches the first container and all init containers and nothing else. |
| DeploymentPod.SetImage | pkg/model/deployment.go:155-207 | The CR's image reaches every init, main and ephemeral container. |
| PodMutator.MountFilesFrom | pkg/utils/pod-mutator.go:47-79 | Appends one volume and exactly the mounts of the selected files, in loop order, or one mount of the whole object when there is no data. |
| PodMutator.AddEnvVarsFrom | pkg/utils/pod-mutator.go:81-115 | Appends one whole source without a key, one variable with it. |
| PodMutator.UpdatePodWithAppConfig | pkg/model/appconfig.go:111-123 | The two loops over one map leave the pod extended by one volume, its mounts and its --config arguments, each in that loop's own order, and nothing else changed. |
| PodMutator.UpdatePodWithPlugins | pkg/model/dynamic-plugins.go:96-118 | Mounts go to the first init container, under the working directory of the named one. |
| PodMutator.DynamicPluginsInitContainer | pkg/model/dynamic-plugins.go:145-150 | Finds the first init container of the name, and what it returns is a fresh copy. |
| DeploymentPod.MountSecrets | pkg/model/secretfiles.go:46-73 | Fails exactly when some listed secret has no key; otherwise all are appended in order. |
| DeploymentPod.AddAppConfigs | pkg/model/appconfig.go:52-71 | The pod is extended by the blocks of the CR's list, in its order. |
| DeploymentPod.AddConfigMapFiles | pkg/model/configmapfiles.go:43-62 | The pod is extended by the blocks of the CR's list, in its order. |
| DeploymentPod.AddConfigMapEnvs | pkg/model/configmapenvs.go:41-55 | The pod is extended by the blocks of the CR's list, in its order. |
| DeploymentPod.AddSecretEnvs | pkg/model/secretenvs.go:47-61 | The pod is extended by the blocks of the CR's list, in its order. |
| DeploymentPod.AddDynamicPlugins | pkg/model/dynamic-plugins.go:51-66 | Fails exactly when the CR names plugins and the init container is missing. |
| Validation.ValidateDeployment | pkg/model/deployment.go:92-131 | The Deployment after all passes is the pure function of manifest, CR and external configuration; an error of a secret file or of dynamic plugins stops it. |
| Validation.BlocksAddUp | pkg/model/deployment.go:94-128 | Everything appended to the pod, block by block: plain variables, default contributors in list order, the CR's five lists, its plugins, the DB secret. |
| Validators.ValidateDbSecret | pkg/model/db-secret.go:75-93 | Fills in credentials from the service reached through the model's pointer, unless the CR names an auth secret. |
| Validators.SetDbEnvsFromSecret | pkg/model/db-statefulset.go:116-120 | The append through a copy of the pod struct reaches the StatefulSet's pod. |
| Validators.ValidateDynamicPlugins | pkg/model/dynamic-plugins.go:122-137 | Fails exactly without the init container; the image it writes lands on a copy, so no object changes. |
| Validators.ValidateRoute | pkg/model/route.go:124-127 | The Route points to the model's service. |
| InitObjects.ValidateAt | pkg/model/runtime.go:170-175 | Validating one object changes that object alone, whether the objects it reads were validated before or not. |
| Contents.ExactContents | pkg/model/runtime.go:136-167 | Which kinds a built model holds, as an if and only if for each kind. |
| CrFields.ContentsByFields | api/v1alpha1/backstage_types.go:279-305 | The same in the fields of the CR: the database unless enableLocalDb is false, the Route on OpenShift unless enabled is false, default plugins unless the CR names its own. |
| CrFields.SucceedsByFields | pkg/model/runtime.go:136-175 | When a model can be built, by manifests and fields: everything readable, what is mandatory there, a key for every mounted secret, and the init container when there are plugins. |
| CrFields.GeneratesByFields | pkg/model/db-secret.go:75-80 | Credentials are generated exactly when the CR wants a database, has a manifest for the secret and names no auth secret. |
| CrFields.OverlayFiles | pkg/model/runtime.go:136-158 | Which overlay file reaches the manifest of which kind, for the first six kinds. |
| CrFields.MoreOverlayFiles | pkg/model/runtime.go:136-158 | The same for the other six. |
| CrFields.OverlayFilesDiffer | pkg/model/runtime.go:117-119 | No two kinds share a file. |
| CrFields.BuiltMetadata | pkg/model/runtime.go:184-198 | Every built object has the CR's namespace, the operator's two labels over the manifest's, the manifest's annotations, and the CR as its controller beside the manifest's other owners. |
| CrFields.BuiltRoute | pkg/model/route.go:39-127 | A Route that the CR describes has its host, subdomain and TLS and nothing of route.yaml, unless all three are given; then it is route.yaml. Either way it leads to the Service. |
| CrFields.BuiltReplicas | pkg/model/deployment.go:147-152 | The Deployment has the CR's replicas if it gives any, else the manifest's. |
| CrFields.OperatorLabels | pkg/model/deployment.go:133-137 | The label that ties services to pods, and its value for Backstage and for the database. |
| CrFields.ConfigMapKeys | pkg/utils/utils.go:50-52 | The keys of a CR's ConfigMaps, spelled out. |
| CrFields.OtherKeys | pkg/utils/utils.go:50-52 | The keys of its other objects. |
| Contents.EachKindOnce | pkg/model/runtime.go:81-89 | No kind occurs twice. |
| Contents.DeploymentFirst | pkg/model/runtime.go:91-101 | The Deployment comes first, and with a local database its StatefulSet last. |
| Plans.DeploymentAppliedFirst | controllers/backstage_controller.go:146-150 | So is the first object that a run applies, |
| Plans.DatabaseAppliedLast | controllers/backstage_controller.go:146-150 | and with a local database its StatefulSet is the last. |
| Contents.RouteToService | pkg/model/route.go:124-127 | The Route of a built model leads to its Service, whatever the manifest says. |
| Contents.GeneratedCredentials | pkg/model/db-secret.go:75-93 | Generated credentials are the five variables: the run's password for both users, the user postgres, and the database service's name and port. |
| Contents.PasswordShows | pkg/model/db-secret.go:81-90 | Builds with different passwords have different DB secrets. |
| Contents.GivenCredentials | pkg/model/db-secret.go:75-80 | A CR that names its own auth secret has nothing filled in. |
| Contents.DecimalReadsBack | pkg/model/db-secret.go:89 | The port can be read back from its text, for every integer. |
| Contents.DbSecretReachesPods | pkg/model/db-statefulset.go:93-120 | The database container gets the DB secret's variables exactly when there is a DB secret; beside that and the image override the StatefulSet's pod is the manifest's in every field. |
| Contents.DbSecretReachesBackstage | pkg/model/deployment.go:124-128 | The Backstage container gets them too, after all its other sources. |
| Selectors.SelectorsAgree | pkg/utils/utils.go:42-47 | Inside one CR a service selects a workload's pods exactly when both are the database's or neither is, and every other selector entry of the service's manifest is on the pod labels of the workload's manifest. |
| Selectors.WorkloadSelectsItsPods | pkg/model/deployment.go:133-137 | A workload selects its own pods exactly when the other entries of its manifest's selector are on its manifest's pod labels. |
| Selectors.TierSelectsNone | pkg/model/service.go:79-82 | Manifests that the builder accepts and whose finished Service selects none of the Deployment's pods. |
| Contents.RegistryIsComplete | pkg/model/runtime.go:117-119 | The twelve init functions register each kind once. |
| Names.KeysAreInjective | pkg/utils/utils.go:50-52 | Kind, namespace and CR name determine the key and are determined by it, for CR names that are any strings. |
| Names.OwnersAreUnique | pkg/utils/utils.go:50-52 | No key belongs to two CRs. |
| Names.AppLabelsCollide | pkg/model/db-statefulset.go:100-104 | Label values are not injective across CRs: the value for Backstage pods of one CR is the value for database pods of another exactly when the first is named "db-" plus the second. |
| FinalPod.PodAfter | pkg/model/deployment.go:79-131 | The finished pod, container by container: the image of the CR, else the operator's where it applies, else the manifest's; every other field kept; lists extended at the end and nowhere else. |
| Entries.FinalContainer | pkg/model/deployment.go:79-131 | Field by field, what the Backstage container has after what its manifest gives. |
| Entries.AllVariables | pkg/model/deployment.go:94-128 | All variables and sources that are added, in order: plain ones, defaults, the CR's ConfigMaps, its Secrets, the DB secret. |
| Entries.AllVolumes | pkg/model/deployment.go:101-124 | All volumes that are added, in order. |
| Entries.SumOfPieces | pkg/utils/pod-mutator.go:47-115 | Contributions add up piece by piece, one after the other. |
| Entries.AppConfigEntry | pkg/model/appconfig.go:52-71 | Entry i of appConfig.configMaps: one required read-only volume under the ConfigMap's name, each selected file mounted once under the CR's mountPath or the application's home, and the same paths passed with --config. |
| Entries.FilesEntry | pkg/model/configmapfiles.go:43-62 | Entry i of extraFiles.configMaps: the same without arguments. |
| Entries.SecretFilesEntry | pkg/model/secretfiles.go:46-73 | Entry i of extraFiles.secrets: the one file of its key. |
| Entries.EnvsEntry | pkg/model/configmapenvs.go:41-55 | Entry i of extraEnvs.configMaps: the variable of its key, or all of the ConfigMap. |
| Entries.SecretEnvsEntry | pkg/model/secretenvs.go:47-61 | Entry i of extraEnvs.secrets, likewise. |
| Entries.PlainVariables | pkg/model/deployment.go:177-183 | Entry i of extraEnvs.envs: a variable of that name and value. |
| Entries.PluginsEntry | pkg/model/dynamic-plugins.go:96-118 | The CR's plugins: a volume, and dynamic-plugins.yaml at the working directory of their init container. |
| Entries.DefaultFiles | pkg/model/configmapfiles.go:100-106 | Default files are all the files of the object, under the application's home. |
| Entries.DefaultAppConfig | pkg/model/appconfig.go:92-123 | The default app-config passes them as well. |
| Entries.DefaultPlugins | pkg/model/dynamic-plugins.go:96-118 | Default plugins bring what the CR's own would. |
| Entries.OtherDefaults | pkg/model/configmapenvs.go:41-55 | Default variables are all of the object's; no other default object adds a variable or a mount to the Backstage container. |
| Entries.NoEntries | pkg/model/deployment.go:101-124 | What the CR does not give adds nothing. |
| Entries.ArgumentsAlternate | pkg/model/appconfig.go:111-123 | Each path follows a --config of its own. |
| FinalPod.MountsStayClosed | pkg/utils/pod-mutator.go:49-77 | If every mount of the manifest names a volume of the pod, so does every mount of the finished pod. |
| FinalPod.DefaultReferencesResolve | pkg/model/deployment.go:101-128 | Every ConfigMap or Secret that a default contributor or the DB secret brings into the pod is an object of the model. |
| Volumes.DistinctVolumes | pkg/utils/pod-mutator.go:49-65 | The volume names of the finished pod are distinct exactly when the manifest's are, the volume-bringing entries of the CR name different objects, default ConfigMap files and default Secret files are not both there, and no name of one of these three groups occurs in another. |
| Volumes.TwoEntriesClash | pkg/model/appconfig.go:58-70 | Two entries of the CR for one object, such as one ConfigMap under two keys, always give the pod two volumes of one name. |
| Volumes.TwoKeysClash | pkg/model/appconfig.go:58-70 | A CR on which this happens: the builder accepts it, and two volumes have one name. |
| Preprocessing.DistinctVolumesOfCr | pkg/utils/pod-mutator.go:49-65 | The same exact condition on the names that the CR gives, for a model built after preprocessing. |
| FinalPod.DefaultVolumesClash | pkg/utils/utils.go:55-58 | Among default objects, the volume names clash exactly for the default ConfigMap files and the default Secret files. |
| Pods.ExtendedTwice | pkg/utils/pod-mutator.go:47-115 | Two contributions in a row are their sum, so in-place appends fold. |
| Pods.ConfigsMatchMounts | pkg/model/appconfig.go:111-123 | For every pair of loop orders, the paths passed with --config are those mounted, as multisets, exactly when the ConfigMap has data; without data the whole object is mounted and nothing is passed. |
| AppConfigs.ConfigArguments | api/v1alpha1/backstage_types.go:77-81 | The arguments are the manifest's, then the default app-config's, then those of the CR's list in list order. |
| AppConfigs.DefaultConfigsAreMounted | pkg/model/appconfig.go:111-123 | The default block passes exactly the files it mounts, if and only if the app-config has data. |
| AppConfigs.ListedConfigsAreMounted | pkg/model/appconfig.go:58-70 | A block of the CR's list passes exactly the files it mounts, if and only if the named ConfigMap has data. |
| MountPaths.DistinctPaths | pkg/utils/pod-mutator.go:67-77 | For plain file names the mount paths of the Backstage container are distinct exactly when the manifest's are, the requested (cleaned directory, file) pairs are, and no request falls on a path of the manifest. |
| PluginPaths.InitPathsAdded | pkg/model/dynamic-plugins.go:96-118 | Nothing but dynamic plugins is mounted into the first init container, at one path at most: their file, or all of a ConfigMap without data. |
| PluginPaths.DistinctInitPaths | pkg/model/dynamic-plugins.go:96-118 | The mount paths of the first init container are distinct exactly when the manifest's are and that path is not one of them. |
| FilePaths.JoinIsInjective | pkg/utils/pod-mutator.go:70 | Two joined paths are equal exactly when the cleaned directories and the plain file names are. |
| FilePaths.JoinIsPrefixed | pkg/utils/pod-mutator.go:70 | A plain file name is put behind the cleaned directory, whatever dots and slashes the directory holds. |
| FilePaths.CleanDropsDot | pkg/utils/pod-mutator.go:70 | Cleaning drops a dot. |
| FilePaths.CleanDropsEmpty | pkg/utils/pod-mutator.go:70 | So it does a trailing slash. |
| FilePaths.CleanTakesBack | pkg/utils/pod-mutator.go:70 | Two dots take back the element before them. |
| Pods.SumPermuted | pkg/model/deployment.go:101-105 | The order of contributors changes the order of what is appended and nothing else. |
| Determinacy.RegistryOrderIsIrrelevant | pkg/model/runtime.go:117-175 | For any two registration orders: the same kinds, and identical objects but for the Deployment. |
| Determinacy.RegistryOrderInPod | pkg/model/deployment.go:101-105 | The Deployment differs in its pod only, and the pod gets the same multisets of volumes, mounts, variables, sources and arguments. |
| Determinacy.RebuildChangesLittle | pkg/model/runtime.go:122-181 | Building again with a new password, new loop orders and other contents in the files of the CR's ConfigMaps succeeds alike and changes only the DB secret's data and the order of files within single blocks. |
| Uses.DeltaReordered | pkg/utils/pod-mutator.go:47-79 | Of a ConfigMap only this matters: whether it has data, and which of its files the reference selects. The same use gives the same volumes and variables, and the same mounts and arguments up to order. |
| Determinacy.PasswordStaysInSecret | pkg/model/db-secret.go:81-90 | A new password changes no object but the DB secret. |
| MergePatch.DiffThenPatch | controllers/backstage_controller.go:228 | The difference, applied to its base, gives the wanted document exactly when the step is expressible as a merge patch. |
| MergePatch.ExpressibleExactly | controllers/backstage_controller.go:228 | Expressible means just that: some merge patch takes the step. |
| MergePatch.PatchFromNothing | controllers/backstage_controller.go:228 | A patch on a non-object builds the document exactly when it holds no null member. |
| MergePatch.PatchTwice | controllers/backstage_controller.go:228 | Sending a patch twice is sending it once. |
| Resources.RoundTrip | controllers/backstage_controller.go:170 | A resource reads back as it was sent. |
| Resources.DocumentOf | controllers/backstage_controller.go:170 | Labels and annotations are under the metadata of its document, everything else beside them. |
| Resources.PatchArrives | controllers/backstage_controller.go:198-233 | A wanted object patched onto what it was compared with arrives exactly. |
| Resources.LabelsSurvivePatch | controllers/backstage_controller.go:198-233 | A patch whose wanted labels cover the base's leaves every label and annotation of any live object and adds those that differ from the base. |
| Resources.BlindPatch | controllers/backstage_controller.go:152-186 | A patch against an empty base lays the wanted object over the live one, at every depth, and drops nothing. |
| Resources.OverlaidTwice | controllers/backstage_controller.go:152-186 | Laying the same object over twice, or over itself, changes nothing. |
| Marshalling.DataReadsBack | controllers/spec_preprocessor.go:47-53 | A ConfigMap's data reads back as sent, an empty map as none. |
| SentObjects.MetadataReadsBack | controllers/backstage_controller.go:158 | Name, namespace, labels, annotations and owners of every object read back from what is sent. |
| SentObjects.ServiceReadsBack | controllers/backstage_controller.go:175 | So do a service's selector and ports, |
| SentObjects.RouteReadsBack | controllers/backstage_controller.go:175 | a route's host, subdomain, TLS and target, |
| SentObjects.SecretReadsBack | controllers/backstage_controller.go:158 | a Secret's string data, |
| SentObjects.ConfigMapReadsBack | controllers/backstage_controller.go:175 | a ConfigMap's data, |
| SentObjects.WorkloadReadsBack | controllers/backstage_controller.go:175 | a workload's replicas, selector, pod labels and pod, |
| SentObjects.PodReadsBack | controllers/backstage_controller.go:175 | a pod's containers of every sort, volumes and pull secrets, |
| SentObjects.VolumeReadsBack | controllers/backstage_controller.go:175 | a volume, |
| SentObjects.ContainerReadsBack | controllers/backstage_controller.go:175 | and every field of a container, variables, sources and mounts included. |
| ClusterApi.Cluster.Perform | controllers/backstage_controller.go:146-269 | A call is served, refused, or served with its reply lost, as the fault that is due says. |
| Machine.LostReplyIsServed | controllers/backstage_controller.go:146-269 | A call whose reply is lost has been served all the same; a refused one has not. |
| Preprocessing.CopyRaw | controllers/spec_preprocessor.go:51-63 | Copying key by key in any order gives the right-biased union. |
| Preprocessing.ResolveList | controllers/spec_preprocessor.go:73-102 | Reads a list up to the first error, in order. |
| Preprocessing.PreprocessSpec | controllers/spec_preprocessor.go:31-115 | The five stages in order with early return read the CR's keys one after the other and give the external configuration of what was read; only Gets are sent. |
| Preprocessing.PreprocessWhen | controllers/spec_preprocessor.go:31-115 | Succeeds exactly when every ConfigMap the CR names exists and no call fails. |
| Preprocessing.PreprocessResolves | controllers/spec_preprocessor.go:45-114 | Every reference is resolved to the ConfigMap of its name, and raw configuration is the union of both raw ConfigMaps, the database's winning. |
| ReadFields.ReadsByFields | controllers/spec_preprocessor.go:31-115 | Preprocessing succeeds exactly when each ConfigMap that a field of the CR names is there (backstageConfigName, localDbConfigName, the three lists, the plugins) and no call fails. |
| ReadFields.RawByFields | controllers/spec_preprocessor.go:45-64 | Raw configuration, file by file: the entry of the ConfigMap in localDbConfigName if it has one, else that of the one in backstageConfigName, else nothing. |
| ReadFields.ListsByFields | controllers/spec_preprocessor.go:70-114 | Each entry of appConfig, extraFiles and extraEnvs, and the plugins, resolve to the ConfigMap of that name as it is in the cluster. |
| Preprocessing.ListedReferencesExist | controllers/spec_preprocessor.go:70-102 | Every ConfigMap that a list of the CR brings into the pod is the one it names and is in the cluster. |
| Reconciler.RestoreEntries | controllers/backstage_controller.go:203-223 | In any loop order the base's entries come back where the wanted map has none or an empty one. |
| Reconciler.PatchObjectOf | controllers/backstage_controller.go:198-233 | Restores in place, then sends the difference between base and restored object. |
| Reconciler.ApplySecret | controllers/backstage_controller.go:154-167 | The secret branch takes the steps of the machine: create, skip an existing DB secret, patch any other blindly. |
| Reconciler.ApplyOther | controllers/backstage_controller.go:169-186 | The other branch takes the steps of the machine: get, then create or patch. |
| Reconciler.ApplyObjects | controllers/backstage_controller.go:146-192 | The loop brings the machine from its start to where cleaning begins, or to failure at the first error, although it changes the objects it applies. |
| Reconciler.TryToDelete | controllers/backstage_controller.go:261-269 | An absent object counts as deleted, any other error fails. |
| Reconciler.CleanObjects | controllers/backstage_controller.go:235-259 | Takes the machine from where cleaning begins to its end. |
| Reconciling.Reconcile | controllers/backstage_controller.go:77-139 | The whole run on the cluster: which runs touch nothing, what the four stages leave and return, and which conditions are stored. |
| Reconciling.RunStages | controllers/backstage_controller.go:114-134 | Preprocess, build, apply and clean, stopping at the first error, leave what the staged specification says; a run that fails in preprocessing or building has sent Gets only. |
| Reconciling.StagedIsProgram | controllers/backstage_controller.go:114-134 | The staged specification is the run of the machine, from its first read, when it runs alone. |
| Programs.RunAlone | controllers/backstage_controller.go:114-134 | A run of the machine reads all its sources, gives up or plans from what it has read, and then does exactly what its plan says. |
| Programs.ReadsWhen | controllers/spec_preprocessor.go:31-115 | Reading succeeds exactly when everything is there and no call fails, and then yields what is there. |
| Machine.StepsRunOut | controllers/backstage_controller.go:146-269 | Every call brings a run nearer to its end. |
| Convergence.RunMeans | controllers/backstage_controller.go:127-134 | Applying and cleaning succeed exactly when they meet no fault, and then leave what the plan means, from any earlier state. |
| Convergence.SettleAt | controllers/backstage_controller.go:146-192 | Key by key: deleted keys are gone, applied keys hold the wanted object merged over what was there, other keys are untouched. |
| Convergence.MergedTwice | controllers/backstage_controller.go:146-233 | Applying a wanted object again changes nothing but fields now wanted otherwise. |
| Convergence.PatchKeepsLabels | controllers/backstage_controller.go:198-233 | In every state of a run, its patch drops no label or annotation of any live object. |
| Plans.ClusterAfterRun | controllers/backstage_controller.go:127-134 | The cluster after a successful run of a built model, at every key of the CR. |
| Stored.LabelsAfterRun | controllers/backstage_controller.go:198-233 | After a successful run, for every object that is read first: each non-empty label and annotation of the built object has its value in the cluster, live entries that it lacks or has empty keep theirs, and there are no others. |
| Stored.SecretLabelsAfterRun | controllers/backstage_controller.go:152-167 | For a Secret that is patched blindly: every built entry wins, the other live ones stay. |
| Stored.StoredAsBuilt | controllers/backstage_controller.go:169-186 | Everything else of an object that is read first is stored as it was built. |
| Stored.StoredSelectorsAgree | controllers/backstage_controller.go:169-186 | The stored selector of a service selects the stored pods of a workload exactly as SelectorsAgree says. |
| Stored.StoredDeployment | controllers/backstage_controller.go:169-186 | The stored Deployment has the replicas, containers, volumes and pull secrets of the finished pod. |
| Stored.StoredRoute | controllers/backstage_controller.go:169-186 | The stored Route leads to the stored Service. |
| Stored.StoredCredentials | controllers/backstage_controller.go:154-167 | A run that creates the DB secret stores its own password for both users, and the database service's name. |
| Plans.SecretsAreNotRead | controllers/backstage_controller.go:153-156 | No run reads a Secret. |
| Plans.PlanIsLawful | controllers/backstage_controller.go:146-269 | A run names no key but its own CR's. |
| Plans.PlanIsDistinct | pkg/model/runtime.go:81-89 | No two items of a run share a key. |
| Plans.Deleted | controllers/backstage_controller.go:235-259 | Which of its own keys a run deletes, as an if and only if. |
| Plans.NoDatabaseLeft | controllers/backstage_controller.go:239-249 | With the local database disabled nothing of it is applied and nothing of it is left. |
| Plans.RouteExactlyWhenEnabled | controllers/backstage_controller.go:252-256 | On OpenShift a Route exists after the run exactly when the CR enables it, even if route.yaml is configured. |
| Plans.RouteOnlyOnOpenShift | pkg/model/route.go:107-110 | Elsewhere no run touches a Route. |
| Plans.DefaultReferencesExist | controllers/backstage_controller.go:150-190 | After a successful run every default reference of the pod is in the cluster. |
| Interleaving.CallIsLocal | controllers/backstage_controller.go:146-269 | A call touches its own key only, and its effect and reply depend on that key only. |
| Isolation.OthersDoNotInterfere | controllers/backstage_controller.go:146-269 | Under every interleaving of reads, calls and faults, a CR's objects and runs, from their first read on, are what they would be without the other CRs, as long as those of its runs that take part read nothing that belongs to another. |
| Lasting.StaysUntilDeleted | controllers/backstage_controller.go:154-167 | Once there, an object that runs only ever create never changes until a call deletes it. |
| Lasting.HoldsAsCreated | controllers/backstage_controller.go:154-167 | What holds of such an object whenever it is created holds throughout, deletions included. |
| Lasting.TickKeepsLabels | controllers/backstage_controller.go:198-233 | No call of any run, at any moment of any history, takes a label or annotation from an object it leaves there. |
| Lasting.LabelsLast | controllers/backstage_controller.go:198-233 | Labels and annotations, whoever put them there, last until a call deletes the object or another writer takes them away. |
| Repetition.SecondPlanChangesNothing | controllers/backstage_controller.go:127-134 | Applying and cleaning a second time, for the same manifests, with whatever other ConfigMaps, password and loop orders, changes no object of the CR but the Deployment. |
| Repetition.SecondPlanIsIdle | controllers/backstage_controller.go:127-134 | For a rebuilt model with another password and the same loop orders it leaves the whole cluster exactly as it was. |
| Rereading.SecondRunReadsSame | controllers/backstage_controller.go:116-134 | After a successful run, a second run reads the same data exactly when each ConfigMap that the CR names and the first run applied already held what was applied. |
| Rereading.NamingNoneKeepsToItself | controllers/spec_preprocessor.go:31-115 | A CR that names no ConfigMap generated for it leaves alone all that the builder uses of what it names, whatever the cluster holds. |
| Rereading.SecondRunIsIdle | controllers/backstage_controller.go:114-134 | Whole runs with preprocessing, for a CR whose first run leaves alone what the builder uses of the ConfigMaps it names (the overlays of raw configuration, the presence of data, the selected file names): a second successful run with a new password leaves the whole cluster exactly as it was, when the map loops take the same orders. |
| Idempotence.SecondRunIsIdleExactly | controllers/backstage_controller.go:114-134 | That condition is exact, for every CR whose raw configuration is not generated for it: otherwise the second run changes the cluster. |
| Idempotence.SecondRunChangesDeployment | pkg/utils/pod-mutator.go:67-77 | What it changes then is the Deployment, whose mounts differ. |
| Rereading.SecondRunChangesLittle | controllers/backstage_controller.go:114-134 | Under that condition and in any loop orders it writes only the Deployment's fields anew, from inputs that differ as RebuildChangesLittle says. |
| OwnConfig.OwnNameDisturbs | controllers/spec_preprocessor.go:70-88 | A CR that lists its own generated ConfigMap: the first run succeeds and overwrites what it has read, the second one reads something else and, when it succeeds, changes the Deployment. |
| Repetition.ForeignKeysStay | controllers/backstage_controller.go:127-134 | A successful run changes no key that is not the CR's. |
| Interference.CrsAreIsolated | controllers/backstage_controller.go:77-139 | In histories of nothing but operator runs, a CR is isolated from all other CRs under every interleaving if and only if it names no ConfigMap that the operator generates for another CR; otherwise a run for that other CR changes what it reads. |
| Interference.NamingAnotherInterferes | controllers/spec_preprocessor.go:70-102 | Isolation fails for a CR "a" that lists "b-backstage-appconfig". |
| Histories.HistoriesAreIsolated | controllers/backstage_controller.go:77-139 | Isolation for histories in which specs, passwords and programs change from run to run; of the runs that the state remembers, only those that still make calls matter. |
| Histories.CredentialsStay | controllers/backstage_controller.go:154-167 | Once there, the DB secret never changes under any history of runs, faults, specs and passwords, until a delete call for it reaches the server. |
| Histories.OnlyDisablingDeletes | controllers/backstage_controller.go:239-249 | Only a run of the same CR, for a spec whose local database is disabled, makes such a call. |
| Histories.HostStays | pkg/model/db-secret.go:75-93 | A DB secret that is generated whenever it comes into being names its own CR's database service throughout, through deletions, new passwords and specs that later name an auth secret. |
| Histories.ConvergesAmidOthers | controllers/backstage_controller.go:114-134 | From any state, whatever earlier runs named or left half done, and while other CRs' runs go on with any faults, one run that meets no fault, names no ConfigMap of another CR and finds what it names reads it, plans, and brings all keys of its CR to what its plan means. |
| Guarantees.FailsFast | controllers/backstage_controller.go:114-125 | Preprocessing succeeds exactly when every named ConfigMap exists and no call fails; a run that does not get past building ends with an error and the objects it found (RunStages adds that it has sent Gets only). |
| Guarantees.SuccessMeans | controllers/backstage_controller.go:114-138 | A run returns no error exactly when everything named exists, the model can be built and no call fails; then the cluster is what the plan means. |
| Guarantees.OnlyOwnObjects | controllers/backstage_controller.go:146-269 | No run, even a failing one, changes an object that is not its CR's. |
| Conditions.TruthfulConditions | controllers/backstage_controller.go:110-144 | Given at most one Deployed condition, a run leaves exactly one; its status is true exactly when the run had no error, its reason is Deployed or DeployFailed accordingly, and other conditions stay. |
| Conditions.FirstStatus | controllers/backstage_controller.go:110-112 | The first status of a CR says that its deployment is in progress. |
| StatusHistory.RunTells | controllers/backstage_controller.go:100-138 | For every run that loads its CR and can store its status: the one Deployed condition that is then stored has status True and reason Deployed, or False and DeployFailed, as the run ended. |
| StatusHistory.DeployedExactly | controllers/backstage_controller.go:100-138 | Over every history of runs, edits of CRs, failed updates and panics: a CR has a Deployed condition with status True exactly when one of its runs has stored that and nothing has taken it back since; all four stages of that run have succeeded and left the cluster as its plan means. |

## Left out

- YAML decoding and file lookup (pkg/utils/utils.go:60-82): the decoded manifest of a kind, after default and overlay, is an input, or a flag that it cannot be read.
- What the API server does by itself: defaulting, immutable fields, cluster addresses, resource versions and conflicts on patches, turning `stringData` into `data`, garbage collection by owner reference.
- The bytes of the random password (pkg/utils/utils.go:84-92): any string.
- The unreachable end of `setRoute` (pkg/model/route.go:65-81), which follows a route that was just created empty.
- Objects left over when a default manifest or an optional kind is dropped: the code does not remove them, and no claim is made.
- Fields of manifests that the operator does not touch are carried along unread where an object has a place for them (the rest of a container, a pod, a Secret, the spec of a service, route or workload). Dropped are a service port's name, protocol and target port, the other members of a route's `to`, a ConfigMap's `binaryData`, and sources of variables other than ConfigMap and Secret keys; the termination of a manifest's TLS is taken to be the operator's own.
- A ConfigMap file with an empty name, which the API server does not accept: the exact condition of idempotence takes it that there is none among the ConfigMaps that the CR names.
- Manager setup, OpenShift discovery, logging, `recNumber`, messages and transition times of conditions.
- The load of the CR as a step of interleaved histories: a run has its spec when it starts, so a spec edited between the load and the first read counts as edited after.
- Two writers of one CR's status at once: a conflict counts as a refused update, as the code treats it.
- `metadata.creationTimestamp`, in the object and in a workload's `spec.template`: Go sends it as null when it is not set, and it is not a member of a resource here.
- A patch whose base read includes server-owned members: those members are not part of a resource here, so the nulls that a patch would send for them are not modelled.
- PodMutator.UpdatePodWithPlugins: follows the code in mounting into the first init container even when the named one is another, and claims nothing about the named container in that case.
