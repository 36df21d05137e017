/** Every object can be read back from what is sent of it, field by field, under the names of the Kubernetes API. */
module SentObjects {
  import opened BackstageApi
  import opened Marshalling
  import opened MergePatch
  import opened Objects
  import opened Pods
  import opened Resources
  import opened Seqs
  import opened Wrappers

  function TextOf(j: Json): string {
    if j.Str? then j.s else ""
  }

  function NumberOf(j: Json): int {
    if j.Num? then j.n else 0
  }

  function ItemsIn(j: Json): seq<Json> {
    if j.Arr? then j.items else []
  }

  function TextAt(m: map<string, Json>, k: string): string { TextOf(Get(m, k)) }

  function ItemsAt(m: map<string, Json>, k: string): seq<Json> { ItemsIn(Get(m, k)) }

  function StringsAt(m: map<string, Json>, k: string): map<string, string> { StringsOf(Get(m, k)) }

  function MembersAt(m: map<string, Json>, k: string): map<string, Json> { Members(Get(m, k)) }

  lemma NamesAreDistinct()
    ensures Distinct(CONTAINER_FIELDS) && Distinct(POD_FIELDS)
  {
  }

  lemma OtherNamesAreDistinct()
    ensures Distinct(SERVICE_FIELDS) && Distinct(ROUTE_FIELDS) && Distinct(WORKLOAD_FIELDS) && Distinct(TLS_FIELDS)
    ensures Distinct(SECRET_FIELDS)
  {
  }

  /** Reading back each item of a list. */
  lemma ListReadsBack<T(!new)>(f: T -> Json, g: Json -> T, items: seq<T>)
    requires forall x :: x in items ==> g(f(x)) == x
    ensures Map(g, Map(f, items)) == items
  {
    assert |Map(g, Map(f, items))| == |items|;
    forall i | 0 <= i < |items| ensures Map(g, Map(f, items))[i] == items[i] {
      assert items[i] in items;
      assert Map(g, Map(f, items))[i] == g(Map(f, items)[i]) == g(f(items[i]));
    }
  }

  lemma ListOrNullReadsBack(items: seq<Json>)
    ensures ItemsIn(ListOrNull(items)) == items && ItemsIn(Pruned(ListOrNull(items))) == items
  {
  }

  lemma StringsOrNullReadBack(m: map<string, string>)
    ensures StringsOf(Pruned(StringsOrNull(m))) == m
  {
    PrunedStrings(m);
    StringsRoundTrip(m);
  }

  /** What is left of a member after pruning. */
  lemma PrunedGet(m: map<string, Json>, k: string)
    ensures Get(PrunedMembers(m), k) == Pruned(Get(m, k))
  {
  }

  // Metadata

  function OwnerFrom(j: Json): OwnerRef {
    var m := Members(j);
    OwnerRef(TextAt(m, "kind"), TextAt(m, "name"), Get(m, "controller") == Bool(true))
  }

  lemma OwnerReadsBack(o: OwnerRef)
    ensures OwnerFrom(OwnerJson(o)) == o
  {
    OneField(map["kind" := Str(o.kind), "name" := Str(o.name)], "controller", FlagOrNull(o.controller));
  }

  lemma OwnersReadBack(owners: seq<OwnerRef>)
    ensures Map(OwnerFrom, Map(OwnerJson, owners)) == owners
  {
    forall o | o in owners ensures OwnerFrom(OwnerJson(o)) == o {
      OwnerReadsBack(o);
    }
    ListReadsBack(OwnerJson, OwnerFrom, owners);
  }

  /** Name, namespace, labels, annotations and owners. */
  lemma MetadataReadsBack(o: ObjectV)
    ensures var r := ResourceOf(o);
            && r.labels == o.meta.labels && r.annotations == o.meta.annotations
            && TextAt(r.meta, "name") == o.meta.name && TextAt(r.meta, "namespace") == o.meta.namespace
            && Map(OwnerFrom, ItemsAt(r.meta, "ownerReferences")) == o.meta.owners
  {
    var base := map["name" := Str(o.meta.name), "namespace" := Str(o.meta.namespace)];
    OneField(base, "ownerReferences", ListOrNull(Map(OwnerJson, o.meta.owners)));
    OwnersReadBack(o.meta.owners);
  }

  // Specs

  lemma SpecIsIn(o: ObjectV)
    requires !o.body.ConfigMapBody? && !o.body.SecretBody?
    ensures MembersAt(FieldsOf(o), "spec") == PrunedMembers(SpecMembers(o.body, o.pod))
    ensures FieldsOf(o).Keys == {"spec"}
  {
  }

  /** Field i of a record, after pruning. */
  lemma PrunedField(rest: map<string, Json>, names: seq<string>, values: seq<Json>, i: nat)
    requires |names| == |values| && Distinct(names) && i < |names|
    ensures Get(PrunedMembers(Record(rest, names, values)), names[i]) == Pruned(values[i])
  {
    RecordReadsBack(rest, names, values);
    PrunedGet(Record(rest, names, values), names[i]);
  }

  function PortFrom(j: Json): int { NumberOf(Get(Members(j), "port")) }

  lemma PortsReadBack(ports: seq<int>)
    ensures Map(PortFrom, Map(PortJson, ports)) == ports
  {
    forall p | p in ports ensures PortFrom(PortJson(p)) == p {
    }
    ListReadsBack(PortJson, PortFrom, ports);
  }

  /** A service's selector and ports. */
  lemma ServiceReadsBack(o: ObjectV)
    requires o.body.ServiceBody?
    ensures var spec := MembersAt(FieldsOf(o), "spec");
            && StringsAt(spec, "selector") == o.body.selector
            && Map(PortFrom, ItemsAt(spec, "ports")) == o.body.ports
  {
    var values := [StringsOrNull(o.body.selector), ListOrNull(Map(PortJson, o.body.ports))];
    SpecIsIn(o);
    OtherNamesAreDistinct();
    PrunedField(o.body.rest, SERVICE_FIELDS, values, 0);
    PrunedField(o.body.rest, SERVICE_FIELDS, values, 1);
    StringsOrNullReadBack(o.body.selector);
    ListOrNullReadsBack(Map(PortJson, o.body.ports));
    PortsReadBack(o.body.ports);
  }

  function TlsFrom(j: Json): TLS {
    var m := Members(j);
    TLS(TextAt(m, "certificate"), TextAt(MembersAt(m, "externalCertificate"), "name"), TextAt(m, "key"),
        TextAt(m, "caCertificate"))
  }

  lemma NameReadsBack(name: string)
    ensures TextAt(Members(Pruned(Named(name))), "name") == name
    ensures TextAt(Members(Named(name)), "name") == name
  {
    OneField(map[], "name", TextOrNull(name));
    PrunedGet(Members(Named(name)), "name");
  }

  lemma TlsReadsBack(tls: TLS)
    ensures var j := Pruned(TlsJson(tls));
            && j.Obj? && TlsFrom(j) == tls
            && TextAt(Members(j), "termination") == "edge"
            && TextAt(Members(j), "insecureEdgeTerminationPolicy") == "Redirect"
  {
    var values := [Str("edge"), Str("Redirect"), TextOrNull(tls.certificate), TextOrNull(tls.key),
                   TextOrNull(tls.caCertificate), Named(tls.externalCertificateSecretName)];
    OtherNamesAreDistinct();
    assert Members(Pruned(TlsJson(tls))) == PrunedMembers(Record(map[], TLS_FIELDS, values));
    PrunedField(map[], TLS_FIELDS, values, 0);
    PrunedField(map[], TLS_FIELDS, values, 1);
    PrunedField(map[], TLS_FIELDS, values, 2);
    PrunedField(map[], TLS_FIELDS, values, 3);
    PrunedField(map[], TLS_FIELDS, values, 4);
    PrunedField(map[], TLS_FIELDS, values, 5);
    NameReadsBack(tls.externalCertificateSecretName);
  }

  /** A route's host, subdomain, TLS and target. */
  lemma RouteReadsBack(o: ObjectV)
    requires o.body.RouteBody?
    ensures var spec := MembersAt(FieldsOf(o), "spec");
            && TextAt(spec, "host") == o.body.host && TextAt(spec, "subdomain") == o.body.subdomain
            && (Get(spec, "tls") == Null <==> o.body.tls.None?)
            && (o.body.tls.Some? ==> TlsFrom(Get(spec, "tls")) == o.body.tls.value)
            && TextAt(MembersAt(spec, "to"), "name") == o.body.toName
  {
    var values := [TextOrNull(o.body.host), TextOrNull(o.body.subdomain),
                   if o.body.tls.None? then Null else TlsJson(o.body.tls.value),
                   Obj(map["name" := Str(o.body.toName)])];
    SpecIsIn(o);
    OtherNamesAreDistinct();
    PrunedField(o.body.rest, ROUTE_FIELDS, values, 0);
    PrunedField(o.body.rest, ROUTE_FIELDS, values, 1);
    PrunedField(o.body.rest, ROUTE_FIELDS, values, 2);
    PrunedField(o.body.rest, ROUTE_FIELDS, values, 3);
    if o.body.tls.Some? {
      TlsReadsBack(o.body.tls.value);
    }
    PrunedGet(map["name" := Str(o.body.toName)], "name");
  }

  function DataOrEmpty(data: Data): map<string, string> {
    if data.Some? then data.value else map[]
  }

  /** A Secret's string data, an empty map as none. */
  lemma SecretReadsBack(o: ObjectV)
    requires o.body.SecretBody?
    ensures StringsAt(FieldsOf(o), "stringData") == DataOrEmpty(o.body.stringData)
  {
    OtherNamesAreDistinct();
    PrunedField(o.body.rest, SECRET_FIELDS, [DataOrNull(o.body.stringData)], 0);
    StringsOrNullReadBack(DataOrEmpty(o.body.stringData));
  }

  /** A ConfigMap's data, an empty map as none. */
  lemma ConfigMapReadsBack(o: ObjectV)
    requires o.body.ConfigMapBody?
    ensures StringsAt(FieldsOf(o), "data") == DataOrEmpty(o.body.data)
    ensures DataOf(ResourceOf(o)) == if o.body.data == Some(map[]) then None else o.body.data
  {
    DataReadsBack(o);
    OneField(map[], "data", DataOrNull(o.body.data));
    PrunedGet(AllFields(o), "data");
    StringsOrNullReadBack(DataOrEmpty(o.body.data));
  }

  // Workloads

  /** The template of a workload's pods. */
  function TemplateIn(fields: map<string, Json>): map<string, Json> { MembersAt(MembersAt(fields, "spec"), "template") }

  function PodLabelsIn(fields: map<string, Json>): Labels {
    StringsAt(MembersAt(TemplateIn(fields), "metadata"), "labels")
  }

  function PodIn(fields: map<string, Json>): map<string, Json> { MembersAt(TemplateIn(fields), "spec") }

  lemma TemplateReadsBack(podLabels: Labels, pod: PodV)
    ensures var m := Members(Pruned(TemplateJson(podLabels, Some(pod))));
            && StringsAt(MembersAt(m, "metadata"), "labels") == podLabels
            && MembersAt(m, "spec") == PrunedMembers(PodMembers(pod))
  {
    var template := Members(TemplateJson(podLabels, Some(pod)));
    var metadata := WithFields(map[], ["labels"], [StringsOrNull(podLabels)]);
    OneField(map[], "labels", StringsOrNull(podLabels));
    PrunedGet(template, "metadata");
    PrunedGet(template, "spec");
    PrunedGet(metadata, "labels");
    StringsOrNullReadBack(podLabels);
  }

  lemma SelectorReadsBack(matchLabels: Option<Labels>)
    ensures matchLabels.Some? ==>
              StringsAt(Members(Pruned(SelectorJson(matchLabels))), "matchLabels") == matchLabels.value
    ensures Pruned(SelectorJson(matchLabels)) == Null <==> matchLabels.None?
  {
    if matchLabels.Some? {
      OneField(map[], "matchLabels", StringsOrNull(matchLabels.value));
      PrunedGet(Members(SelectorJson(matchLabels)), "matchLabels");
      StringsOrNullReadBack(matchLabels.value);
    }
  }

  /** A workload's replicas, selector, pod labels and pod. */
  lemma WorkloadReadsBack(o: ObjectV)
    requires o.body.WorkloadBody? && o.pod.Some?
    ensures var spec := MembersAt(FieldsOf(o), "spec");
            && Get(spec, "replicas") == NumberOrNull(o.body.replicas)
            && (Get(spec, "selector") == Null <==> o.body.matchLabels.None?)
            && (o.body.matchLabels.Some? ==>
                  StringsAt(MembersAt(spec, "selector"), "matchLabels") == o.body.matchLabels.value)
            && PodLabelsIn(FieldsOf(o)) == o.body.podLabels
            && PodIn(FieldsOf(o)) == PrunedMembers(PodMembers(o.pod.value))
  {
    var values := [NumberOrNull(o.body.replicas), SelectorJson(o.body.matchLabels),
                   TemplateJson(o.body.podLabels, o.pod)];
    SpecIsIn(o);
    OtherNamesAreDistinct();
    PrunedField(o.body.rest, WORKLOAD_FIELDS, values, 0);
    PrunedField(o.body.rest, WORKLOAD_FIELDS, values, 1);
    PrunedField(o.body.rest, WORKLOAD_FIELDS, values, 2);
    SelectorReadsBack(o.body.matchLabels);
    TemplateReadsBack(o.body.podLabels, o.pod.value);
  }

  // Containers

  function MountFrom(j: Json): VolumeMount {
    var m := Members(j);
    VolumeMount(TextAt(m, "name"), TextAt(m, "mountPath"), TextAt(m, "subPath"), Get(m, "readOnly") == Bool(true))
  }

  lemma TwoFields(m: map<string, Json>, a: string, b: string, v: Json, w: Json)
    requires a !in m && b !in m && a != b
    ensures var r := WithFields(m, [a, b], [v, w]);
            Get(r, a) == v && Get(r, b) == w && forall k :: k != a && k != b ==> Get(r, k) == Get(m, k)
  {
    OneField(m, a, v);
    assert [a, b][..1] == [a] && [v, w][..1] == [v];
    assert WithFields(m, [a, b], [v, w])
           == if w == Null then WithFields(m, [a], [v]) else WithFields(m, [a], [v])[b := w];
  }

  lemma MountReadsBack(m: VolumeMount)
    ensures MountFrom(MountJson(m)) == m
  {
    TwoFields(map["name" := Str(m.name), "mountPath" := Str(m.mountPath)], "subPath", "readOnly",
              TextOrNull(m.subPath), FlagOrNull(m.readOnly));
  }

  lemma MountsReadBack(mounts: seq<VolumeMount>)
    ensures Map(MountFrom, Map(MountJson, mounts)) == mounts
  {
    forall m | m in mounts ensures MountFrom(MountJson(m)) == m {
      MountReadsBack(m);
    }
    ListReadsBack(MountJson, MountFrom, mounts);
  }

  function EnvFrom(j: Json): EnvVar {
    var m := Members(j);
    var source := MembersAt(m, "valueFrom");
    if "configMapKeyRef" in source then
      KeyFrom(TextAt(m, "name"), ConfigMapObject, MembersAt(source, "configMapKeyRef"))
    else if "secretKeyRef" in source then
      KeyFrom(TextAt(m, "name"), SecretObject, MembersAt(source, "secretKeyRef"))
    else EnvValue(TextAt(m, "name"), TextAt(m, "value"))
  }

  function KeyFrom(name: string, kind: ObjectKind, selector: map<string, Json>): EnvVar {
    EnvFromKey(name, kind, TextAt(selector, "name"), TextAt(selector, "key"))
  }

  lemma EnvReadsBack(e: EnvVar)
    ensures EnvFrom(EnvJson(e)) == e
  {
    match e
    case EnvValue(name, value) => OneField(map["name" := Str(name)], "value", TextOrNull(value));
    case EnvFromKey(_, _, objectName, key) => OneField(map["key" := Str(key)], "name", TextOrNull(objectName));
  }

  lemma EnvsReadBack(env: seq<EnvVar>)
    ensures Map(EnvFrom, Map(EnvJson, env)) == env
  {
    forall e | e in env ensures EnvFrom(EnvJson(e)) == e {
      EnvReadsBack(e);
    }
    ListReadsBack(EnvJson, EnvFrom, env);
  }

  function SourceFrom(j: Json): EnvFromSource {
    var m := Members(j);
    if "configMapRef" in m then EnvFromSource(ConfigMapObject, TextAt(MembersAt(m, "configMapRef"), "name"))
    else EnvFromSource(SecretObject, TextAt(MembersAt(m, "secretRef"), "name"))
  }

  lemma SourcesReadBack(sources: seq<EnvFromSource>)
    ensures Map(SourceFrom, Map(EnvFromJson, sources)) == sources
  {
    forall e | e in sources ensures SourceFrom(EnvFromJson(e)) == e {
      NameReadsBack(e.objectName);
    }
    ListReadsBack(EnvFromJson, SourceFrom, sources);
  }

  lemma ArgsReadBack(args: seq<string>)
    ensures Map(TextOf, Map(StrJson, args)) == args
  {
    forall s | s in args ensures TextOf(StrJson(s)) == s {
    }
    ListReadsBack(StrJson, TextOf, args);
  }

  function ContainerFrom(j: Json): ContainerV {
    var m := Members(j);
    ContainerV(TextAt(m, "name"), TextAt(m, "image"), TextAt(m, "workingDir"), Map(TextOf, ItemsAt(m, "args")),
               Map(EnvFrom, ItemsAt(m, "env")), Map(SourceFrom, ItemsAt(m, "envFrom")),
               Map(MountFrom, ItemsAt(m, "volumeMounts")), Obj(Without(m, CONTAINER_FIELDS)))
  }

  /** The rest of a container without the fields that have a place of their own. */
  function Plain(c: ContainerV): ContainerV { c.(rest := Obj(Without(Members(c.rest), CONTAINER_FIELDS))) }

  function ContainerValues(c: ContainerV): seq<Json> {
    [Str(c.name), TextOrNull(c.image), TextOrNull(c.workingDir), ListOrNull(Map(StrJson, c.args)),
     ListOrNull(Map(EnvJson, c.env)), ListOrNull(Map(EnvFromJson, c.envFrom)), ListOrNull(Map(MountJson, c.mounts))]
  }

  lemma ContainerMembers(c: ContainerV)
    ensures var m, v := Members(ContainerJson(c)), ContainerValues(c);
            && Get(m, "name") == v[0] && Get(m, "image") == v[1] && Get(m, "workingDir") == v[2]
            && Get(m, "args") == v[3] && Get(m, "env") == v[4] && Get(m, "envFrom") == v[5]
            && Get(m, "volumeMounts") == v[6]
            && Without(m, CONTAINER_FIELDS) == Without(Members(c.rest), CONTAINER_FIELDS)
  {
    NamesAreDistinct();
    RecordReadsBack(Members(c.rest), CONTAINER_FIELDS, ContainerValues(c));
  }

  /** Every field of a container. */
  lemma ContainerReadsBack(c: ContainerV)
    ensures ContainerFrom(ContainerJson(c)) == Plain(c)
  {
    ContainerMembers(c);
    ListOrNullReadsBack(Map(StrJson, c.args));
    ListOrNullReadsBack(Map(EnvJson, c.env));
    ListOrNullReadsBack(Map(EnvFromJson, c.envFrom));
    ListOrNullReadsBack(Map(MountJson, c.mounts));
    ArgsReadBack(c.args);
    EnvsReadBack(c.env);
    SourcesReadBack(c.envFrom);
    MountsReadBack(c.mounts);
  }

  lemma AllContainersReadBack(cs: seq<ContainerV>)
    ensures Map(ContainerFrom, Map(ContainerJson, cs)) == Map(Plain, cs)
  {
    var sent := Map(ContainerJson, cs);
    assert |Map(ContainerFrom, sent)| == |Map(Plain, cs)|;
    forall i | 0 <= i < |cs| ensures Map(ContainerFrom, sent)[i] == Plain(cs[i]) {
      assert sent[i] == ContainerJson(cs[i]);
      ContainerReadsBack(cs[i]);
    }
  }

  // Pods

  /** The containers in a list of a pod as it was sent. */
  function ContainersIn(pod: map<string, Json>, list: string): seq<ContainerV> {
    Map(ContainerFrom, ItemsAt(pod, list))
  }

  /** A volume of a ConfigMap or Secret that the operator adds. */
  function VolumeFrom(j: Json): Volume {
    var m := Members(j);
    if "configMap" in m then
      var s := MembersAt(m, "configMap");
      Volume(TextAt(m, "name"), FromObject(ConfigMapObject, TextAt(s, "name"), NumberOf(Get(s, "defaultMode")),
                                           Get(s, "optional") == Bool(true)))
    else
      var s := MembersAt(m, "secret");
      Volume(TextAt(m, "name"), FromObject(SecretObject, TextAt(s, "secretName"), NumberOf(Get(s, "defaultMode")),
                                           Get(s, "optional") == Bool(true)))
  }

  lemma VolumeReadsBack(v: Volume)
    ensures v.source.FromObject? ==> VolumeFrom(VolumeJson(v)) == v
    ensures TextAt(Members(VolumeJson(v)), "name") == v.name
    ensures v.source.OtherSource? ==>
              forall k :: k != "name" ==> Get(Members(VolumeJson(v)), k) == Get(Members(v.source.rest), k)
  {
    if v.source.FromObject? {
      var base := map["defaultMode" := Num(v.source.defaultMode), "optional" := Bool(v.source.optional)];
      OneField(base, "name", TextOrNull(v.source.objectName));
      OneField(base, "secretName", TextOrNull(v.source.objectName));
    }
  }

  function PodValues(p: PodV): seq<Json> {
    [Arr(Map(ContainerJson, p.containers)), ListOrNull(Map(ContainerJson, p.initContainers)),
     ListOrNull(Map(ContainerJson, p.ephemeral)), ListOrNull(Map(VolumeJson, p.volumes)),
     ListOrNull(Map(Named, p.pullSecrets))]
  }

  function NameFrom(j: Json): string { TextAt(Members(j), "name") }

  lemma SecretNamesReadBack(names: seq<string>)
    ensures Map(NameFrom, Map(Named, names)) == names
  {
    forall name | name in names ensures NameFrom(Named(name)) == name {
      NameReadsBack(name);
    }
    ListReadsBack(Named, NameFrom, names);
  }

  lemma PodLists(p: PodV)
    ensures var m := PrunedMembers(PodMembers(p));
            && ItemsAt(m, "containers") == Map(ContainerJson, p.containers)
            && ItemsAt(m, "initContainers") == Map(ContainerJson, p.initContainers)
            && ItemsAt(m, "ephemeralContainers") == Map(ContainerJson, p.ephemeral)
            && ItemsAt(m, "volumes") == Map(VolumeJson, p.volumes)
            && ItemsAt(m, "imagePullSecrets") == Map(Named, p.pullSecrets)
  {
    NamesAreDistinct();
    var rest, v := Members(p.rest), PodValues(p);
    PrunedField(rest, POD_FIELDS, v, 0);
    PrunedField(rest, POD_FIELDS, v, 1);
    PrunedField(rest, POD_FIELDS, v, 2);
    PrunedField(rest, POD_FIELDS, v, 3);
    PrunedField(rest, POD_FIELDS, v, 4);
    ListOrNullReadsBack(Map(ContainerJson, p.initContainers));
    ListOrNullReadsBack(Map(ContainerJson, p.ephemeral));
    ListOrNullReadsBack(Map(VolumeJson, p.volumes));
    ListOrNullReadsBack(Map(Named, p.pullSecrets));
  }

  /** A pod's containers of every sort, its volumes and pull secrets. */
  lemma PodReadsBack(p: PodV)
    ensures var m := PrunedMembers(PodMembers(p));
            && ContainersIn(m, "containers") == Map(Plain, p.containers)
            && ContainersIn(m, "initContainers") == Map(Plain, p.initContainers)
            && ContainersIn(m, "ephemeralContainers") == Map(Plain, p.ephemeral)
            && ItemsAt(m, "volumes") == Map(VolumeJson, p.volumes)
            && Map(NameFrom, ItemsAt(m, "imagePullSecrets")) == p.pullSecrets
  {
    PodLists(p);
    AllContainersReadBack(p.containers);
    AllContainersReadBack(p.initContainers);
    AllContainersReadBack(p.ephemeral);
    SecretNamesReadBack(p.pullSecrets);
  }

  /** Workloads that are sent alike mount alike. */
  lemma SentAlikeMountsAlike(v: ObjectV, w: ObjectV)
    requires v.body.WorkloadBody? && v.pod.Some? && w.body.WorkloadBody? && w.pod.Some?
    requires FieldsOf(v) == FieldsOf(w)
    ensures |v.pod.value.containers| == |w.pod.value.containers|
    ensures |v.pod.value.initContainers| == |w.pod.value.initContainers|
    ensures forall i :: 0 <= i < |v.pod.value.containers| ==>
              v.pod.value.containers[i].mounts == w.pod.value.containers[i].mounts
    ensures forall i :: 0 <= i < |v.pod.value.initContainers| ==>
              v.pod.value.initContainers[i].mounts == w.pod.value.initContainers[i].mounts
  {
    WorkloadReadsBack(v);
    WorkloadReadsBack(w);
    PodReadsBack(v.pod.value);
    PodReadsBack(w.pod.value);
    PlainAlike(v.pod.value.containers, w.pod.value.containers);
    PlainAlike(v.pod.value.initContainers, w.pod.value.initContainers);
  }

  lemma PlainAlike(cs: seq<ContainerV>, ds: seq<ContainerV>)
    requires Map(Plain, cs) == Map(Plain, ds)
    ensures |cs| == |ds| && forall i :: 0 <= i < |cs| ==> cs[i].mounts == ds[i].mounts
  {
    assert |Map(Plain, cs)| == |Map(Plain, ds)|;
    forall i | 0 <= i < |cs| ensures cs[i].mounts == ds[i].mounts {
      assert Map(Plain, cs)[i] == Plain(cs[i]) && Map(Plain, ds)[i] == Plain(ds[i]);
    }
  }
}
