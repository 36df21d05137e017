/** Objects as the API server receives them: what client-go marshals, with empty fields left out. */
module Marshalling {
  import opened BackstageApi
  import opened MergePatch
  import opened Objects
  import opened Pods
  import opened Resources
  import opened Seqs
  import opened Wrappers

  /** Without null members at any depth below objects. */
  function Pruned(j: Json): Json {
    if j.Obj? then Obj(map k | k in j.members && j.members[k] != Null :: Pruned(j.members[k])) else j
  }

  function PrunedMembers(m: map<string, Json>): map<string, Json> {
    map k | k in m && m[k] != Null :: Pruned(m[k])
  }

  // Values that are left out when empty, as the omitempty tags say

  function TextOrNull(text: string): Json {
    if text != "" then Str(text) else Null
  }

  function ListOrNull(items: seq<Json>): Json {
    if items != [] then Arr(items) else Null
  }

  function StringsOrNull(m: map<string, string>): Json {
    if m != map[] then Strings(m) else Null
  }

  function NumberOrNull(n: Option<int>): Json {
    if n.Some? then Num(n.value) else Null
  }

  function FlagOrNull(flag: bool): Json {
    if flag then Bool(true) else Null
  }

  function Without(m: map<string, Json>, names: seq<string>): map<string, Json> {
    map k | k in m && k !in names :: m[k]
  }

  function WithFields(m: map<string, Json>, names: seq<string>, values: seq<Json>): map<string, Json>
    requires |names| == |values|
  {
    if names == [] then m else
      var n := |names| - 1;
      var before := WithFields(m, names[..n], values[..n]);
      if values[n] == Null then before else before[names[n] := values[n]]
  }

  /** The fields that have a place of their own, beside the others; a null stands for a field that is left out. */
  function Record(rest: map<string, Json>, names: seq<string>, values: seq<Json>): map<string, Json>
    requires |names| == |values|
  {
    WithFields(Without(rest, names), names, values)
  }

  lemma {:induction false} FieldsSet(m: map<string, Json>, names: seq<string>, values: seq<Json>)
    requires |names| == |values| && Distinct(names) && forall i :: 0 <= i < |names| ==> names[i] !in m
    ensures forall i :: 0 <= i < |names| ==> Get(WithFields(m, names, values), names[i]) == values[i]
    ensures Without(WithFields(m, names, values), names) == m
  {
    if names != [] {
      var n := |names| - 1;
      FieldsSet(m, names[..n], values[..n]);
      var before := WithFields(m, names[..n], values[..n]);
      assert names == names[..n] + [names[n]];
      assert names[n] !in names[..n];
      assert names[n] !in Without(before, names[..n]);
      assert Without(WithFields(m, names, values), names) == Without(before, names[..n]);
    }
  }

  lemma OneField(m: map<string, Json>, name: string, value: Json)
    requires name !in m
    ensures Get(WithFields(m, [name], [value]), name) == value
    ensures forall k :: k != name ==> Get(WithFields(m, [name], [value]), k) == Get(m, k)
  {
    assert WithFields(m, [], []) == m;
    assert [name][..0] == [] && [value][..0] == [];
  }

  /** Each field of a record is what it was given, and so are all the others. */
  lemma RecordReadsBack(rest: map<string, Json>, names: seq<string>, values: seq<Json>)
    requires |names| == |values| && Distinct(names)
    ensures forall i :: 0 <= i < |names| ==> Get(Record(rest, names, values), names[i]) == values[i]
    ensures Without(Record(rest, names, values), names) == Without(rest, names)
  {
    FieldsSet(Without(rest, names), names, values);
  }

  function Named(name: string): Json { Obj(WithFields(map[], ["name"], [TextOrNull(name)])) }

  function ReferenceJson(kind: ObjectKind, objectName: string): map<string, Json> {
    map[if kind == ConfigMapObject then "configMapRef" else "secretRef" := Named(objectName)]
  }

  function VolumeJson(v: Volume): Json {
    match v.source
    case FromObject(kind, objectName, mode, optional) =>
      var (source, reference) := if kind == ConfigMapObject then ("configMap", "name") else ("secret", "secretName");
      Obj(map["name" := Str(v.name),
              source := Obj(WithFields(map["defaultMode" := Num(mode), "optional" := Bool(optional)],
                                       [reference], [TextOrNull(objectName)]))])
    case OtherSource(rest) => Obj(Members(rest) + map["name" := Str(v.name)])
  }

  function MountJson(m: VolumeMount): Json {
    Obj(WithFields(map["name" := Str(m.name), "mountPath" := Str(m.mountPath)], ["subPath", "readOnly"],
                   [TextOrNull(m.subPath), FlagOrNull(m.readOnly)]))
  }

  function EnvJson(e: EnvVar): Json {
    match e
    case EnvValue(name, value) => Obj(WithFields(map["name" := Str(name)], ["value"], [TextOrNull(value)]))
    case EnvFromKey(name, kind, objectName, key) =>
      var source := if kind == ConfigMapObject then "configMapKeyRef" else "secretKeyRef";
      var selector := Obj(WithFields(map["key" := Str(key)], ["name"], [TextOrNull(objectName)]));
      Obj(map["name" := Str(name), "valueFrom" := Obj(map[source := selector])])
  }

  function EnvFromJson(e: EnvFromSource): Json { Obj(ReferenceJson(e.kind, e.objectName)) }

  function StrJson(s: string): Json { Str(s) }

  const CONTAINER_FIELDS: seq<string> := ["name", "image", "workingDir", "args", "env", "envFrom", "volumeMounts"]
  const POD_FIELDS: seq<string> :=
    ["containers", "initContainers", "ephemeralContainers", "volumes", "imagePullSecrets"]
  const SERVICE_FIELDS: seq<string> := ["selector", "ports"]
  const ROUTE_FIELDS: seq<string> := ["host", "subdomain", "tls", "to"]
  const WORKLOAD_FIELDS: seq<string> := ["replicas", "selector", "template"]
  const SECRET_FIELDS: seq<string> := ["stringData"]
  const TLS_FIELDS: seq<string> :=
    ["termination", "insecureEdgeTerminationPolicy", "certificate", "key", "caCertificate", "externalCertificate"]

  function ContainerJson(c: ContainerV): Json {
    Obj(Record(Members(c.rest), CONTAINER_FIELDS,
               [Str(c.name), TextOrNull(c.image), TextOrNull(c.workingDir), ListOrNull(Map(StrJson, c.args)),
                ListOrNull(Map(EnvJson, c.env)), ListOrNull(Map(EnvFromJson, c.envFrom)),
                ListOrNull(Map(MountJson, c.mounts))]))
  }

  function PodMembers(p: PodV): map<string, Json> {
    Record(Members(p.rest), POD_FIELDS,
           [Arr(Map(ContainerJson, p.containers)), ListOrNull(Map(ContainerJson, p.initContainers)),
            ListOrNull(Map(ContainerJson, p.ephemeral)), ListOrNull(Map(VolumeJson, p.volumes)),
            ListOrNull(Map(Named, p.pullSecrets))])
  }

  function PortJson(port: int): Json { Obj(map["port" := Num(port)]) }

  function TlsJson(tls: TLS): Json {
    Obj(Record(map[], TLS_FIELDS,
               [Str("edge"), Str("Redirect"), TextOrNull(tls.certificate), TextOrNull(tls.key),
                TextOrNull(tls.caCertificate), Named(tls.externalCertificateSecretName)]))
  }

  function TemplateJson(podLabels: Labels, pod: Option<PodV>): Json {
    Obj(map["metadata" := Obj(WithFields(map[], ["labels"], [StringsOrNull(podLabels)])),
            "spec" := Obj(if pod.None? then map[] else PodMembers(pod.value))])
  }

  function SelectorJson(matchLabels: Option<Labels>): Json {
    if matchLabels.None? then Null
    else Obj(WithFields(map[], ["matchLabels"], [StringsOrNull(matchLabels.value)]))
  }

  function SpecMembers(body: Body, pod: Option<PodV>): map<string, Json> {
    match body
    case ServiceBody(selector, ports, rest) =>
      Record(rest, SERVICE_FIELDS, [StringsOrNull(selector), ListOrNull(Map(PortJson, ports))])
    case RouteBody(host, subdomain, tls, toName, rest) =>
      Record(rest, ROUTE_FIELDS, [TextOrNull(host), TextOrNull(subdomain),
                                  if tls.None? then Null else TlsJson(tls.value),
                                  Obj(map["name" := Str(toName)])])
    case WorkloadBody(replicas, matchLabels, podLabels, rest) =>
      Record(rest, WORKLOAD_FIELDS, [NumberOrNull(replicas), SelectorJson(matchLabels), TemplateJson(podLabels, pod)])
    case _ => map[]
  }

  /** A ConfigMap's or Secret's map of strings: a nil map and an empty one look the same. */
  function DataOrNull(data: Data): Json {
    if data.None? then Null else StringsOrNull(data.value)
  }

  function AllFields(o: ObjectV): map<string, Json> {
    match o.body
    case ConfigMapBody(data) => WithFields(map[], ["data"], [DataOrNull(data)])
    case SecretBody(stringData, rest) => Record(rest, SECRET_FIELDS, [DataOrNull(stringData)])
    case _ => map["spec" := Obj(SpecMembers(o.body, o.pod))]
  }

  /** Everything beside the metadata; unset fields do not show as nulls. */
  function FieldsOf(o: ObjectV): map<string, Json> {
    PrunedMembers(AllFields(o)) - {"metadata"}
  }

  function OwnerJson(o: OwnerRef): Json {
    Obj(WithFields(map["kind" := Str(o.kind), "name" := Str(o.name)], ["controller"], [FlagOrNull(o.controller)]))
  }

  function MetaOf(m: Meta): (r: map<string, Json>)
    ensures r.Keys <= {"name", "namespace", "ownerReferences"}
    ensures forall k :: k in r ==> r[k] != Null && NullFree(r[k])
  {
    var base := map["name" := Str(m.name), "namespace" := Str(m.namespace)];
    OneField(base, "ownerReferences", ListOrNull(Map(OwnerJson, m.owners)));
    WithFields(base, ["ownerReferences"], [ListOrNull(Map(OwnerJson, m.owners))])
  }

  /** What the operator sends for an object of its model. */
  function ResourceOf(o: ObjectV): Resource {
    Resource(o.meta.labels, o.meta.annotations, MetaOf(o.meta), FieldsOf(o))
  }

  /** The data of a ConfigMap that the operator has read. */
  function DataOf(r: Resource): Data {
    if "data" in r.fields then Some(StringsOf(r.fields["data"])) else None
  }

  lemma {:induction false} PrunedIsNullFree(j: Json)
    ensures NullFree(Pruned(j))
    ensures j != Null ==> Pruned(j) != Null
  {
    if j.Obj? {
      forall k | k in j.members && j.members[k] != Null
        ensures NullFree(Pruned(j.members[k])) && Pruned(j.members[k]) != Null
      {
        PrunedIsNullFree(j.members[k]);
      }
    }
  }

  /** Nothing the operator sends holds a null, so a merge patch can express all of it. */
  lemma SentIsNullFree(o: ObjectV)
    ensures NullFreeResource(ResourceOf(o))
  {
    var m := AllFields(o);
    forall k | k in m && m[k] != Null ensures NullFree(Pruned(m[k])) && Pruned(m[k]) != Null {
      PrunedIsNullFree(m[k]);
    }
  }

  lemma PrunedStrings(m: map<string, string>)
    ensures Pruned(Strings(m)) == Strings(m)
  {
    assert Pruned(Strings(m)).members == Strings(m).members;
  }

  /** A ConfigMap reads back with the data it was sent with, an empty map as none. */
  lemma DataReadsBack(o: ObjectV)
    requires o.body.ConfigMapBody?
    ensures DataOf(ResourceOf(o)) == if o.body.data == Some(map[]) then None else o.body.data
  {
    OneField(map[], "data", DataOrNull(o.body.data));
    if o.body.data.Some? {
      StringsRoundTrip(o.body.data.value);
      PrunedStrings(o.body.data.value);
    }
  }
}
