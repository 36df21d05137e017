/** Kubernetes objects on the heap. */
module KubeObjects {
  import opened Names
  import opened Objects
  import opened PodMutator
  import opened Pods
  import opened Seqs
  import opened Wrappers

  class KubeObject {
    var meta: Meta
    var body: Body
    const pod: PodSpec?

    constructor (meta: Meta, body: Body, pod: PodSpec?)
      ensures this.meta == meta && this.body == body && this.pod == pod
    {
      this.meta, this.body, this.pod := meta, body, pod;
    }

    ghost function Footprint(): set<object> {
      {this as object} + if pod == null then {} else pod.Footprint()
    }

    ghost predicate Valid() { pod != null ==> pod.Valid() && this !in pod.Footprint() }

    function Value(): ObjectV
      reads Footprint()
    {
      ObjectV(meta, body, if pod == null then None else Some(pod.Value()))
    }
  }

  method NewContainers(vs: seq<ContainerV>) returns (cs: seq<Container>)
    ensures fresh(cs) && Distinct(cs) && Values(cs) == vs
  {
    cs := [];
    for i := 0 to |vs|
      invariant |cs| == i && fresh(cs) && Distinct(cs)
      invariant forall j | 0 <= j < i :: cs[j].Value() == vs[j]
    {
      var c := new Container(vs[i]);
      cs := cs + [c];
    }
  }

  lemma DistinctOfThree<T>(a: seq<T>, b: seq<T>, c: seq<T>)
    requires Distinct(a) && Distinct(b) && Distinct(c)
    requires forall x | x in a :: x !in b && x !in c
    requires forall x | x in b :: x !in c
    ensures Distinct(a + b + c)
  {
    var s := a + b + c;
    forall i, j | 0 <= i < j < |s| ensures s[i] != s[j] {
      if i < |a| {
        assert s[i] in a;
        if j >= |a| { assert s[j] in b || s[j] in c; }
      } else if i < |a| + |b| {
        assert s[i] == b[i - |a|];
        if j >= |a| + |b| { assert s[j] in c; }
      }
    }
  }

  method NewPod(v: PodV) returns (p: PodSpec)
    ensures fresh(p.Footprint()) && p.Valid() && p.Value() == v
  {
    var i := NewContainers(v.initContainers);
    var c := NewContainers(v.containers);
    var e := NewContainers(v.ephemeral);
    p := new PodSpec(v, i, c, e);
    DistinctOfThree(i, c, e);
  }

  /** What decoding allocates: an object of its own for each manifest. */
  method NewObject(v: ObjectV) returns (o: KubeObject)
    ensures fresh(o.Footprint()) && o.Valid() && o.Value() == v
  {
    var pod: PodSpec? := null;
    if v.pod.Some? {
      pod := NewPod(v.pod.value);
    }
    o := new KubeObject(v.meta, v.body, pod);
  }

  /** The wrapper types of the source, told apart by their kind; obj is the Go pointer inside. */
  class RuntimeObject {
    const kind: Kind
    var obj: KubeObject?

    constructor (kind: Kind)
      ensures this.kind == kind && obj == null
    {
      this.kind, obj := kind, null;
    }

    ghost function Footprint(): set<object>
      reads this
    {
      {this as object} + if obj == null then {} else obj.Footprint()
    }
  }
}
