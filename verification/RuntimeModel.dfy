/** BackstageModel and the first phase of InitObjects on the heap: addToModel, setMetaInfo, and the sort. */
module RuntimeModel {
  import opened KubeObjects
  import opened Names
  import opened Objects
  import opened Seqs
  import opened Sorting

  /** The kinds that the model also points to by name. */
  const TRACKED: set<Kind> :=
    {DeploymentKind, ServiceKind, DbStatefulSetKind, DbServiceKind, DbSecretKind, RouteKind}

  function KindOf(r: RuntimeObject): Kind { r.kind }

  function Kinds(objs: seq<RuntimeObject>): seq<Kind> {
    seq(|objs|, i requires 0 <= i < |objs| => objs[i].kind)
  }

  class BackstageModel {
    const localDbEnabled: bool
    const isOpenshift: bool
    var backstageDeployment: RuntimeObject?
    var backstageService: RuntimeObject?
    var localDbStatefulSet: RuntimeObject?
    var localDbService: RuntimeObject?
    var localDbSecret: RuntimeObject?
    var route: RuntimeObject?
    var runtimeObjects: seq<RuntimeObject>

    constructor (localDbEnabled: bool, isOpenshift: bool)
      ensures this.localDbEnabled == localDbEnabled && this.isOpenshift == isOpenshift
      ensures runtimeObjects == [] && forall kind :: PointerTo(kind) == null
    {
      this.localDbEnabled, this.isOpenshift := localDbEnabled, isOpenshift;
      backstageDeployment, backstageService, localDbStatefulSet := null, null, null;
      localDbService, localDbSecret, route := null, null, null;
      runtimeObjects := [];
    }

    ghost function PointerTo(kind: Kind): RuntimeObject?
      reads this
    {
      match kind
      case DeploymentKind => backstageDeployment
      case ServiceKind => backstageService
      case DbStatefulSetKind => localDbStatefulSet
      case DbServiceKind => localDbService
      case DbSecretKind => localDbSecret
      case RouteKind => route
      case _ => null
    }

    /** Replaces the first object of the same type, or appends: the list never holds a type twice. */
    method SetRuntimeObject(obj: RuntimeObject)
      requires Distinct(Kinds(runtimeObjects))
      modifies `runtimeObjects
      ensures Distinct(Kinds(runtimeObjects))
      ensures (forall r :: r in old(runtimeObjects) ==> r.kind != obj.kind) ==>
                runtimeObjects == old(runtimeObjects) + [obj]
      ensures (exists r :: r in old(runtimeObjects) && r.kind == obj.kind) ==>
                && Kinds(runtimeObjects) == old(Kinds(runtimeObjects))
                && obj in runtimeObjects
                && forall r :: r in runtimeObjects && r != obj ==> r in old(runtimeObjects)
    {
      for i := 0 to |runtimeObjects|
        invariant runtimeObjects == old(runtimeObjects)
        invariant forall j :: 0 <= j < i ==> runtimeObjects[j].kind != obj.kind
      {
        if runtimeObjects[i].kind == obj.kind {
          runtimeObjects := runtimeObjects[i := obj];
          assert Kinds(runtimeObjects) == old(Kinds(runtimeObjects));
          assert runtimeObjects[i] in runtimeObjects;
          return;
        }
      }
      runtimeObjects := runtimeObjects + [obj];
      assert Kinds(runtimeObjects) == old(Kinds(runtimeObjects)) + [obj.kind];
    }

    /** What every addToModel ends with: the model's own pointer, where it has one, and the list. */
    method Register(r: RuntimeObject)
      requires forall o :: o in runtimeObjects ==> o.kind != r.kind
      requires Distinct(Kinds(runtimeObjects))
      modifies this
      ensures runtimeObjects == old(runtimeObjects) + [r]
      ensures forall kind :: PointerTo(kind) == if kind == r.kind && kind in TRACKED then r else old(PointerTo(kind))
    {
      match r.kind {
        case DeploymentKind => backstageDeployment := r;
        case ServiceKind => backstageService := r;
        case DbStatefulSetKind => localDbStatefulSet := r;
        case DbServiceKind => localDbService := r;
        case DbSecretKind => localDbSecret := r;
        case RouteKind => route := r;
        case _ =>
      }
      SetRuntimeObject(r);
    }

    /** The inner loop of insertion sort: element i moves left while it is less than its neighbour. */
    method Insert(i: nat, ghost s: seq<RuntimeObject>)
      requires i < |runtimeObjects| == |s|
      requires runtimeObjects[..i] == Sorted(KindOf, s[..i]) && runtimeObjects[i..] == s[i..]
      modifies `runtimeObjects
      ensures |runtimeObjects| == |s|
      ensures runtimeObjects[..i + 1] == Sorted(KindOf, s[..i + 1]) && runtimeObjects[i + 1..] == s[i + 1..]
    {
      ghost var t, x := Sorted(KindOf, s[..i]), s[i];
      var j := i;
      while j > 0 && Less(runtimeObjects[j].kind, runtimeObjects[j - 1].kind)
        invariant 0 <= j <= i
        invariant runtimeObjects == t[..j] + [x] + t[j..] + s[i + 1..]
        invariant forall k :: j <= k < i ==> Less(x.kind, t[k].kind)
      {
        SwapStep(t, x, s[i + 1..], j);
        runtimeObjects := runtimeObjects[j := runtimeObjects[j - 1]][j - 1 := runtimeObjects[j]];
        j := j - 1;
      }
      InsertedIsSorted(KindOf, s[..i], t, x, j);
      TakeStep(s, i);
      assert |t[..j] + [x] + t[j..]| == i + 1;
    }

    /**
     sort.Slice on at most twelve elements is insertion sort. The comparator is not an order, yet the result
     is determined: Deployments, then ordinary objects in reverse, then StatefulSets.
     */
    method SortRuntimeObjects()
      requires |runtimeObjects| <= 12
      modifies `runtimeObjects
      ensures runtimeObjects == Sorted(KindOf, old(runtimeObjects))
    {
      ghost var s := runtimeObjects;
      if |runtimeObjects| == 0 {
        return;
      }
      SortedOfOne(s[0]);
      assert s[..1] == [s[0]];
      for i := 1 to |runtimeObjects|
        invariant |runtimeObjects| == |s|
        invariant runtimeObjects[..i] == Sorted(KindOf, s[..i]) && runtimeObjects[i..] == s[i..]
      {
        Insert(i, s);
      }
      assert s[..|s|] == s;
    }
  }

  lemma SwapStep<T>(t: seq<T>, x: T, rest: seq<T>, j: nat)
    requires 0 < j <= |t|
    ensures var l := t[..j] + [x] + t[j..] + rest;
            l[j] == x && l[j - 1] == t[j - 1]
            && l[j := l[j - 1]][j - 1 := l[j]] == t[..j - 1] + [x] + t[j - 1..] + rest
  {
    var l := t[..j] + [x] + t[j..] + rest;
    assert l[j := l[j - 1]][j - 1 := l[j]] == t[..j - 1] + [x] + t[j - 1..] + rest;
  }

  lemma SortedOfOne(r: RuntimeObject)
    ensures Sorted(KindOf, [r]) == [r]
  {
    SortedStep(KindOf, [], r, [], [], []);
    assert [] + [r] == [r];
  }

  lemma {:induction false} AtMostAll(kinds: seq<Kind>, all: set<Kind>)
    requires Distinct(kinds) && forall kind :: kind in kinds ==> kind in all
    ensures |kinds| <= |all|
    decreases |kinds|
  {
    if kinds != [] {
      var init, last := kinds[..|kinds| - 1], kinds[|kinds| - 1];
      assert last !in init;
      AtMostAll(init, all - {last});
    }
  }

  /** A list without repeated types has at most twelve elements, which Go's sort.Slice sorts by insertion. */
  lemma AtMostTwelve(objs: seq<RuntimeObject>)
    requires Distinct(Kinds(objs))
    ensures |objs| <= 12
  {
    forall kind: Kind ensures kind in ALL_KINDS {
      assert kind.AppConfigKind? || kind.ConfigMapEnvsKind? || kind.ConfigMapFilesKind? || kind.DbSecretKind?
             || kind.DbServiceKind? || kind.DbStatefulSetKind? || kind.DeploymentKind? || kind.DynamicPluginsKind?
             || kind.RouteKind? || kind.SecretEnvsKind? || kind.SecretFilesKind? || kind.ServiceKind?;
    }
    AtMostAll(Kinds(objs), ALL_KINDS);
  }
}
