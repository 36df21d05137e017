/** The reconciler: apply, patch, clean and the whole of Reconcile, step by step on a cluster. */
module Reconciler {
  import opened BackstageApi
  import opened Builder
  import opened ClusterApi
  import opened InitObjects
  import opened KubeObjects
  import opened Machine
  import opened Marshalling
  import opened Names
  import opened Objects
  import opened PhaseOneHeap
  import opened Plans
  import opened Resources
  import opened Runtime

  /** Reading a Go map of strings. */
  function Entry(m: Labels, name: string): string {
    if name in m then m[name] else ""
  }

  /** RestoredMap, with the base's entries in left still to come. */
  ghost predicate Restoring(now: Labels, want: Labels, base: Labels, left: set<string>) {
    && now.Keys == want.Keys + (base.Keys - left)
    && forall k :: k in now ==> now[k] == if k in left then want[k] else RestoredMap(want, base)[k]
  }

  /** One of the two loops of patchObject, over the base's entries in whatever order. */
  method RestoreEntries(want: Labels, base: Labels) returns (result: Labels)
    ensures result == RestoredMap(want, base)
  {
    result := want;
    var left := base.Keys;
    while left != {}
      invariant left <= base.Keys
      invariant Restoring(result, want, base, left)
      decreases left
    {
      var name :| name in left;
      if Entry(result, name) == "" {
        result := result[name := base[name]];
      }
      left := left - {name};
    }
  }

  function WithRestored(v: ObjectV, base: Resource): ObjectV {
    v.(meta := v.meta.(labels := RestoredMap(v.meta.labels, base.labels),
                       annotations := RestoredMap(v.meta.annotations, base.annotations)))
  }

  lemma RestoredIsSent(v: ObjectV, base: Resource)
    ensures ResourceOf(WithRestored(v, base)) == Restored(ResourceOf(v), base)
  {
  }

  /** The object takes over the labels and annotations of base. */
  method RestoreInto(base: Resource, obj: KubeObject)
    modifies obj`meta
    ensures obj.Value() == WithRestored(old(obj.Value()), base)
  {
    ghost var v := obj.Value();
    var labels := RestoreEntries(obj.meta.labels, base.labels);
    obj.meta := obj.meta.(labels := labels);
    var annotations := RestoreEntries(obj.meta.annotations, base.annotations);
    obj.meta := obj.meta.(annotations := annotations);
    assert obj.Value() == v.(meta := v.meta.(labels := labels, annotations := annotations));
  }

  /** The patch that patchObject sends. */
  ghost function PatchCall(key: Key, base: Resource, v: ObjectV): Call {
    PatchObject(key, MergeFrom(base, Restored(ResourceOf(v), base)))
  }

  lemma RestoredCall(key: Key, base: Resource, v: ObjectV, sent: Resource)
    requires sent == ResourceOf(WithRestored(v, base))
    ensures PatchObject(key, MergeFrom(base, sent)) == PatchCall(key, base, v)
  {
    RestoredIsSent(v, base);
  }

  /** patchObject: what is sent is the difference between base and the object with what it took over from base. */
  method PatchObjectOf(cluster: Cluster, base: Resource, obj: KubeObject, key: Key, ghost v: ObjectV, ghost call: Call)
    returns (reply: Reply)
    requires v == obj.Value() && call == PatchCall(key, base, v)
    modifies cluster, obj`meta
    ensures cluster.backstages == old(cluster.backstages) && cluster.calls == old(cluster.calls) + 1
    ensures (cluster.objects, reply) == ServeUnder(call, old(cluster.objects), cluster.faults(old(cluster.calls)))
  {
    RestoreInto(base, obj);
    var sent := ResourceOf(obj.Value());
    RestoredCall(key, base, v, sent);
    reply := cluster.Perform(PatchObject(key, MergeFrom(base, sent)));
  }

  /** The run has come from pc to next; what is left to do from there is what was left to do before. */
  ghost predicate Reaches(plan: Plan, pc: Pc, before: Store, n: nat, next: Pc, now: Store, m: nat, faults: Faults)
    requires ValidPc(plan, pc) && ValidPc(plan, next)
  {
    Exec(plan, pc, before, faults, n) == Exec(plan, next, now, faults, m)
  }

  lemma ExecStep(plan: Plan, pc: Pc, objects: Store, faults: Faults, n: nat, call: Call, after: Store, reply: Reply)
    requires ValidPc(plan, pc) && !pc.Finished? && call == NextCall(plan, pc)
    requires (after, reply) == ServeUnder(call, objects, faults(n))
    ensures Reaches(plan, pc, objects, n, Advance(plan, pc, reply), after, n + 1, faults)
  {
  }

  /** Item i of the plan is this object, not applied yet. */
  ghost predicate IsItem(plan: Plan, i: nat, kind: Kind, key: Key, v: ObjectV) {
    i < |plan.items| && plan.items[i] == Item(key, ResourceOf(v), TreatmentOf(kind))
  }

  /** The object on the heap that a step is about, apart from the cluster. */
  ghost predicate IsSource(cluster: Cluster, obj: KubeObject, v: ObjectV)
    reads obj, obj.Footprint()
  {
    obj.Value() == v && cluster !in obj.Footprint()
  }

  lemma PatchIsNext(plan: Plan, i: nat, base: Resource, kind: Kind, key: Key, v: ObjectV)
    requires IsItem(plan, i, kind, key, v) && ValidPc(plan, Patching(i, base))
    ensures NextCall(plan, Patching(i, base)) == PatchCall(key, base, v)
  {
  }

  lemma CreateIsNext(plan: Plan, i: nat, pc: Pc, kind: Kind, key: Key, v: ObjectV)
    requires IsItem(plan, i, kind, key, v) && ValidPc(plan, pc)
    requires pc == Creating(i) || (pc == Applying(i) && ApiKindOf(kind) == Secrets)
    ensures NextCall(plan, pc) == CreateObject(key, ResourceOf(v))
  {
  }

  lemma AfterPatch(plan: Plan, i: nat, base: Resource, reply: Reply)
    requires ValidPc(plan, Patching(i, base))
    ensures Advance(plan, Patching(i, base), reply) == if reply == Done then ApplyFrom(plan, i + 1) else Finished(false)
  {
  }

  lemma PatchStep(plan: Plan, i: nat, base: Resource, kind: Kind, key: Key, v: ObjectV, before: Store, faults: Faults,
                  n: nat, call: Call, after: Store, reply: Reply)
    requires IsItem(plan, i, kind, key, v) && ValidPc(plan, Patching(i, base)) && call == PatchCall(key, base, v)
    requires (after, reply) == ServeUnder(call, before, faults(n))
    ensures Reaches(plan, Patching(i, base), before, n,
                    if reply == Done then ApplyFrom(plan, i + 1) else Finished(false),
                    after, n + 1, faults)
  {
    PatchIsNext(plan, i, base, kind, key, v);
    ExecStep(plan, Patching(i, base), before, faults, n, call, after, reply);
    AfterPatch(plan, i, base, reply);
  }

  /** The call of the patch, at the end of both branches of applyObjects. */
  method PatchFound(cluster: Cluster, base: Resource, obj: KubeObject, key: Key, ghost plan: Plan, ghost i: nat,
                    ghost kind: Kind, ghost v: ObjectV) returns (ok: bool)
    requires IsItem(plan, i, kind, key, v) && IsSource(cluster, obj, v) && ValidPc(plan, Patching(i, base))
    modifies cluster, obj`meta
    ensures cluster.backstages == old(cluster.backstages)
    ensures Reaches(plan, Patching(i, base), old(cluster.objects), old(cluster.calls),
                    if ok then ApplyFrom(plan, i + 1) else Finished(false),
                    cluster.objects, cluster.calls, cluster.faults)
  {
    ghost var before, n, call := cluster.objects, cluster.calls, PatchCall(key, base, v);
    var reply := PatchObjectOf(cluster, base, obj, key, v, call);
    PatchStep(plan, i, base, kind, key, v, before, cluster.faults, n, call, cluster.objects, reply);
    ok := reply == Done;
  }

  lemma CreateStep(plan: Plan, i: nat, pc: Pc, kind: Kind, key: Key, v: ObjectV, before: Store, faults: Faults,
                   n: nat, call: Call, after: Store, reply: Reply)
    requires IsItem(plan, i, kind, key, v) && ValidPc(plan, pc) && call == CreateObject(key, ResourceOf(v))
    requires pc == Creating(i) || (pc == Applying(i) && ApiKindOf(kind) == Secrets)
    requires (after, reply) == ServeUnder(call, before, faults(n))
    ensures Reaches(plan, pc, before, n, Advance(plan, pc, reply), after, n + 1, faults)
  {
    CreateIsNext(plan, i, pc, kind, key, v);
    ExecStep(plan, pc, before, faults, n, call, after, reply);
  }

  /** The call of the creation, in either branch. */
  method CreateFor(cluster: Cluster, obj: KubeObject, key: Key, ghost plan: Plan, ghost i: nat, ghost pc: Pc,
                   ghost kind: Kind, ghost v: ObjectV, ghost foot: set<object>) returns (reply: Reply)
    requires IsItem(plan, i, kind, key, v) && IsSource(cluster, obj, v) && ValidPc(plan, pc) && foot == obj.Footprint()
    requires pc == Creating(i) || (pc == Applying(i) && ApiKindOf(kind) == Secrets)
    modifies cluster
    ensures cluster.backstages == old(cluster.backstages) && IsSource(cluster, obj, v)
    ensures Reaches(plan, pc, old(cluster.objects), old(cluster.calls),
                    Advance(plan, pc, reply), cluster.objects, cluster.calls, cluster.faults)
  {
    ghost var before, n := cluster.objects, cluster.calls;
    var call := CreateObject(key, ResourceOf(obj.Value()));
    reply := cluster.Perform(call);
    CreateStep(plan, i, pc, kind, key, v, before, cluster.faults, n, call, cluster.objects, reply);
  }

  method GetFor(cluster: Cluster, obj: KubeObject, key: Key, ghost plan: Plan, ghost i: nat,
                ghost kind: Kind, ghost v: ObjectV, ghost foot: set<object>) returns (reply: Reply)
    requires IsItem(plan, i, kind, key, v) && IsSource(cluster, obj, v) && foot == obj.Footprint()
    requires ApiKindOf(kind) != Secrets
    modifies cluster
    ensures cluster.backstages == old(cluster.backstages) && IsSource(cluster, obj, v)
    ensures Reaches(plan, Applying(i), old(cluster.objects), old(cluster.calls),
                    Advance(plan, Applying(i), reply), cluster.objects, cluster.calls, cluster.faults)
  {
    ghost var before, n := cluster.objects, cluster.calls;
    reply := cluster.Perform(GetObject(key));
    ExecStep(plan, Applying(i), before, cluster.faults, n, GetObject(key), cluster.objects, reply);
  }

  /** How the run goes on after the first call for an item. */
  lemma AfterFirst(plan: Plan, i: nat, kind: Kind, key: Key, v: ObjectV, reply: Reply)
    requires IsItem(plan, i, kind, key, v)
    ensures Advance(plan, Applying(i), reply) ==
      if ApiKindOf(kind) == Secrets then
        (if reply == Done || (reply == AlreadyExists && kind == DbSecretKind) then ApplyFrom(plan, i + 1)
         else if reply == AlreadyExists then Patching(i, EMPTY) else Finished(false))
      else if reply.Found? then Patching(i, reply.resource)
      else if reply == NotFound then Creating(i) else Finished(false)
  {
  }

  /** The secret branch of applyObjects: create, and patch blindly what exists, unless it is the DB secret. */
  method ApplySecret(cluster: Cluster, r: RuntimeObject, obj: KubeObject, key: Key, ghost plan: Plan, ghost i: nat,
                     ghost v: ObjectV, ghost foot: set<object>) returns (ok: bool)
    requires IsItem(plan, i, r.kind, key, v) && IsSource(cluster, obj, v) && foot == obj.Footprint()
    requires ApiKindOf(r.kind) == Secrets
    modifies cluster, obj`meta
    ensures cluster.backstages == old(cluster.backstages)
    ensures Reaches(plan, Applying(i), old(cluster.objects), old(cluster.calls),
                    if ok then ApplyFrom(plan, i + 1) else Finished(false),
                    cluster.objects, cluster.calls, cluster.faults)
  {
    var reply := CreateFor(cluster, obj, key, plan, i, Applying(i), r.kind, v, foot);
    AfterFirst(plan, i, r.kind, key, v, reply);
    if reply != Done {
      if reply != AlreadyExists {
        return false;
      }
      if r.kind == DbSecretKind {
        return true;
      }
    } else {
      return true;
    }
    ok := PatchFound(cluster, EMPTY, obj, key, plan, i, r.kind, v);
  }

  lemma AfterCreating(plan: Plan, i: nat, reply: Reply)
    requires ValidPc(plan, Creating(i))
    ensures Advance(plan, Creating(i), reply) == if reply == Done then ApplyFrom(plan, i + 1) else Finished(false)
  {
  }

  /** The creation of what was not found. */
  method CreateMissing(cluster: Cluster, obj: KubeObject, key: Key, ghost plan: Plan, ghost i: nat, ghost kind: Kind,
                       ghost v: ObjectV, ghost foot: set<object>) returns (ok: bool)
    requires IsItem(plan, i, kind, key, v) && IsSource(cluster, obj, v) && foot == obj.Footprint()
    requires ValidPc(plan, Creating(i))
    modifies cluster
    ensures cluster.backstages == old(cluster.backstages)
    ensures Reaches(plan, Creating(i), old(cluster.objects), old(cluster.calls),
                    if ok then ApplyFrom(plan, i + 1) else Finished(false),
                    cluster.objects, cluster.calls, cluster.faults)
  {
    var reply := CreateFor(cluster, obj, key, plan, i, Creating(i), kind, v, foot);
    AfterCreating(plan, i, reply);
    ok := reply == Done;
  }

  /** The other branch: get, then create or patch. */
  method ApplyOther(cluster: Cluster, r: RuntimeObject, obj: KubeObject, key: Key, ghost plan: Plan, ghost i: nat,
                    ghost v: ObjectV, ghost foot: set<object>) returns (ok: bool)
    requires IsItem(plan, i, r.kind, key, v) && IsSource(cluster, obj, v) && foot == obj.Footprint()
    requires ApiKindOf(r.kind) != Secrets
    modifies cluster, obj`meta
    ensures cluster.backstages == old(cluster.backstages)
    ensures Reaches(plan, Applying(i), old(cluster.objects), old(cluster.calls),
                    if ok then ApplyFrom(plan, i + 1) else Finished(false),
                    cluster.objects, cluster.calls, cluster.faults)
  {
    var reply := GetFor(cluster, obj, key, plan, i, r.kind, v, foot);
    AfterFirst(plan, i, r.kind, key, v, reply);
    if !reply.Found? {
      if reply != NotFound {
        return false;
      }
      ok := CreateMissing(cluster, obj, key, plan, i, r.kind, v, foot);
      return;
    }
    ok := PatchFound(cluster, reply.resource, obj, key, plan, i, r.kind, v);
  }

  /** The body of the loop of applyObjects. */
  method ApplyObject(cluster: Cluster, r: RuntimeObject, obj: KubeObject, ghost plan: Plan, ghost i: nat,
                     ghost v: ObjectV, ghost foot: set<object>) returns (ok: bool)
    requires i < |plan.items| && plan.items[i] == ItemOf(r.kind, v)
    requires r.obj == obj && IsSource(cluster, obj, v) && foot == obj.Footprint()
    modifies cluster, obj`meta
    ensures cluster.backstages == old(cluster.backstages)
    ensures Reaches(plan, Applying(i), old(cluster.objects), old(cluster.calls),
                    if ok then ApplyFrom(plan, i + 1) else Finished(false),
                    cluster.objects, cluster.calls, cluster.faults)
  {
    var key := Key(ApiKindOf(r.kind), obj.meta.namespace, obj.meta.name);
    assert IsItem(plan, i, r.kind, key, v);
    if ApiKindOf(r.kind) == Secrets {
      ok := ApplySecret(cluster, r, obj, key, plan, i, v, foot);
    } else {
      ok := ApplyOther(cluster, r, obj, key, plan, i, v, foot);
    }
  }

  lemma {:induction false} RestIsApart(objs: seq<RuntimeObject>, i: nat)
    requires Kept(objs) && i < |objs|
    ensures objs[i].obj !in Reach(objs[i + 1..])
    ensures objs[i] !in objs[i + 1..]
  {
    var rest := objs[i + 1..];
    forall j | 0 <= j < |rest| ensures rest[j].Footprint() !! objs[i].Footprint() {
      assert rest[j] == objs[i + 1 + j];
      assert objs[i].Footprint() !! objs[i + 1 + j].Footprint();
    }
    ReachIsApart(rest, objs[i].Footprint());
    forall j | 0 <= j < |rest| ensures rest[j] != objs[i] {
      assert rest[j] in rest[j].Footprint() && objs[i] in objs[i].Footprint();
    }
  }

  lemma ShownFirst(objs: seq<RuntimeObject>, built: seq<RuntimeObjectV>, i: nat)
    requires i < |objs| == |built| && Shown(objs[i..], built[i..])
    ensures Holds(objs[i], built[i].value) && objs[i].kind == built[i].kind
    ensures Shown(objs[i + 1..], built[i + 1..])
  {
    var o: seq<RuntimeObject>, b := objs[i..], built[i..];
    assert o[0] == objs[i] && b[0] == built[i];
    assert o[1..] == objs[i + 1..] && b[1..] == built[i + 1..];
    forall k | 0 <= k < |o| - 1
      ensures o[1..][k].kind == b[1..][k].kind && Holds(o[1..][k], b[1..][k].value)
    {
      assert o[1..][k] == o[k + 1] && b[1..][k] == b[k + 1];
    }
  }

  /** While the loop of applyObjects runs: the objects still to come are as they were built. */
  ghost predicate Underway(objs: seq<RuntimeObject>, built: seq<RuntimeObjectV>, i: nat, reach: set<object>)
    reads *
  {
    && i <= |objs| == |built|
    && Kept(objs) && reach == Reach(objs) && Shown(objs[i..], built[i..])
  }

  lemma TurnIsApart(objs: seq<RuntimeObject>, built: seq<RuntimeObjectV>, i: nat, reach: set<object>)
    requires Underway(objs, built, i, reach) && i < |objs|
    ensures objs[i].obj != null && objs[i].obj in reach && objs[i].obj.Footprint() <= reach
    ensures objs[i].obj.Value() == built[i].value && objs[i].kind == built[i].kind
    ensures objs[i].obj !in Reach(objs[i + 1..])
    ensures Shown(objs[i + 1..], built[i + 1..])
  {
    ReachesEach(objs);
    ShownFirst(objs, built, i);
    RestIsApart(objs, i);
    assert objs[i].obj.Footprint() <= objs[i].Footprint() <= reach;
  }

  /** Applying an object leaves alone what is apart from it. */
  method ApplyKeeping(cluster: Cluster, r: RuntimeObject, obj: KubeObject, ghost plan: Plan, ghost i: nat,
                      ghost v: ObjectV, ghost foot: set<object>, ghost objs: seq<RuntimeObject>,
                      ghost rest: seq<RuntimeObject>, ghost restBuilt: seq<RuntimeObjectV>,
                      ghost restReach: set<object>)
    returns (ok: bool)
    requires i < |plan.items| && plan.items[i] == ItemOf(r.kind, v)
    requires r.obj == obj && IsSource(cluster, obj, v) && foot == obj.Footprint()
    requires Kept(objs) && Shown(rest, restBuilt) && restReach == Reach(rest)
    requires obj !in restReach && cluster !in restReach
    modifies cluster, obj`meta
    ensures cluster.backstages == old(cluster.backstages)
    ensures Reaches(plan, Applying(i), old(cluster.objects), old(cluster.calls),
                    if ok then ApplyFrom(plan, i + 1) else Finished(false),
                    cluster.objects, cluster.calls, cluster.faults)
    ensures Kept(objs) && Shown(rest, restBuilt) && Reach(objs) == old(Reach(objs))
  {
    ok := ApplyObject(cluster, r, obj, plan, i, v, foot);
  }

  /** One turn of the loop. */
  method ApplyTurn(cluster: Cluster, objs: seq<RuntimeObject>, i: nat, ghost plan: Plan,
                   ghost built: seq<RuntimeObjectV>,
                   ghost reach: set<object>, ghost rest: set<object>) returns (ok: bool)
    requires Underway(objs, built, i, reach) && i < |objs| && plan.items == ItemsOf(built)
    requires rest == Reach(objs[i + 1..]) && rest <= reach && cluster !in reach
    modifies reach + {cluster}
    ensures cluster.backstages == old(cluster.backstages)
    ensures Underway(objs, built, i + 1, reach)
    ensures Reaches(plan, Applying(i), old(cluster.objects), old(cluster.calls),
                    if ok then ApplyFrom(plan, i + 1) else Finished(false),
                    cluster.objects, cluster.calls, cluster.faults)
  {
    var obj := objs[i].obj;
    TurnIsApart(objs, built, i, reach);
    ok := ApplyKeeping(cluster, objs[i], obj, plan, i, built[i].value, obj.Footprint(),
                       objs, objs[i + 1..], built[i + 1..], rest);
  }

  lemma {:induction false} RestIsReached(objs: seq<RuntimeObject>, i: nat)
    requires i <= |objs|
    ensures Reach(objs[i..]) <= Reach(objs)
  {
    assert forall r :: r in objs[i..] ==> r in objs;
    ReachOfMembers(objs[i..], objs);
  }

  /** applyObjects: from the first item to where cleaning starts, or to the first error. */
  method ApplyObjects(cluster: Cluster, objs: seq<RuntimeObject>, ghost plan: Plan, ghost built: seq<RuntimeObjectV>,
                      ghost reach: set<object>) returns (ok: bool)
    requires Underway(objs, built, 0, reach) && plan.items == ItemsOf(built) && cluster !in reach
    modifies reach + {cluster}
    ensures cluster.backstages == old(cluster.backstages)
    ensures Reaches(plan, Start(plan), old(cluster.objects), old(cluster.calls),
                    if ok then CleanFrom(plan, 0) else Finished(false),
                    cluster.objects, cluster.calls, cluster.faults)
  {
    for i := 0 to |objs|
      invariant cluster.backstages == old(cluster.backstages)
      invariant Underway(objs, built, i, reach)
      invariant Reaches(plan, Start(plan), old(cluster.objects), old(cluster.calls),
                        ApplyFrom(plan, i), cluster.objects, cluster.calls, cluster.faults)
    {
      RestIsReached(objs, i + 1);
      ok := ApplyTurn(cluster, objs, i, plan, built, reach, Reach(objs[i + 1..]));
      if !ok {
        return;
      }
    }
    ok := true;
  }

  lemma AfterDelete(plan: Plan, j: nat, reply: Reply)
    requires j < |plan.deletions|
    ensures Advance(plan, Cleaning(j), reply)
         == if reply == Done || reply == NotFound then CleanFrom(plan, j + 1) else Finished(false)
  {
  }

  /** tryToDelete: an object that is not there counts as deleted. */
  method TryToDelete(cluster: Cluster, key: Key, ghost plan: Plan, ghost j: nat) returns (ok: bool)
    requires j < |plan.deletions| && plan.deletions[j] == key
    modifies cluster
    ensures cluster.backstages == old(cluster.backstages)
    ensures Reaches(plan, CleanFrom(plan, j), old(cluster.objects), old(cluster.calls),
                    if ok then CleanFrom(plan, j + 1) else Finished(false),
                    cluster.objects, cluster.calls, cluster.faults)
  {
    ghost var before, n := cluster.objects, cluster.calls;
    var reply := cluster.Perform(DeleteObject(key));
    ExecStep(plan, Cleaning(j), before, cluster.faults, n, DeleteObject(key), cluster.objects, reply);
    AfterDelete(plan, j, reply);
    ok := reply == Done || reply == NotFound;
  }

  /** cleanObjects */
  method CleanObjects(cluster: Cluster, backstage: Backstage, isOpenShift: bool, ghost plan: Plan) returns (ok: bool)
    requires plan.deletions == Deletions(backstage.spec, backstage.namespace, backstage.name, isOpenShift)
    modifies cluster
    ensures cluster.backstages == old(cluster.backstages)
    ensures Reaches(plan, CleanFrom(plan, 0), old(cluster.objects), old(cluster.calls), Finished(ok),
                    cluster.objects, cluster.calls, cluster.faults)
  {
    var ns, name := backstage.namespace, backstage.name;
    ghost var j := 0;
    ok := true;
    if !backstage.spec.IsLocalDbEnabled() {
      ok := TryToDelete(cluster, KeyOf(DbStatefulSetKind, ns, name), plan, 0);
      if !ok {
        return;
      }
      ok := TryToDelete(cluster, KeyOf(DbServiceKind, ns, name), plan, 1);
      if !ok {
        return;
      }
      ok := TryToDelete(cluster, KeyOf(DbSecretKind, ns, name), plan, 2);
      if !ok {
        return;
      }
      j := 3;
    }
    if isOpenShift && !backstage.spec.IsRouteEnabled() {
      ok := TryToDelete(cluster, KeyOf(RouteKind, ns, name), plan, j);
    }
  }
}
