/** The plan of a run, resources to apply and keys to delete, and what it guarantees for the cluster. */
module Plans {
  import opened BackstageApi
  import opened Builder
  import opened Contents
  import opened Convergence
  import opened FinalPod
  import opened Interleaving
  import opened Machine
  import opened Marshalling
  import opened Names
  import opened Objects
  import opened Pods
  import opened Resources
  import opened Wrappers

  function TreatmentOf(kind: Kind): Treatment {
    if kind == DbSecretKind then CreateOnly
    else if ApiKindOf(kind) == Secrets then CreateOrPatch
    else ReadFirst
  }

  /** What applyObjects sends for a runtime object. */
  function ItemOf(kind: Kind, o: ObjectV): Item {
    Item(Key(ApiKindOf(kind), o.meta.namespace, o.meta.name), ResourceOf(o), TreatmentOf(kind))
  }

  /** What cleanObjects deletes, in its order. */
  function Deletions(spec: BackstageSpec, namespace: string, name: string, isOpenShift: bool): seq<Key> {
    (if spec.IsLocalDbEnabled() then []
     else [KeyOf(DbStatefulSetKind, namespace, name), KeyOf(DbServiceKind, namespace, name),
           KeyOf(DbSecretKind, namespace, name)])
    + if isOpenShift && !spec.IsRouteEnabled() then [KeyOf(RouteKind, namespace, name)] else []
  }

  ghost function ItemsOf(built: seq<RuntimeObjectV>): seq<Item> {
    seq(|built|, i requires 0 <= i < |built| => ItemOf(built[i].kind, built[i].value))
  }

  ghost function PlanOf(inp: Inputs, registry: seq<Kind>): Plan
    requires Usable(inp) && Ready(inp)
  {
    Plan(ItemsOf(Built(inp, registry)), Deletions(inp.spec, inp.namespace, inp.name, inp.operator.isOpenShift))
  }

  function OwnKey(inp: Inputs, kind: Kind): Key { KeyOf(kind, inp.namespace, inp.name) }

  /** The item at each place of the plan. */
  lemma ItemAt(inp: Inputs, registry: seq<Kind>, i: nat)
    requires Usable(inp) && Ready(inp) && i < |PlanOf(inp, registry).items|
    ensures i < |Built(inp, registry)|
    ensures var kind, item := Built(inp, registry)[i].kind, PlanOf(inp, registry).items[i];
            && IsPlaced(inp, kind)
            && item == ItemOf(kind, PhaseTwo(inp, registry, kind))
            && item.key == OwnKey(inp, kind)
            && NullFreeResource(item.want)
  {
    SortedPlaced(inp, registry);
    var kind := Built(inp, registry)[i].kind;
    SentIsNullFree(PhaseTwo(inp, registry, kind));
  }

  /** Every placed kind has its item. */
  lemma ItemFor(inp: Inputs, registry: seq<Kind>, kind: Kind) returns (i: nat)
    requires Usable(inp) && Ready(inp) && IsRegistry(registry) && IsPlaced(inp, kind)
    ensures i < |PlanOf(inp, registry).items|
    ensures PlanOf(inp, registry).items[i] == ItemOf(kind, PhaseTwo(inp, registry, kind))
    ensures PlanOf(inp, registry).items[i].key == OwnKey(inp, kind)
  {
    ContainsPlaced(inp, registry, kind);
    i :| 0 <= i < |Built(inp, registry)| && Built(inp, registry)[i].kind == kind;
    ItemAt(inp, registry, i);
  }

  lemma PlanIsDistinct(inp: Inputs, registry: seq<Kind>)
    requires Usable(inp) && Ready(inp) && IsRegistry(registry)
    ensures KeysDistinct(PlanOf(inp, registry).items)
  {
    var items := PlanOf(inp, registry).items;
    forall i, j | 0 <= i < j < |items| ensures items[i].key != items[j].key {
      ItemAt(inp, registry, i);
      ItemAt(inp, registry, j);
      EachKindOnce(inp, registry, i, j);
      KeysAreInjective(Built(inp, registry)[i].kind, inp.namespace, inp.name,
                       Built(inp, registry)[j].kind, inp.namespace, inp.name);
    }
  }

  lemma PlanIsSendable(inp: Inputs, registry: seq<Kind>)
    requires Usable(inp) && Ready(inp)
    ensures Sendable(PlanOf(inp, registry))
  {
    var items := PlanOf(inp, registry).items;
    forall item | item in items ensures NullFreeResource(item.want) {
      var i :| 0 <= i < |items| && items[i] == item;
      ItemAt(inp, registry, i);
    }
  }

  /** The Deployment is applied first. */
  lemma DeploymentAppliedFirst(inp: Inputs, registry: seq<Kind>)
    requires Usable(inp) && Ready(inp) && IsRegistry(registry)
    ensures PlanOf(inp, registry).items != []
    ensures PlanOf(inp, registry).items[0].key == OwnKey(inp, DeploymentKind)
  {
    DeploymentFirst(inp, registry);
    ItemAt(inp, registry, 0);
  }

  /** A local database's StatefulSet is applied last. */
  lemma DatabaseAppliedLast(inp: Inputs, registry: seq<Kind>)
    requires Usable(inp) && Ready(inp) && IsRegistry(registry) && inp.spec.IsLocalDbEnabled()
    ensures var items := PlanOf(inp, registry).items;
            items != [] && items[|items| - 1].key == OwnKey(inp, DbStatefulSetKind)
  {
    DeploymentFirst(inp, registry);
    ItemAt(inp, registry, |PlanOf(inp, registry).items| - 1);
  }

  /** No run reads a Secret. */
  lemma SecretsAreNotRead(inp: Inputs, registry: seq<Kind>, pc: Pc)
    requires Usable(inp) && Ready(inp) && ValidPc(PlanOf(inp, registry), pc) && !pc.Finished?
    ensures NextCall(PlanOf(inp, registry), pc).GetObject? ==> NextCall(PlanOf(inp, registry), pc).key.api != Secrets
  {
    if pc.Applying? {
      ItemAt(inp, registry, pc.i);
    }
  }

  /** A run writes no key but its own CR's. */
  lemma PlanIsLawful(inp: Inputs, registry: seq<Kind>)
    requires Usable(inp) && Ready(inp)
    ensures Lawful(Cr(inp.namespace, inp.name), PlanOf(inp, registry))
  {
    var items := PlanOf(inp, registry).items;
    forall item | item in items ensures Owns(inp.namespace, inp.name, item.key) {
      var i :| 0 <= i < |items| && items[i] == item;
      ItemAt(inp, registry, i);
    }
  }

  /** Which of its own keys a run deletes. */
  lemma Deleted(inp: Inputs, kind: Kind)
    ensures OwnKey(inp, kind) in Deletions(inp.spec, inp.namespace, inp.name, inp.operator.isOpenShift) <==>
              || (kind in {DbStatefulSetKind, DbServiceKind, DbSecretKind} && !inp.spec.IsLocalDbEnabled())
              || (kind == RouteKind && inp.operator.isOpenShift && !inp.spec.IsRouteEnabled())
  {
    var ns, n := inp.namespace, inp.name;
    KeysAreInjective(kind, ns, n, DbStatefulSetKind, ns, n);
    KeysAreInjective(kind, ns, n, DbServiceKind, ns, n);
    KeysAreInjective(kind, ns, n, DbSecretKind, ns, n);
    KeysAreInjective(kind, ns, n, RouteKind, ns, n);
  }

  /** An own key that no item has. */
  lemma NotPlanned(inp: Inputs, registry: seq<Kind>, kind: Kind)
    requires Usable(inp) && Ready(inp) && !IsPlaced(inp, kind)
    ensures forall i :: 0 <= i < |PlanOf(inp, registry).items| ==>
              PlanOf(inp, registry).items[i].key != OwnKey(inp, kind)
  {
    forall i | 0 <= i < |PlanOf(inp, registry).items|
      ensures PlanOf(inp, registry).items[i].key != OwnKey(inp, kind)
    {
      ItemAt(inp, registry, i);
      KeysAreInjective(kind, inp.namespace, inp.name, Built(inp, registry)[i].kind, inp.namespace, inp.name);
    }
  }

  /**
   The cluster after a successful run, from any earlier state, at each key of the CR: absent if deleted, the wanted
   object over what was there if the kind is placed, and untouched otherwise.
   */
  lemma ClusterAfterRun(inp: Inputs, registry: seq<Kind>, objects: Store, kind: Kind)
    requires Usable(inp) && Ready(inp) && IsRegistry(registry)
    ensures var plan, key := PlanOf(inp, registry), OwnKey(inp, kind);
            At(Settle(plan, objects), key) ==
              if key in plan.deletions then None
              else if IsPlaced(inp, kind) then
                Some(Merged(ItemOf(kind, PhaseTwo(inp, registry, kind)), At(objects, key)))
              else At(objects, key)
  {
    var plan, key := PlanOf(inp, registry), OwnKey(inp, kind);
    PlanIsDistinct(inp, registry);
    SettleAt(plan, objects, key);
    if IsPlaced(inp, kind) {
      var i := ItemFor(inp, registry, kind);
    } else {
      NotPlanned(inp, registry, kind);
    }
  }

  /** Applying and cleaning agree: nothing of a disabled database is applied, and none of it survives the run. */
  lemma NoDatabaseLeft(inp: Inputs, registry: seq<Kind>, objects: Store, kind: Kind)
    requires Usable(inp) && Ready(inp) && IsRegistry(registry)
    requires kind in {DbStatefulSetKind, DbServiceKind, DbSecretKind} && !inp.spec.IsLocalDbEnabled()
    ensures forall i :: 0 <= i < |PlanOf(inp, registry).items| ==>
              PlanOf(inp, registry).items[i].key != OwnKey(inp, kind)
    ensures OwnKey(inp, kind) !in Settle(PlanOf(inp, registry), objects)
  {
    NotPlanned(inp, registry, kind);
    Deleted(inp, kind);
    ClusterAfterRun(inp, registry, objects, kind);
  }

  /** On OpenShift the CR has a Route after the run exactly when it enables one, whatever route.yaml says. */
  lemma RouteExactlyWhenEnabled(inp: Inputs, registry: seq<Kind>, objects: Store)
    requires Usable(inp) && Ready(inp) && IsRegistry(registry) && inp.operator.isOpenShift
    ensures OwnKey(inp, RouteKind) in Settle(PlanOf(inp, registry), objects) <==> inp.spec.IsRouteEnabled()
  {
    Deleted(inp, RouteKind);
    ClusterAfterRun(inp, registry, objects, RouteKind);
  }

  /** Off OpenShift no run touches a Route. */
  lemma RouteOnlyOnOpenShift(inp: Inputs, registry: seq<Kind>, objects: Store)
    requires Usable(inp) && Ready(inp) && IsRegistry(registry) && !inp.operator.isOpenShift
    ensures At(Settle(PlanOf(inp, registry), objects), OwnKey(inp, RouteKind)) == At(objects, OwnKey(inp, RouteKind))
  {
    Deleted(inp, RouteKind);
    ClusterAfterRun(inp, registry, objects, RouteKind);
  }

  /** An object that is applied and not deleted is there after the run. */
  lemma AppliedExists(inp: Inputs, registry: seq<Kind>, objects: Store, owner: Kind)
    requires Usable(inp) && Ready(inp) && IsRegistry(registry) && IsPlaced(inp, owner) && owner != RouteKind
    ensures OwnKey(inp, owner) in Settle(PlanOf(inp, registry), objects)
  {
    Deleted(inp, owner);
    ClusterAfterRun(inp, registry, objects, owner);
  }

  lemma NoRouteKey(inp: Inputs, owner: Kind, kind: ObjectKind, name: string)
    requires OwnKey(inp, owner) == Key(ApiOf(kind), inp.namespace, name)
    ensures owner != RouteKind
  {
  }

  /** Every ConfigMap or Secret that defaults or the DB secret bring into the pod is in the cluster after the run. */
  lemma DefaultReferencesExist(inp: Inputs, registry: seq<Kind>, objects: Store, d: Delta, kind: ObjectKind,
                               name: string)
    requires Usable(inp) && Ready(inp) && IsRegistry(registry)
    requires d in DefaultDeltas(inp, PlacedKinds(inp, registry)) || d == DbDelta(inp)
    requires Refers(d, kind, name)
    ensures Key(ApiOf(kind), inp.namespace, name) in Settle(PlanOf(inp, registry), objects)
  {
    DefaultReferencesResolve(inp, registry, d, kind, name);
    var owner :| IsPlaced(inp, owner) && OwnKey(inp, owner) == Key(ApiOf(kind), inp.namespace, name);
    NoRouteKey(inp, owner, kind, name);
    AppliedExists(inp, registry, objects, owner);
  }
}
