/** Running again for the same CR: what a second run reads, and what it changes. */
module Repetition {
  import opened Builder
  import opened Convergence
  import opened Determinacy
  import opened Machine
  import opened Marshalling
  import opened Names
  import opened Objects
  import opened Plans
  import opened Resources
  import opened Wrappers

  lemma SameMeta(a: ObjectV, b: ObjectV)
    requires a.meta == b.meta
    ensures ResourceOf(b) == ResourceOf(a).(fields := ResourceOf(b).fields)
  {
  }

  /** Applying the objects of a kind one after the other. */
  lemma AppliedAgain(kind: Kind, v: ObjectV, again: ObjectV, was: Option<Resource>)
    requires v.meta == again.meta && (kind !in {DeploymentKind, DbSecretKind} ==> v == again)
    ensures var once := Merged(ItemOf(kind, v), was);
            && Merged(ItemOf(kind, again), Some(once))
               == (if kind == DeploymentKind then once.(fields := FieldsOf(again)) else once)
            && (kind == DeploymentKind ==> once.fields == FieldsOf(v))
  {
    SentIsNullFree(v);
    SameMeta(v, again);
    MergedTwice(ItemOf(kind, v), ItemOf(kind, again), was);
  }

  /** The keys of the CR that are not applied are the same after the second run as after the first. */
  lemma UnappliedTwice(a: Inputs, b: Inputs, registry: seq<Kind>, objects: Store, kind: Kind)
    requires SameManifests(a, b) && Usable(a) && Ready(a) && Usable(b) && Ready(b) && IsRegistry(registry)
    requires !IsPlaced(a, kind) || OwnKey(a, kind) in PlanOf(a, registry).deletions
    ensures var once := Settle(PlanOf(a, registry), objects);
            At(Settle(PlanOf(b, registry), once), OwnKey(a, kind)) == At(once, OwnKey(a, kind))
  {
    ClusterAfterRun(a, registry, objects, kind);
    ClusterAfterRun(b, registry, Settle(PlanOf(a, registry), objects), kind);
    SameManifest(a, b, kind);
  }

  lemma AppliedTwice(a: Inputs, b: Inputs, registry: seq<Kind>, objects: Store, kind: Kind)
    requires SameManifests(a, b) && Usable(a) && Ready(a) && Usable(b) && Ready(b) && IsRegistry(registry)
    requires IsPlaced(a, kind) && OwnKey(a, kind) !in PlanOf(a, registry).deletions
    ensures IsPlaced(b, kind)
    ensures var once, again := At(Settle(PlanOf(a, registry), objects), OwnKey(a, kind)), PhaseTwo(b, registry, kind);
            && once == Some(Merged(ItemOf(kind, PhaseTwo(a, registry, kind)), At(objects, OwnKey(a, kind))))
            && At(Settle(PlanOf(b, registry), Settle(PlanOf(a, registry), objects)), OwnKey(a, kind))
               == Some(Merged(ItemOf(kind, again), once))
  {
    SameManifest(a, b, kind);
    ClusterAfterRun(a, registry, objects, kind);
    ClusterAfterRun(b, registry, Settle(PlanOf(a, registry), objects), kind);
  }

  /** All keys of the CR but the Deployment's are the same after the second run as after the first. */
  lemma SecondPlanChangesNothing(a: Inputs, b: Inputs, registry: seq<Kind>, objects: Store, kind: Kind)
    requires SameManifests(a, b) && Usable(a) && Ready(a) && Usable(b) && Ready(b) && IsRegistry(registry)
    requires kind != DeploymentKind
    ensures var once := Settle(PlanOf(a, registry), objects);
            At(Settle(PlanOf(b, registry), once), OwnKey(a, kind)) == At(once, OwnKey(a, kind))
  {
    if !IsPlaced(a, kind) || OwnKey(a, kind) in PlanOf(a, registry).deletions {
      UnappliedTwice(a, b, registry, objects, kind);
    } else {
      PhaseTwoRebuilt(a, b, registry, kind);
      AppliedTwice(a, b, registry, objects, kind);
      AppliedAgain(kind, PhaseTwo(a, registry, kind), PhaseTwo(b, registry, kind), At(objects, OwnKey(a, kind)));
    }
  }

  /** The Deployment's fields are written anew. */
  lemma SecondPlanDeployment(a: Inputs, b: Inputs, registry: seq<Kind>, objects: Store)
    requires SameManifests(a, b) && Usable(a) && Ready(a) && Usable(b) && Ready(b) && IsRegistry(registry)
    ensures IsPlaced(a, DeploymentKind) && IsPlaced(b, DeploymentKind)
    ensures var once := At(Settle(PlanOf(a, registry), objects), OwnKey(a, DeploymentKind));
            && once.Some? && once.value.fields == FieldsOf(PhaseTwo(a, registry, DeploymentKind))
            && At(Settle(PlanOf(b, registry), Settle(PlanOf(a, registry), objects)), OwnKey(a, DeploymentKind))
               == Some(once.value.(fields := FieldsOf(PhaseTwo(b, registry, DeploymentKind))))
  {
    assert !IsMissing(a, DeploymentKind) && !IsMissing(b, DeploymentKind);
    PhaseTwoRebuilt(a, b, registry, DeploymentKind);
    Deleted(a, DeploymentKind);
    AppliedTwice(a, b, registry, objects, DeploymentKind);
    AppliedAgain(DeploymentKind, PhaseTwo(a, registry, DeploymentKind), PhaseTwo(b, registry, DeploymentKind),
                 At(objects, OwnKey(a, DeploymentKind)));
  }

  /** Keys that are not the CR's are the same after the run. */
  lemma ForeignKeysStay(inp: Inputs, registry: seq<Kind>, objects: Store, key: Key)
    requires Usable(inp) && Ready(inp) && IsRegistry(registry) && !Owns(inp.namespace, inp.name, key)
    ensures At(Settle(PlanOf(inp, registry), objects), key) == At(objects, key)
  {
    var plan := PlanOf(inp, registry);
    PlanIsDistinct(inp, registry);
    PlanIsLawful(inp, registry);
    assert forall k :: 0 <= k < |plan.items| ==> plan.items[k] in plan.items;
    SettleAt(plan, objects, key);
  }

  lemma IdleAt(a: Inputs, b: Inputs, registry: seq<Kind>, objects: Store, kind: Kind)
    requires Repeated(a, b) && Usable(a) && Ready(a) && Usable(b) && Ready(b) && IsRegistry(registry)
    ensures var once := Settle(PlanOf(a, registry), objects);
            At(Settle(PlanOf(b, registry), once), OwnKey(a, kind)) == At(once, OwnKey(a, kind))
  {
    if kind == DeploymentKind {
      SecondPlanDeployment(a, b, registry, objects);
      PasswordStaysInSecret(a, b, registry, kind);
    } else {
      SecondPlanChangesNothing(a, b, registry, objects, kind);
    }
  }

  lemma IdleAtKey(a: Inputs, b: Inputs, registry: seq<Kind>, objects: Store, key: Key)
    requires Repeated(a, b) && Usable(a) && Ready(a) && Usable(b) && Ready(b) && IsRegistry(registry)
    ensures var once := Settle(PlanOf(a, registry), objects);
            SameAt(Settle(PlanOf(b, registry), once), once, key)
  {
    if Owns(a.namespace, a.name, key) {
      var kind :| key == KeyOf(kind, a.namespace, a.name);
      IdleAt(a, b, registry, objects, kind);
    } else {
      ForeignKeysStay(b, registry, Settle(PlanOf(a, registry), objects), key);
    }
  }

  lemma SameEverywhere(a: Store, b: Store)
    requires forall key :: SameAt(a, b, key)
    ensures a == b
  {
    forall key ensures (key in a <==> key in b) && (key in a ==> a[key] == b[key]) {
      assert SameAt(a, b, key);
    }
  }

  /** With the same loop orders, the second plan leaves the whole cluster exactly as the first left it. */
  lemma SecondPlanIsIdle(a: Inputs, b: Inputs, registry: seq<Kind>, objects: Store)
    requires Repeated(a, b) && Usable(a) && Ready(a) && Usable(b) && Ready(b) && IsRegistry(registry)
    ensures Settle(PlanOf(b, registry), Settle(PlanOf(a, registry), objects)) == Settle(PlanOf(a, registry), objects)
  {
    var once := Settle(PlanOf(a, registry), objects);
    var twice := Settle(PlanOf(b, registry), once);
    forall key ensures SameAt(twice, once, key) {
      IdleAtKey(a, b, registry, objects, key);
    }
    SameEverywhere(twice, once);
  }
}
