/** What may be relied on after one run of Reconcile. */
module Guarantees {
  import opened BackstageApi
  import opened Builder
  import opened Convergence
  import opened Interleaving
  import opened Machine
  import opened Names
  import opened Plans
  import opened Pods
  import opened Preprocessing
  import opened Programs
  import opened Reconciling

  /** When the stages before the first write succeed; a run that does not get past them leaves every object alone. */
  lemma FailsFast(setup: Setup, backstage: Backstage, password: string, order: Order, objects: Store, faults: Faults,
                  n: nat)
    requires NoPanic(setup, backstage, password, order, objects, faults, n)
    ensures var r := ReadsFor(backstage, objects, faults, n);
            var run := Staged(setup, backstage, password, order, objects, faults, n);
            && (r.ok <==> Available(objects, backstage.namespace, backstage.spec) && Calm(faults, n + 1, r.calls))
            && (!(r.ok && Succeeds(BuildInputs(setup, backstage, password, order, r.got))) ==>
                  !run.ok && run.objects == objects)
  {
    PreprocessWhen(objects, backstage.namespace, backstage.spec, faults, n + 1);
  }

  lemma CalmJoins(faults: Faults, a: nat, b: nat, c: nat)
    requires a <= b <= c
    ensures Calm(faults, a, c) <==> Calm(faults, a, b) && Calm(faults, b, c)
  {
  }

  /**
   A run returns no error exactly when everything the CR names exists, the model can be built and no call fails; and
   then the cluster is what the plan means, from whatever state it was in.
   */
  lemma SuccessMeans(setup: Setup, backstage: Backstage, password: string, order: Order, objects: Store, faults: Faults,
                     n: nat)
    requires NoPanic(setup, backstage, password, order, objects, faults, n)
    ensures var r := ReadsFor(backstage, objects, faults, n);
            var run := Staged(setup, backstage, password, order, objects, faults, n);
            && (run.ok <==> Available(objects, backstage.namespace, backstage.spec) && Calm(faults, n + 1, run.calls)
                            && r.ok && Succeeds(BuildInputs(setup, backstage, password, order, r.got)))
            && (run.ok ==>
                  var inp := BuildInputs(setup, backstage, password, order, r.got);
                  run.objects == Settle(PlanOf(inp, setup.registry), objects))
  {
    var r := ReadsFor(backstage, objects, faults, n);
    PreprocessWhen(objects, backstage.namespace, backstage.spec, faults, n + 1);
    if ReadyToApply(setup, backstage, password, order, objects, faults, n) {
      var inp := BuildInputs(setup, backstage, password, order, r.got);
      var plan := PlanOf(inp, setup.registry);
      var run := Exec(plan, Start(plan), objects, faults, r.calls);
      PlanIsSendable(inp, setup.registry);
      RunMeans(plan, objects, faults, r.calls);
      CalmJoins(faults, n + 1, r.calls, run.calls);
    }
  }

  lemma {:induction false} ExecLeavesOthers(plan: Plan, pc: Pc, objects: Store, faults: Faults, n: nat, key: Key)
    requires ValidPc(plan, pc) && key !in plan.deletions && forall item :: item in plan.items ==> item.key != key
    ensures SameAt(Exec(plan, pc, objects, faults, n).objects, objects, key)
    decreases Remaining(plan, pc)
  {
    if !pc.Finished? {
      var (after, reply) := ServeUnder(NextCall(plan, pc), objects, faults(n));
      StepsRunOut(plan, pc, reply);
      KeyIsPlanned(plan, pc);
      CallIsLocal(NextCall(plan, pc), objects, objects, faults(n));
      ExecLeavesOthers(plan, Advance(plan, pc, reply), after, faults, n + 1, key);
    }
  }

  /** No run, successful or not, changes an object that is not one of its own CR's twelve. */
  lemma OnlyOwnObjects(setup: Setup, backstage: Backstage, password: string, order: Order, objects: Store,
                       faults: Faults, n: nat, key: Key)
    requires NoPanic(setup, backstage, password, order, objects, faults, n)
    requires !Owns(backstage.namespace, backstage.name, key)
    ensures SameAt(Staged(setup, backstage, password, order, objects, faults, n).objects, objects, key)
  {
    if ReadyToApply(setup, backstage, password, order, objects, faults, n) {
      var r := ReadsFor(backstage, objects, faults, n);
      var inp := BuildInputs(setup, backstage, password, order, r.got);
      var plan := PlanOf(inp, setup.registry);
      PlanIsLawful(inp, setup.registry);
      ExecLeavesOthers(plan, Start(plan), objects, faults, r.calls, key);
    }
  }
}
