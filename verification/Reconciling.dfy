/** Reconcile: one whole run, from loading the CR to writing its status, and what may be relied on after it. */
module Reconciling {
  import opened BackstageApi
  import opened Builder
  import opened ClusterApi
  import opened Conditions
  import opened InitObjects
  import opened KubeObjects
  import opened Machine
  import opened Names
  import opened Objects
  import opened Plans
  import opened Pods
  import opened Preprocessing
  import opened Programs
  import opened Reconciler
  import opened Resources
  import opened Runtime
  import opened Wrappers

  /** The reconciler's own fields, and the order in which kinds are registered. "" stands for every namespace. */
  datatype Setup = Setup(namespace: string, operator: Operator, registry: seq<Kind>)

  function InputsFor(setup: Setup, backstage: Backstage, ext: ExternalConfig, password: string, order: Order): Inputs {
    Inputs(backstage.namespace, backstage.name, backstage.spec, ext, setup.operator, password, order)
  }

  /** What preprocessing reads, when the CR has been loaded by call n. */
  function ReadsFor(backstage: Backstage, objects: Store, faults: Faults, n: nat): ReadingResult {
    ReadAll(objects, ReadKeys(backstage.namespace, backstage.spec), faults, n + 1)
  }

  lemma ReadsMatch(backstage: Backstage, got: seq<Resource>)
    requires |got| == |ReadKeys(backstage.namespace, backstage.spec)|
    ensures |got| == |ReadNames(backstage.spec)|
  {
  }

  /** The inputs of the builder, after preprocessing has read got. */
  function BuildInputs(setup: Setup, backstage: Backstage, password: string, order: Order, got: seq<Resource>): Inputs
    requires |got| == |ReadKeys(backstage.namespace, backstage.spec)|
  {
    ReadsMatch(backstage, got);
    InputsFor(setup, backstage, ExtOf(backstage.spec, got), password, order)
  }

  /** The manifests give the builder no nil to dereference. */
  ghost predicate NoPanic(setup: Setup, backstage: Backstage, password: string, order: Order, objects: Store,
                          faults: Faults, n: nat)
  {
    var r := ReadsFor(backstage, objects, faults, n);
    r.ok ==> Usable(BuildInputs(setup, backstage, password, order, r.got))
  }

  /** What a run decides after it has read everything: its plan, unless the model cannot be built. */
  ghost function Planned(setup: Setup, backstage: Backstage, password: string, order: Order, got: seq<Resource>)
    : Option<Plan>
  {
    if |got| != |ReadKeys(backstage.namespace, backstage.spec)| then None else
      var inp := BuildInputs(setup, backstage, password, order, got);
      if Usable(inp) && Succeeds(inp) then Some(PlanOf(inp, setup.registry)) else None
  }

  /** One run of the operator for this CR. */
  ghost function ProgramOf(setup: Setup, backstage: Backstage, password: string, order: Order): Program {
    Program(ReadKeys(backstage.namespace, backstage.spec),
            (got: seq<Resource>) => Planned(setup, backstage, password, order, got))
  }

  /** Both stages that come before the first write succeed. */
  ghost predicate ReadyToApply(setup: Setup, backstage: Backstage, password: string, order: Order, objects: Store,
                               faults: Faults, n: nat)
    requires NoPanic(setup, backstage, password, order, objects, faults, n)
  {
    var r := ReadsFor(backstage, objects, faults, n);
    r.ok && Succeeds(BuildInputs(setup, backstage, password, order, r.got))
  }

  /** The four stages of a run whose CR was loaded by call n. */
  ghost function Staged(setup: Setup, backstage: Backstage, password: string, order: Order, objects: Store,
                        faults: Faults, n: nat): Outcome
    requires NoPanic(setup, backstage, password, order, objects, faults, n)
  {
    var r := ReadsFor(backstage, objects, faults, n);
    if !ReadyToApply(setup, backstage, password, order, objects, faults, n) then Outcome(objects, false, r.calls)
    else
      var plan := PlanOf(BuildInputs(setup, backstage, password, order, r.got), setup.registry);
      Exec(plan, Start(plan), objects, faults, r.calls)
  }

  /** The stages are the run of the machine, alone. */
  lemma StagedIsProgram(setup: Setup, backstage: Backstage, password: string, order: Order, objects: Store,
                        faults: Faults, n: nat)
    requires NoPanic(setup, backstage, password, order, objects, faults, n)
    ensures Staged(setup, backstage, password, order, objects, faults, n)
         == ExecRun(Launched(ProgramOf(setup, backstage, password, order)), objects, faults, n + 1)
  {
    RunAlone(ProgramOf(setup, backstage, password, order), objects, faults, n + 1);
  }

  /** applyObjects and cleanObjects, for a model that has been built. */
  method ApplyAndClean(cluster: Cluster, backstage: Backstage, objs: seq<RuntimeObject>, isOpenShift: bool,
                       ghost plan: Plan, ghost built: seq<RuntimeObjectV>, ghost reach: set<object>) returns (ok: bool)
    requires Kept(objs) && Shown(objs, built) && reach == Reach(objs) && cluster !in reach
    requires plan.items == ItemsOf(built)
    requires plan.deletions == Deletions(backstage.spec, backstage.namespace, backstage.name, isOpenShift)
    modifies reach + {cluster}
    ensures cluster.backstages == old(cluster.backstages)
    ensures Outcome(cluster.objects, ok, cluster.calls)
         == Exec(plan, Start(plan), old(cluster.objects), cluster.faults, old(cluster.calls))
  {
    assert objs[0..] == objs && built[0..] == built;
    ok := ApplyObjects(cluster, objs, plan, built, reach);
    if ok {
      ok := CleanObjects(cluster, backstage, isOpenShift, plan);
    }
  }

  /** What follows preprocessing: a model that cannot be built is an error before anything is sent. */
  method BuildAndApply(cluster: Cluster, backstage: Backstage, inp: Inputs, registry: seq<Kind>) returns (ok: bool)
    requires Usable(inp) && IsRegistry(registry) && ValidOrder(inp.order)
    requires inp.spec == backstage.spec && inp.namespace == backstage.namespace && inp.name == backstage.name
    modifies cluster
    ensures cluster.backstages == old(cluster.backstages)
    ensures !Succeeds(inp) ==> cluster.sent == old(cluster.sent)
    ensures Outcome(cluster.objects, ok, cluster.calls)
         == if !Succeeds(inp) then Outcome(old(cluster.objects), false, old(cluster.calls))
            else Exec(PlanOf(inp, registry), Start(PlanOf(inp, registry)), old(cluster.objects), cluster.faults,
                      old(cluster.calls))
  {
    var model, failed := InitObjects.InitObjects(inp, registry);
    if failed {
      return false;
    }
    ok := ApplyAndClean(cluster, backstage, model.runtimeObjects, inp.operator.isOpenShift,
                        PlanOf(inp, registry), Built(inp, registry), Reach(model.runtimeObjects));
  }

  /** Preprocess, build, apply, clean: stops at the first error. */
  method RunStages(cluster: Cluster, setup: Setup, backstage: Backstage, password: string, order: Order, ghost n: nat)
    returns (ok: bool)
    requires IsRegistry(setup.registry) && ValidOrder(order) && cluster.calls == n + 1
    requires NoPanic(setup, backstage, password, order, cluster.objects, cluster.faults, n)
    modifies cluster
    ensures cluster.backstages == old(cluster.backstages)
    ensures !ReadyToApply(setup, backstage, password, order, old(cluster.objects), cluster.faults, n) ==>
              OnlyGets(cluster.sent, old(cluster.sent))
    ensures Outcome(cluster.objects, ok, cluster.calls)
         == Staged(setup, backstage, password, order, old(cluster.objects), cluster.faults, n)
  {
    var ext;
    ext, ok := PreprocessSpec(cluster, backstage.namespace, backstage.spec);
    if !ok {
      return;
    }
    ok := BuildAndApply(cluster, backstage, InputsFor(setup, backstage, ext, password, order), setup.registry);
  }

  /** The CR this run is about, None when it ends before loading one. */
  function LoadedCr(setup: Setup, req: Cr, backstages: map<Cr, Backstage>, fault: Fault): Option<Backstage> {
    if setup.namespace != "" && req.namespace != setup.namespace then None
    else if fault == Healthy && req in backstages then Some(backstages[req])
    else None
  }

  /** Reconcile */
  method Reconcile(cluster: Cluster, setup: Setup, req: Cr, password: string, order: Order) returns (ok: bool)
    requires IsRegistry(setup.registry) && ValidOrder(order)
    requires var cr := LoadedCr(setup, req, cluster.backstages, cluster.faults(cluster.calls));
             cr.Some? ==> NoPanic(setup, cr.value, password, order, cluster.objects, cluster.faults, cluster.calls)
    modifies cluster
    ensures var n := old(cluster.calls);
            var cr := LoadedCr(setup, req, old(cluster.backstages), cluster.faults(n));
            if cr.None? then
              && cluster.objects == old(cluster.objects) && cluster.backstages == old(cluster.backstages)
              && (ok <==> (setup.namespace != "" && req.namespace != setup.namespace) || cluster.faults(n) == Healthy)
            else
              var run := Staged(setup, cr.value, password, order, old(cluster.objects), cluster.faults, n);
              && cluster.objects == run.objects && ok == run.ok
              && cluster.backstages == WithStatus(old(cluster.backstages), req,
                                                  FinalConditions(cr.value.conditions, ok),
                                                  cluster.faults(run.calls))
    ensures setup.namespace != "" && req.namespace != setup.namespace ==> ok && cluster.calls == old(cluster.calls)
  {
    if setup.namespace != "" && req.namespace != setup.namespace {
      return true;
    }
    ghost var n := cluster.calls;
    var reply := cluster.GetBackstage(req);
    if !reply.Loaded? {
      return reply == Gone;
    }
    var backstage := reply.backstage;
    var conditions := backstage.conditions;
    if |conditions| == 0 {
      conditions := SetCondition(conditions, IN_PROGRESS);
    }
    ok := RunStages(cluster, setup, backstage, password, order, n);
    conditions := SetCondition(conditions, if ok then DEPLOYED else FAILED);
    cluster.UpdateStatus(req, conditions);
  }
}
