/** Whole histories of the operator's runs, from their first read on: isolation, credentials, convergence. */
module Histories {
  import opened BackstageApi
  import opened Builder
  import opened Contents
  import opened Convergence
  import opened Interleaving
  import opened Isolation
  import opened Lasting
  import opened Machine
  import opened Marshalling
  import opened Names
  import opened Objects
  import opened Plans
  import opened Pods
  import opened Preprocessing
  import opened Programs
  import opened Reconciling
  import opened Resources
  import opened SentObjects
  import opened Wrappers

  /** This is the program of a run of the operator for this CR. */
  ghost predicate Operates(cr: Cr, program: Program, setup: Setup, backstage: Backstage, password: string,
                           order: Order)
  {
    && IsRegistry(setup.registry) && ValidOrder(order)
    && cr == Cr(backstage.namespace, backstage.name)
    && program == ProgramOf(setup, backstage, password, order)
  }

  /** Programs of the operator, for any CRs, specs, settings, passwords and orders. */
  ghost function OperatorRuns(): (RunId, Program) -> bool {
    (id: RunId, program: Program) =>
      exists setup, backstage, password, order :: Operates(id.cr, program, setup, backstage, password, order)
  }

  lemma IsOperators(id: RunId, program: Program, setup: Setup, backstage: Backstage, password: string, order: Order)
    requires Operates(id.cr, program, setup, backstage, password, order)
    ensures OperatorRuns()(id, program)
  {
  }

  /** The plan comes from these inputs. */
  ghost predicate PlannedBy(cr: Cr, plan: Plan, inp: Inputs, registry: seq<Kind>) {
    && Usable(inp) && Ready(inp) && IsRegistry(registry)
    && cr == Cr(inp.namespace, inp.name)
    && plan == PlanOf(inp, registry)
  }

  /** What a run plans after it has read got. */
  lemma PlansFrom(cr: Cr, program: Program, setup: Setup, backstage: Backstage, password: string, order: Order,
                  got: seq<Resource>)
    requires Operates(cr, program, setup, backstage, password, order) && program.build(got).Some?
    ensures |got| == |ReadKeys(backstage.namespace, backstage.spec)|
    ensures PlannedBy(cr, program.build(got).value, BuildInputs(setup, backstage, password, order, got), setup.registry)
  {
  }

  lemma OperatorIsLawful(cr: Cr, program: Program, setup: Setup, backstage: Backstage, password: string, order: Order)
    requires Operates(cr, program, setup, backstage, password, order)
    ensures Yields(program, LawfulFor(cr))
  {
    forall got | program.build(got).Some? ensures LawfulFor(cr)(program.build(got).value) {
      PlansFrom(cr, program, setup, backstage, password, order, got);
      PlanIsLawful(BuildInputs(setup, backstage, password, order, got), setup.registry);
    }
  }

  /** The name is that of a ConfigMap that the operator generates for another CR of the namespace. */
  ghost predicate NamesAnothers(cr: Cr, name: string) {
    exists kind, other :: other != cr.name && ApiKindOf(kind) == ConfigMaps && name == RuntimeName(kind, other)
  }

  /** The CR names no ConfigMap that the operator generates for another CR. */
  ghost predicate NamesNoOthers(backstage: Backstage) {
    forall name :: name in ReadNames(backstage.spec) ==>
      !NamesAnothers(Cr(backstage.namespace, backstage.name), name)
  }

  lemma ForeignName(cr: Cr, name: string)
    ensures Foreign(cr, ConfigMapKey(cr.namespace, name)) <==> NamesAnothers(cr, name)
  {
    var key := ConfigMapKey(cr.namespace, name);
    if Foreign(cr, key) {
      var other: Cr :| other != cr && Owns(other.namespace, other.name, key);
      var kind :| key == KeyOf(kind, other.namespace, other.name);
      assert other.name != cr.name && ApiKindOf(kind) == ConfigMaps && name == RuntimeName(kind, other.name);
    }
    if kind, other :| other != cr.name && ApiKindOf(kind) == ConfigMaps && name == RuntimeName(kind, other) {
      assert key == KeyOf(kind, cr.namespace, other);
      assert Owns(Cr(cr.namespace, other).namespace, Cr(cr.namespace, other).name, key);
    }
  }

  lemma SelfContainedExactly(cr: Cr, program: Program, setup: Setup, backstage: Backstage, password: string,
                             order: Order)
    requires Operates(cr, program, setup, backstage, password, order)
    ensures SelfContained(cr, program) <==> NamesNoOthers(backstage)
  {
    var names := ReadNames(backstage.spec);
    forall name ensures Foreign(cr, ConfigMapKey(cr.namespace, name)) <==> NamesAnothers(cr, name) {
      ForeignName(cr, name);
    }
    if SelfContained(cr, program) {
      forall name | name in names ensures !NamesAnothers(cr, name) {
        var i :| 0 <= i < |names| && names[i] == name;
        assert program.sources[i] == ConfigMapKey(cr.namespace, name);
        assert program.sources[i] in program.sources;
      }
    } else {
      var key :| key in program.sources && Foreign(cr, key);
      var i :| 0 <= i < |program.sources| && program.sources[i] == key;
      assert key == ConfigMapKey(cr.namespace, names[i]) && names[i] in names;
    }
  }

  /** Runs of the operator in which this CR never names a ConfigMap generated for another. */
  ghost function KeepingApart(cr: Cr): (RunId, Program) -> bool {
    (id: RunId, program: Program) =>
      exists setup, backstage, password, order ::
        Operates(id.cr, program, setup, backstage, password, order) && (id.cr == cr ==> NamesNoOthers(backstage))
  }

  lemma KeepingApartIsSeparate(cr: Cr, s: State, es: seq<Event>)
    requires WorkingPrograms(s, es, KeepingApart(cr))
    ensures WorkingPrograms(s, es, Separate(cr))
  {
    forall id, program | KeepingApart(cr)(id, program) ensures Separate(cr)(id, program) {
      var setup, backstage, password, order :|
        Operates(id.cr, program, setup, backstage, password, order) && (id.cr == cr ==> NamesNoOthers(backstage));
      OperatorIsLawful(id.cr, program, setup, backstage, password, order);
      SelfContainedExactly(id.cr, program, setup, backstage, password, order);
    }
    WorkingProgramsImply(s, es, KeepingApart(cr), Separate(cr));
  }

  /**
   Isolation for histories in which specs change: what other CRs do changes nothing that is not theirs, as long as the
   runs of this CR that have a part in the history name no ConfigMap of another. What earlier runs named is no matter.
   */
  lemma HistoriesAreIsolated(cr: Cr, s: State, es: seq<Event>)
    requires WorkingPrograms(s, es, KeepingApart(cr))
    ensures Agree(cr, Play(s, es), Play(s, Own(cr, es)))
  {
    KeepingApartIsSeparate(cr, s, es);
    OthersDoNotInterfere(cr, s, es);
  }

  function SecretKey(cr: Cr): Key { KeyOf(DbSecretKind, cr.namespace, cr.name) }

  /** The only item at a DB secret's key is that CR's DB secret. */
  lemma SecretItem(planner: Cr, plan: Plan, inp: Inputs, registry: seq<Kind>, item: Item, cr: Cr)
    requires PlannedBy(planner, plan, inp, registry) && item in plan.items && item.key == SecretKey(cr)
    ensures planner == cr && IsPlaced(inp, DbSecretKind)
    ensures item == ItemOf(DbSecretKind, PhaseTwo(inp, registry, DbSecretKind)) && item.how == CreateOnly
  {
    var i :| 0 <= i < |plan.items| && plan.items[i] == item;
    ItemAt(inp, registry, i);
    KeysAreInjective(Built(inp, registry)[i].kind, inp.namespace, inp.name, DbSecretKind, cr.namespace, cr.name);
  }

  lemma SecretIsOnlyCreated(cr: Cr, s: State, es: seq<Event>)
    requires AllPrograms(s, es, OperatorRuns())
    ensures AllPrograms(s, es, CreateOnlyRuns(SecretKey(cr)))
  {
    var key := SecretKey(cr);
    forall id, program | OperatorRuns()(id, program) ensures CreateOnlyRuns(key)(id, program) {
      var setup, backstage, password, order :| Operates(id.cr, program, setup, backstage, password, order);
      forall got | program.build(got).Some? ensures OnlyCreates(key)(program.build(got).value) {
        PlansFrom(id.cr, program, setup, backstage, password, order, got);
        var plan, inp := program.build(got).value, BuildInputs(setup, backstage, password, order, got);
        forall item | item in plan.items && item.key == key ensures item.how == CreateOnly {
          SecretItem(id.cr, plan, inp, setup.registry, item, cr);
        }
      }
    }
    ProgramsImply(s, es, OperatorRuns(), CreateOnlyRuns(key));
  }

  /**
   Once a CR's DB secret exists, its content never changes under any history of runs, faults, specs and random
   passwords, until a delete call for it reaches the server.
   */
  lemma CredentialsStay(cr: Cr, s: State, es: seq<Event>)
    requires AllPrograms(s, es, OperatorRuns()) && Untouched(es, SecretKey(cr)) && SecretKey(cr) in s.objects
    requires Undeleted(s, es, SecretKey(cr))
    ensures SameAt(Play(s, es).objects, s.objects, SecretKey(cr))
  {
    SecretIsOnlyCreated(cr, s, es);
    StaysUntilDeleted(s, es, SecretKey(cr));
  }

  /** Such a call is made only by a run of this very CR, for a spec whose local database is disabled. */
  lemma OnlyDisablingDeletes(cr: Cr, s: State, e: Event)
    requires AllPrograms(s, [], OperatorRuns()) && Deletes(s, e, SecretKey(cr))
    ensures e.id.cr == cr
    ensures exists setup, backstage, password, order ::
              && Operates(cr, s.runs[e.id].program, setup, backstage, password, order)
              && !backstage.spec.IsLocalDbEnabled()
  {
    var run := s.runs[e.id];
    DeletedIsPlanned(s, e, SecretKey(cr));
    assert OperatorRuns()(e.id, run.program);
    var setup, backstage, password, order :| Operates(e.id.cr, run.program, setup, backstage, password, order);
    PlansFrom(e.id.cr, run.program, setup, backstage, password, order, run.got);
    var inp := BuildInputs(setup, backstage, password, order, run.got);
    DisabledWhenDeleted(cr, e.id.cr, inp, setup.registry);
  }

  lemma DisabledWhenDeleted(cr: Cr, planner: Cr, inp: Inputs, registry: seq<Kind>)
    requires Usable(inp) && Ready(inp) && planner == Cr(inp.namespace, inp.name)
    requires SecretKey(cr) in PlanOf(inp, registry).deletions
    ensures planner == cr && !inp.spec.IsLocalDbEnabled()
  {
    PlanIsLawful(inp, registry);
    assert Owns(cr.namespace, cr.name, SecretKey(cr));
    OwnersAreUnique(planner.namespace, planner.name, cr.namespace, cr.name, SecretKey(cr));
    Deleted(inp, DbSecretKind);
  }

  /** What the secret says of one variable. */
  function Variable(r: Resource, name: string): Option<string> {
    var data := StringsAt(r.fields, "stringData");
    if name in data then Some(data[name]) else None
  }

  ghost function NamesItsHost(cr: Cr): Resource -> bool {
    (r: Resource) => Variable(r, "POSTGRES_HOST") == Some(RuntimeName(DbServiceKind, cr.name))
  }

  lemma GeneratedHost(inp: Inputs, registry: seq<Kind>)
    requires Usable(inp) && Ready(inp) && Generates(inp)
    ensures NamesItsHost(Cr(inp.namespace, inp.name))(ResourceOf(PhaseTwo(inp, registry, DbSecretKind)))
  {
    GeneratedCredentials(inp, registry);
    SecretReadsBack(PhaseTwo(inp, registry, DbSecretKind));
  }

  /** The run has planned for a spec that has its credentials generated. */
  ghost predicate RunGenerates(cr: Cr, run: Run) {
    exists setup, backstage, password, order ::
      && Operates(cr, run.program, setup, backstage, password, order) && run.program.build(run.got).Some?
      && |run.got| == |ReadKeys(backstage.namespace, backstage.spec)|
      && Generates(BuildInputs(setup, backstage, password, order, run.got))
  }

  /** Whenever the secret comes into being, it is generated. */
  ghost predicate GeneratedAtBirth(cr: Cr, s: State, es: seq<Event>) {
    forall i :: 0 <= i < |es| && Creates(Play(s, es[..i]), es[i], SecretKey(cr)) ==>
      es[i].id in Play(s, es[..i]).runs && RunGenerates(es[i].id.cr, Play(s, es[..i]).runs[es[i].id])
  }

  lemma BornWithHost(cr: Cr, s: State, e: Event)
    requires Creates(s, e, SecretKey(cr)) && e.id in s.runs && RunGenerates(e.id.cr, s.runs[e.id])
    ensures NamesItsHost(cr)(Happen(s, e).objects[SecretKey(cr)])
  {
    var run := s.runs[e.id];
    CreatedAsWanted(s, e, SecretKey(cr));
    var item :| item in PlanOfRun(run).items && item.key == SecretKey(cr)
                && Happen(s, e).objects[SecretKey(cr)] == item.want;
    var setup, backstage, password, order :|
      && Operates(e.id.cr, run.program, setup, backstage, password, order) && run.program.build(run.got).Some?
      && |run.got| == |ReadKeys(backstage.namespace, backstage.spec)|
      && Generates(BuildInputs(setup, backstage, password, order, run.got));
    var inp := BuildInputs(setup, backstage, password, order, run.got);
    PlansFrom(e.id.cr, run.program, setup, backstage, password, order, run.got);
    SecretItem(e.id.cr, PlanOfRun(run), inp, setup.registry, item, cr);
    GeneratedHost(inp, setup.registry);
  }

  /**
   A DB secret that is generated whenever it comes into being names its own CR's database service throughout: through
   later specs that name an auth secret or disable the database, through deletions, new passwords and new creations.
   */
  lemma HostStays(cr: Cr, s: State, es: seq<Event>)
    requires AllPrograms(s, es, OperatorRuns()) && Untouched(es, SecretKey(cr)) && GeneratedAtBirth(cr, s, es)
    requires SecretKey(cr) in s.objects ==> NamesItsHost(cr)(s.objects[SecretKey(cr)])
    ensures SecretKey(cr) in Play(s, es).objects ==> NamesItsHost(cr)(Play(s, es).objects[SecretKey(cr)])
  {
    var key := SecretKey(cr);
    SecretIsOnlyCreated(cr, s, es);
    forall i | 0 <= i < |es| && Creates(Play(s, es[..i]), es[i], key)
      ensures NamesItsHost(cr)(Happen(Play(s, es[..i]), es[i]).objects[key])
    {
      BornWithHost(cr, Play(s, es[..i]), es[i]);
    }
    HoldsAsCreated(s, es, key, NamesItsHost(cr));
  }

  /** The run is at work on its way to the goal, with at most so many calls to go. */
  ghost predicate OnCourse(s: State, id: RunId, program: Program, got: seq<Resource>, goal: Store, left: int) {
    && id in s.runs && s.runs[id].program == program && s.runs[id].got == got && s.runs[id].at.Working?
    && var plan, pc := PlanFrom(program, got), s.runs[id].at.pc;
       InSync(plan, pc, s.objects) && Rest(plan, pc, s.objects) == goal && pc != Finished(false)
       && (pc.Finished? || Remaining(plan, pc) <= left)
  }

  lemma CallKeepsCourse(s: State, id: RunId, program: Program, got: seq<Resource>, goal: Store, left: int)
    requires Sendable(PlanFrom(program, got)) && OnCourse(s, id, program, got, goal, left)
    ensures OnCourse(Happen(s, Tick(id, Healthy)), id, program, got, goal, left - 1)
  {
    var plan, pc := PlanFrom(program, got), s.runs[id].at.pc;
    if !pc.Finished? {
      ServedStep(plan, pc, s.objects);
      StepsRunOut(plan, pc, Serve(NextCall(plan, pc), s.objects).1);
    }
  }

  lemma {:induction false} CallsKeepCourse(s: State, es: seq<Event>, id: RunId, program: Program, got: seq<Resource>,
                                           goal: Store, left: int, n: nat)
    requires Sendable(PlanFrom(program, got)) && OnCourse(Play(s, es), id, program, got, goal, left)
    ensures OnCourse(Play(s, es + Calls(id, n)), id, program, got, goal, left - n)
  {
    if n == 0 {
      CallsStep(s, es, id, 0);
    } else {
      CallsKeepCourse(s, es, id, program, got, goal, left, n - 1);
      CallsStep(s, es, id, n - 1);
      CallKeepsCourse(Play(s, es + Calls(id, n - 1)), id, program, got, goal, left - n + 1);
    }
  }

  lemma CallsAreLeft(plan: Plan, pc: Pc)
    requires ValidPc(plan, pc)
    ensures !pc.Finished? ==> Remaining(plan, pc) > 0
  {
  }

  lemma CourseEnds(s: State, es: seq<Event>, id: RunId, program: Program, got: seq<Resource>, goal: Store, n: nat)
    requires Sendable(PlanFrom(program, got)) && OnCourse(Play(s, es), id, program, got, goal, n)
    ensures var t := Play(s, es + Calls(id, n)); t.objects == goal && id in t.runs && Succeeded(t.runs[id])
  {
    CallsKeepCourse(s, es, id, program, got, goal, n, n);
    CallsAreLeft(PlanFrom(program, got), Play(s, es + Calls(id, n)).runs[id].at.pc);
  }

  /** A run that nothing fails reads, plans, finishes and leaves what its plan means. */
  lemma LaunchedRunSettles(s: State, id: RunId, program: Program, plan: Plan, n: nat)
    requires Sendable(plan) && id !in s.runs && AllThere(s.objects, program.sources)
    requires program.build(ObjectsAt(s.objects, program.sources)) == Some(plan)
    requires n >= 2 * |plan.items| + |plan.deletions|
    ensures var t := Play(s, WholeRun(id, program, n));
            t.objects == Settle(plan, s.objects) && id in t.runs && Succeeded(t.runs[id])
  {
    var es, m := [Launch(id, program)], |program.sources|;
    LaunchIn(s, [], id, program);
    assert [] + es == es && program.sources[..m] == program.sources;
    ReadingCalls(s, es, id, program, m);
    CourseEnds(s, es + Calls(id, m), id, program, ObjectsAt(s.objects, program.sources), Settle(plan, s.objects), n);
  }

  lemma OthersKeepApart(cr: Cr, id: RunId, program: Program)
    requires OperatorRuns()(id, program) && id.cr != cr
    ensures KeepingApart(cr)(id, program)
  {
  }

  lemma KeepsApart(cr: Cr, id: RunId, program: Program, setup: Setup, backstage: Backstage, password: string,
                   order: Order)
    requires Operates(id.cr, program, setup, backstage, password, order) && NamesNoOthers(backstage)
    ensures KeepingApart(cr)(id, program)
  {
  }

  /**
   Convergence: from any state, whatever earlier runs of this or other CRs left half done and whatever they named, and
   while other CRs' runs go on at will with whatever faults, one run of this CR that meets no fault, names no ConfigMap
   of another CR and finds what it names reads it, builds its plan and brings everything that is not another CR's to
   what the plan means.
   */
  lemma ConvergesAmidOthers(s: State, es: seq<Event>, id: RunId, program: Program, setup: Setup, backstage: Backstage,
                            password: string, order: Order, plan: Plan, n: nat)
    requires WorkingPrograms(s, es, OperatorRuns()) && id !in s.runs
    requires Operates(id.cr, program, setup, backstage, password, order) && NamesNoOthers(backstage)
    requires AllThere(s.objects, program.sources)
    requires program.build(ObjectsAt(s.objects, program.sources)) == Some(plan)
    requires n >= 2 * |plan.items| + |plan.deletions|
    requires Own(id.cr, es) == WholeRun(id, program, n)
    ensures AgreeOn(id.cr, Play(s, es).objects, Settle(plan, s.objects))
    ensures id in Play(s, es).runs && Succeeded(Play(s, es).runs[id])
  {
    KeepsApart(id.cr, id, program, setup, backstage, password, order);
    forall other, r | OperatorRuns()(other, r) && other.cr != id.cr ensures KeepingApart(id.cr)(other, r) {
      OthersKeepApart(id.cr, other, r);
    }
    OneRunWorks(s, es, id, program, n, OperatorRuns(), KeepingApart(id.cr));
    HistoriesAreIsolated(id.cr, s, es);
    PlansFrom(id.cr, program, setup, backstage, password, order, ObjectsAt(s.objects, program.sources));
    var inp := BuildInputs(setup, backstage, password, order, ObjectsAt(s.objects, program.sources));
    PlanIsSendable(inp, setup.registry);
    LaunchedRunSettles(s, id, program, plan, n);
  }
}
