/** Between which CRs the operator's own runs interfere. */
module Interference {
  import opened BackstageApi
  import opened Builder
  import opened Histories
  import opened Interleaving
  import opened Isolation
  import opened Machine
  import opened Names
  import opened Objects
  import opened Plans
  import opened Pods
  import opened Preprocessing
  import opened Programs
  import opened Reconciling
  import opened Repetition
  import opened Samples
  import opened Wrappers

  /** Runs of the operator, those of this CR all for one program. */
  ghost function Following(cr: Cr, program: Program): (RunId, Program) -> bool {
    (id: RunId, p: Program) => OperatorRuns()(id, p) && (id.cr == cr ==> p == program)
  }

  /** A history in which nobody but the operator is at work. */
  ghost predicate OperatorHistory(cr: Cr, program: Program, s: State, es: seq<Event>) {
    WorkingPrograms(s, es, Following(cr, program)) && forall e :: e in es ==> !e.Write?
  }

  /** Whatever the operator does for other CRs, this CR's objects and runs are as they would be without it. */
  ghost predicate Isolated(cr: Cr, program: Program) {
    forall s, es :: OperatorHistory(cr, program, s, es) ==> Agree(cr, Play(s, es), Play(s, Own(cr, es)))
  }

  /** A CR of this name, for which the operator is set up to generate a ConfigMap of this kind. */
  function SampleSetup(kind: Kind, registry: seq<Kind>): Setup {
    Setup("", SampleOperator(map[], Some((kind, None))), registry)
  }

  function SampleCr(cr: Cr): Backstage { Backstage(cr.namespace, cr.name, SampleSpec(None), []) }

  ghost function SampleProgram(cr: Cr, kind: Kind, registry: seq<Kind>, order: Order): Program {
    ProgramOf(SampleSetup(kind, registry), SampleCr(cr), "", order)
  }

  lemma SampleReadsNothing(cr: Cr)
    ensures ReadKeys(cr.namespace, SampleCr(cr).spec) == []
  {
  }

  function SampleInputs(cr: Cr, kind: Kind, registry: seq<Kind>, order: Order): Inputs {
    SampleReadsNothing(cr);
    BuildInputs(SampleSetup(kind, registry), SampleCr(cr), "", order, [])
  }

  /** Such a run plans to apply that ConfigMap, and nothing that is not its CR's. */
  lemma SamplePlans(cr: Cr, kind: Kind, registry: seq<Kind>, order: Order)
    requires ApiKindOf(kind) == ConfigMaps && IsRegistry(registry) && ValidOrder(order)
    ensures var program, inp := SampleProgram(cr, kind, registry, order), SampleInputs(cr, kind, registry, order);
            && Operates(cr, program, SampleSetup(kind, registry), SampleCr(cr), "", order)
            && program.sources == [] && Usable(inp) && Ready(inp) && IsPlaced(inp, kind)
            && program.build([]) == Some(PlanOf(inp, registry))
  {
    SampleReadsNothing(cr);
    var inp := SampleInputs(cr, kind, registry, order);
    SampleSucceeds(inp, map[], Some((kind, None)));
    SampleGiven(inp, map[], Some((kind, None)), kind);
  }

  /** It leaves the ConfigMap, and what was there of others. */
  lemma SampleRunLeaves(s: State, id: RunId, kind: Kind, registry: seq<Kind>, order: Order) returns (n: nat)
    requires ApiKindOf(kind) == ConfigMaps && IsRegistry(registry) && ValidOrder(order) && id !in s.runs
    ensures var after := Play(s, WholeRun(id, SampleProgram(id.cr, kind, registry, order), n)).objects;
            && KeyOf(kind, id.cr.namespace, id.cr.name) in after
            && forall key :: key in s.objects && !Owns(id.cr.namespace, id.cr.name, key) ==> key in after
  {
    var program, inp := SampleProgram(id.cr, kind, registry, order), SampleInputs(id.cr, kind, registry, order);
    SamplePlans(id.cr, kind, registry, order);
    var plan := PlanOf(inp, registry);
    n := 2 * |plan.items| + |plan.deletions|;
    PlanIsSendable(inp, registry);
    assert ObjectsAt(s.objects, program.sources) == [];
    LaunchedRunSettles(s, id, program, plan, n);
    AppliedExists(inp, registry, s.objects, kind);
    forall key | key in s.objects && !Owns(id.cr.namespace, id.cr.name, key) ensures key in Settle(plan, s.objects) {
      ForeignKeysStay(inp, registry, s.objects, key);
    }
  }

  /** Afterwards a CR that reads that ConfigMap finds it, and what it reads before. */
  lemma SampleLeavesSources(cr: Cr, program: Program, id: RunId, kind: Kind, k: nat, registry: seq<Kind>, order: Order)
    returns (n: nat)
    requires ApiKindOf(kind) == ConfigMaps && IsRegistry(registry) && ValidOrder(order) && id.cr != cr
    requires k < |program.sources| && program.sources[k] == KeyOf(kind, id.cr.namespace, id.cr.name)
    requires forall j :: 0 <= j < k ==> !Foreign(cr, program.sources[j]) && program.sources[j] != program.sources[k]
    ensures var sample := SampleProgram(id.cr, kind, registry, order);
            AllThere(Play(Partly(program, k), WholeRun(id, sample, n)).objects, program.sources[..k + 1])
  {
    PartlyThere(program, k);
    n := SampleRunLeaves(Partly(program, k), id, kind, registry, order);
    var sample := SampleProgram(id.cr, kind, registry, order);
    StillThere(cr, id.cr, program, k, Play(Partly(program, k), WholeRun(id, sample, n)).objects);
  }

  lemma SampleIsFollowing(cr: Cr, program: Program, id: RunId, kind: Kind, registry: seq<Kind>, order: Order)
    requires ApiKindOf(kind) == ConfigMaps && IsRegistry(registry) && ValidOrder(order) && id.cr != cr
    ensures Following(cr, program)(id, SampleProgram(id.cr, kind, registry, order))
  {
    SamplePlans(id.cr, kind, registry, order);
    IsOperators(id, SampleProgram(id.cr, kind, registry, order), SampleSetup(kind, registry), SampleCr(id.cr), "",
                order);
  }

  lemma NotIsolated(cr: Cr, program: Program, s: State, es: seq<Event>)
    requires OperatorHistory(cr, program, s, es) && !Agree(cr, Play(s, es), Play(s, Own(cr, es)))
    ensures !Isolated(cr, program)
  {
  }

  /** A CR that reads a ConfigMap of another CR: a run of the operator for that other CR is what it depends on. */
  lemma ForeignReadInterferes(cr: Cr, program: Program, id: RunId, kind: Kind, k: nat, registry: seq<Kind>,
                              order: Order)
    requires OperatorRuns()(RunId(cr, 0), program) && IsRegistry(registry) && ValidOrder(order) && id.cr != cr
    requires k < |program.sources| && program.sources[k] == KeyOf(kind, id.cr.namespace, id.cr.name)
    requires ApiKindOf(kind) == ConfigMaps
    requires forall j :: 0 <= j < k ==> !Foreign(cr, program.sources[j])
    ensures !Isolated(cr, program)
  {
    OwnedIsForeign(cr, id.cr, kind);
    SampleIsFollowing(cr, program, id, kind, registry, order);
    var n := SampleLeavesSources(cr, program, id, kind, k, registry, order);
    var s, es := ReadsWhatARunLeaves(cr, program, k, id, SampleProgram(id.cr, kind, registry, order), n,
                                     Following(cr, program));
    NotIsolated(cr, program, s, es);
  }

  lemma OwnedIsForeign(cr: Cr, other: Cr, kind: Kind)
    requires other != cr
    ensures Foreign(cr, KeyOf(kind, other.namespace, other.name))
  {
    assert Owns(other.namespace, other.name, KeyOf(kind, other.namespace, other.name));
  }

  lemma SourceIsConfigMap(backstage: Backstage, k: nat)
    requires k < |ReadKeys(backstage.namespace, backstage.spec)|
    ensures ReadKeys(backstage.namespace, backstage.spec)[k].api == ConfigMaps
  {
  }

  lemma ApartIsIsolated(cr: Cr, program: Program, setup: Setup, backstage: Backstage, password: string, order: Order)
    requires Operates(cr, program, setup, backstage, password, order) && NamesNoOthers(backstage)
    ensures Isolated(cr, program)
  {
    forall id, p | Following(cr, program)(id, p) ensures KeepingApart(cr)(id, p) {
      if id.cr == cr {
        KeepsApart(cr, id, program, setup, backstage, password, order);
      } else {
        OthersKeepApart(cr, id, p);
      }
    }
    forall s, es | OperatorHistory(cr, program, s, es) ensures Agree(cr, Play(s, es), Play(s, Own(cr, es))) {
      WorkingProgramsImply(s, es, Following(cr, program), KeepingApart(cr));
      HistoriesAreIsolated(cr, s, es);
    }
  }

  /**
   The runs of a CR, from their first read on, are isolated from all that the operator does for other CRs, under every
   interleaving, exactly when the CR names no ConfigMap that the operator generates for another.
   */
  lemma CrsAreIsolated(cr: Cr, program: Program, setup: Setup, backstage: Backstage, password: string, order: Order)
    requires Operates(cr, program, setup, backstage, password, order)
    ensures Isolated(cr, program) <==> NamesNoOthers(backstage)
  {
    SelfContainedExactly(cr, program, setup, backstage, password, order);
    if NamesNoOthers(backstage) {
      ApartIsIsolated(cr, program, setup, backstage, password, order);
    } else {
      var key :| key in program.sources && Foreign(cr, key);
      var k := FirstForeign(cr, program.sources, key);
      var other: Cr :| other != cr && Owns(other.namespace, other.name, program.sources[k]);
      var kind :| program.sources[k] == KeyOf(kind, other.namespace, other.name);
      SourceIsConfigMap(backstage, k);
      IsOperators(RunId(cr, 0), program, setup, backstage, password, order);
      ForeignReadInterferes(cr, program, RunId(other, 0), kind, k, setup.registry, order);
    }
  }

  lemma AppConfigOfB(cr: Cr)
    requires cr.name == "a"
    ensures NamesAnothers(cr, "b-backstage-appconfig")
  {
    assert RuntimeName(AppConfigKind, "b") == "b-backstage-appconfig";
    assert ApiKindOf(AppConfigKind) == ConfigMaps;
  }

  /** An input on which isolation fails: the CR "a" lists "b-backstage-appconfig". */
  lemma NamingAnotherInterferes(cr: Cr, program: Program, setup: Setup, backstage: Backstage, password: string,
                                order: Order)
    requires Operates(cr, program, setup, backstage, password, order)
    requires cr.name == "a" && "b-backstage-appconfig" in ReadNames(backstage.spec)
    ensures !Isolated(cr, program)
  {
    AppConfigOfB(cr);
    CrsAreIsolated(cr, program, setup, backstage, password, order);
  }
}
