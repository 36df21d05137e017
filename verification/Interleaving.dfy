/**
 Many runs at once: any number of runs for any CRs, one API call at a time in any order, with faults, runs that stop
 anywhere, and other writers in between. A run begins with the reads of its preprocessing.
 */
module Interleaving {
  import opened Convergence
  import opened Machine
  import opened Names
  import opened Programs
  import opened Resources
  import opened Wrappers

  datatype RunId = RunId(cr: Cr, number: nat)

  datatype State = State(objects: Store, runs: map<RunId, Run>)

  datatype Event =
    | Launch(id: RunId, program: Program)
    | Tick(id: RunId, fault: Fault)                       // the run makes its next call
    | Write(key: Key, resource: Option<Resource>)         // somebody else changes or deletes an object

  /** One call of a run. */
  function Called(run: Run, objects: Store, fault: Fault): (Store, Run)
    requires !Over(run)
  {
    var (after, reply) := ServeUnder(CallOf(run), objects, fault);
    (after, Replied(run, reply))
  }

  /** The run can make its next call. */
  predicate Alive(s: State, id: RunId) { id in s.runs && !Over(s.runs[id]) }

  /** A run that never ticks again has stopped. */
  function Happen(s: State, e: Event): State {
    match e
    case Launch(id, program) =>
      if id in s.runs then s else s.(runs := s.runs[id := Launched(program)])
    case Tick(id, fault) =>
      if !Alive(s, id) then s else
        var (after, run) := Called(s.runs[id], s.objects, fault);
        State(after, s.runs[id := run])
    case Write(key, r) =>
      s.(objects := if r.Some? then s.objects[key := r.value] else s.objects - {key})
  }

  function Play(s: State, es: seq<Event>): State {
    if es == [] then s else Happen(Play(s, es[..|es| - 1]), es[|es| - 1])
  }

  lemma PlayStep(s: State, es: seq<Event>, e: Event)
    ensures Play(s, es + [e]) == Happen(Play(s, es), e)
  {
    assert (es + [e])[..|es + [e]| - 1] == es;
  }

  /** A plan for a CR names only keys of that CR. */
  ghost predicate Lawful(cr: Cr, plan: Plan) {
    && (forall item :: item in plan.items ==> Owns(cr.namespace, cr.name, item.key))
    && (forall key :: key in plan.deletions ==> Owns(cr.namespace, cr.name, key))
  }

  /** All programs, running and to be launched, satisfy this. */
  ghost predicate AllPrograms(s: State, es: seq<Event>, p: (RunId, Program) -> bool) {
    && (forall id :: id in s.runs ==> p(id, s.runs[id].program))
    && (forall e :: e in es && e.Launch? ==> p(e.id, e.program))
  }

  lemma HappenKeepsPrograms(s: State, e: Event, p: (RunId, Program) -> bool)
    requires AllPrograms(s, [e], p)
    ensures AllPrograms(Happen(s, e), [], p)
  {
    assert e in [e];
  }

  lemma {:induction false} PlayKeepsPrograms(s: State, es: seq<Event>, p: (RunId, Program) -> bool)
    requires AllPrograms(s, es, p)
    ensures AllPrograms(Play(s, es), [], p)
  {
    if es != [] {
      PlayKeepsPrograms(s, es[..|es| - 1], p);
      assert es[|es| - 1] in es;
      HappenKeepsPrograms(Play(s, es[..|es| - 1]), es[|es| - 1], p);
    }
  }

  lemma FewerPrograms(s: State, es: seq<Event>, p: (RunId, Program) -> bool)
    requires AllPrograms(s, es, p) && es != []
    ensures AllPrograms(s, es[..|es| - 1], p) && AllPrograms(Play(s, es[..|es| - 1]), [], p)
  {
    PlayKeepsPrograms(s, es[..|es| - 1], p);
  }

  lemma ProgramsImply(s: State, es: seq<Event>, p: (RunId, Program) -> bool, q: (RunId, Program) -> bool)
    requires AllPrograms(s, es, p) && forall id, program :: p(id, program) ==> q(id, program)
    ensures AllPrograms(s, es, q)
  {
  }

  /** Every plan that the program can come to satisfies this. */
  ghost predicate Yields(program: Program, p: Plan -> bool) {
    forall got :: program.build(got).Some? ==> p(program.build(got).value)
  }

  ghost function LawfulFor(cr: Cr): Plan -> bool { (plan: Plan) => Lawful(cr, plan) }

  /** What a working run calls next is an item or a deletion of its plan. */
  lemma KeyIsPlanned(plan: Plan, pc: Pc)
    requires ValidPc(plan, pc) && !pc.Finished?
    ensures NextCall(plan, pc).key in plan.deletions
            || exists item :: item in plan.items && item.key == NextCall(plan, pc).key
  {
    if !pc.Cleaning? {
      assert plan.items[pc.i] in plan.items;
    }
  }

  lemma WorkIsLawful(cr: Cr, run: Run)
    requires !Over(run) && run.at.Working? && Yields(run.program, LawfulFor(cr))
    ensures Owns(cr.namespace, cr.name, CallOf(run).key)
  {
    var plan := run.program.build(run.got);
    assert plan.Some?;
    assert LawfulFor(cr)(plan.value);
    KeyIsPlanned(PlanOfRun(run), run.at.pc);
  }

  /** A call touches its own key only, and what it does there depends on nothing else. */
  lemma CallIsLocal(call: Call, a: Store, b: Store, fault: Fault)
    ensures forall key :: key != call.key ==> SameAt(ServeUnder(call, a, fault).0, a, key)
    ensures SameAt(a, b, call.key) ==>
              && ServeUnder(call, a, fault).1 == ServeUnder(call, b, fault).1
              && SameAt(ServeUnder(call, a, fault).0, ServeUnder(call, b, fault).0, call.key)
  {
  }
}
