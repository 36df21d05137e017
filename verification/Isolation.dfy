/** When CRs are isolated from each other under every interleaving of their runs. */
module Isolation {
  import opened Convergence
  import opened Interleaving
  import opened Machine
  import opened Names
  import opened Programs
  import opened Resources
  import opened Wrappers

  /** The key is one of another CR's twelve. */
  ghost predicate Foreign(cr: Cr, key: Key) {
    exists other: Cr :: other != cr && Owns(other.namespace, other.name, key)
  }

  lemma OwnIsNotForeign(cr: Cr, key: Key)
    requires Owns(cr.namespace, cr.name, key)
    ensures !Foreign(cr, key)
  {
    if other: Cr :| other != cr && Owns(other.namespace, other.name, key) {
      OwnersAreUnique(cr.namespace, cr.name, other.namespace, other.name, key);
    }
  }

  /** The program reads nothing that belongs to another CR. */
  ghost predicate SelfContained(cr: Cr, program: Program) {
    forall key :: key in program.sources ==> !Foreign(cr, key)
  }

  ghost predicate OfCr(cr: Cr, e: Event) {
    match e
    case Launch(id, _) => id.cr == cr
    case Tick(id, _) => id.cr == cr
    case Write(key, _) => !Foreign(cr, key)
  }

  /** The history as it would be without the other CRs. */
  ghost function Own(cr: Cr, es: seq<Event>): seq<Event> {
    if es == [] then [] else
      Own(cr, es[..|es| - 1]) + if OfCr(cr, es[|es| - 1]) then [es[|es| - 1]] else []
  }

  ghost predicate AgreeOn(cr: Cr, a: Store, b: Store) {
    forall key :: !Foreign(cr, key) ==> SameAt(a, b, key)
  }

  /** The states differ at most in what belongs to other CRs: same objects, same runs down to what they have read. */
  ghost predicate Agree(cr: Cr, s: State, t: State) {
    && AgreeOn(cr, s.objects, t.objects)
    && (forall id: RunId :: id.cr == cr ==>
          (id in s.runs <==> id in t.runs) && (id in s.runs ==> s.runs[id] == t.runs[id]))
  }

  /** Programs write their own CR's keys only; the programs of this CR also read none of another's. */
  ghost function Separate(cr: Cr): (RunId, Program) -> bool {
    (id: RunId, program: Program) =>
      Yields(program, LawfulFor(id.cr)) && (id.cr == cr ==> SelfContained(cr, program))
  }

  lemma OwnCallIsVisible(cr: Cr, run: Run)
    requires !Over(run) && Yields(run.program, LawfulFor(cr)) && SelfContained(cr, run.program)
    ensures !Foreign(cr, CallOf(run).key)
  {
    if run.at.Working? {
      WorkIsLawful(cr, run);
      OwnIsNotForeign(cr, CallOf(run).key);
    } else {
      assert run.program.sources[|run.got|] in run.program.sources;
    }
  }

  lemma OwnServed(cr: Cr, call: Call, a: Store, b: Store, fault: Fault)
    requires !Foreign(cr, call.key) && AgreeOn(cr, a, b)
    ensures ServeUnder(call, a, fault).1 == ServeUnder(call, b, fault).1
    ensures AgreeOn(cr, ServeUnder(call, a, fault).0, ServeUnder(call, b, fault).0)
  {
    CallIsLocal(call, a, b, fault);
    CallIsLocal(call, b, a, fault);
  }

  lemma OwnTick(cr: Cr, s: State, t: State, id: RunId, fault: Fault)
    requires Agree(cr, s, t) && id.cr == cr && AllPrograms(s, [], Separate(cr))
    ensures Agree(cr, Happen(s, Tick(id, fault)), Happen(t, Tick(id, fault)))
  {
    if Alive(s, id) {
      assert Separate(cr)(id, s.runs[id].program);
      OwnCallIsVisible(cr, s.runs[id]);
      OwnServed(cr, CallOf(s.runs[id]), s.objects, t.objects, fault);
    }
  }

  lemma OwnStep(cr: Cr, s: State, t: State, e: Event)
    requires Agree(cr, s, t) && OfCr(cr, e) && AllPrograms(s, [], Separate(cr))
    ensures Agree(cr, Happen(s, e), Happen(t, e))
  {
    if e.Tick? {
      OwnTick(cr, s, t, e.id, e.fault);
    }
  }

  lemma ForeignServed(cr: Cr, run: Run, planner: Cr, a: Store, fault: Fault)
    requires !Over(run) && planner != cr && Yields(run.program, LawfulFor(planner))
    ensures AgreeOn(cr, ServeUnder(CallOf(run), a, fault).0, a)
  {
    CallIsLocal(CallOf(run), a, a, fault);
    if run.at.Working? {
      WorkIsLawful(planner, run);
      assert Foreign(cr, CallOf(run).key);
    }
  }

  lemma ForeignStep(cr: Cr, s: State, e: Event)
    requires !OfCr(cr, e) && AllPrograms(s, [], Separate(cr))
    ensures Agree(cr, Happen(s, e), s)
  {
    if e.Tick? && Alive(s, e.id) {
      assert Separate(cr)(e.id, s.runs[e.id].program);
      ForeignServed(cr, s.runs[e.id], e.id.cr, s.objects, e.fault);
    }
  }

  lemma AgreeChain(cr: Cr, s: State, t: State, u: State)
    requires Agree(cr, s, t) && Agree(cr, t, u)
    ensures Agree(cr, s, u)
  {
  }

  lemma {:induction false} InterleavedAsAlone(cr: Cr, s: State, es: seq<Event>)
    requires AllPrograms(s, es, Separate(cr))
    ensures Agree(cr, Play(s, es), Play(s, Own(cr, es)))
  {
    if es != [] {
      var init, e := es[..|es| - 1], es[|es| - 1];
      var own := Own(cr, init);
      FewerPrograms(s, es, Separate(cr));
      InterleavedAsAlone(cr, s, init);
      if OfCr(cr, e) {
        OwnStep(cr, Play(s, init), Play(s, own), e);
        PlayStep(s, own, e);
      } else {
        ForeignStep(cr, Play(s, init), e);
        assert own + [] == own;
        AgreeChain(cr, Play(s, es), Play(s, init), Play(s, own));
      }
    }
  }

  /** A run of the state that still makes calls in these events. */
  ghost predicate Works(s: State, es: seq<Event>, id: RunId) {
    id in s.runs && !Over(s.runs[id]) && exists e :: e in es && e.Tick? && e.id == id
  }

  /** All programs that have a part in these events satisfy this: those launched, and those of runs that still work. */
  ghost predicate WorkingPrograms(s: State, es: seq<Event>, p: (RunId, Program) -> bool) {
    && (forall id :: Works(s, es, id) ==> p(id, s.runs[id].program))
    && (forall e :: e in es && e.Launch? ==> p(e.id, e.program))
  }

  lemma WorkingProgramsImply(s: State, es: seq<Event>, p: (RunId, Program) -> bool, q: (RunId, Program) -> bool)
    requires WorkingPrograms(s, es, p) && forall id, program :: p(id, program) ==> q(id, program)
    ensures WorkingPrograms(s, es, q)
  {
  }

  function NoProgram(): Program { Program([], (got: seq<Resource>) => None) }

  function EndedRun(): Run { RunData(NoProgram(), [], Working(Finished(false))) }

  /** The state without the memory of what its idle runs were. */
  ghost function Quieted(s: State, es: seq<Event>): State {
    s.(runs := map id | id in s.runs :: if Works(s, es, id) then s.runs[id] else EndedRun())
  }

  lemma NoProgramIsSeparate(cr: Cr, id: RunId)
    ensures Separate(cr)(id, NoProgram())
  {
    var none := NoProgram();
    forall got ensures none.build(got).None? {
    }
    assert Yields(none, LawfulFor(id.cr));
    assert none.sources == [] && SelfContained(cr, none);
  }

  lemma QuietedPrograms(cr: Cr, s: State, es: seq<Event>)
    requires WorkingPrograms(s, es, Separate(cr))
    ensures AllPrograms(Quieted(s, es), es, Separate(cr))
  {
    forall id | id in s.runs ensures Separate(cr)(id, Quieted(s, es).runs[id].program) {
      NoProgramIsSeparate(cr, id);
    }
  }

  /** Two states that differ at most in the runs of s that are idle, and there are as they began. */
  ghost predicate Shadows(s: State, es: seq<Event>, now: State, quiet: State) {
    && now.objects == quiet.objects && now.runs.Keys == quiet.runs.Keys && s.runs.Keys <= now.runs.Keys
    && forall id :: id in now.runs ==>
         if id in s.runs && !Works(s, es, id) then now.runs[id] == s.runs[id] && quiet.runs[id] == EndedRun()
         else now.runs[id] == quiet.runs[id]
  }

  lemma ShadowTick(s: State, es: seq<Event>, now: State, quiet: State, id: RunId, fault: Fault)
    requires Shadows(s, es, now, quiet) && Tick(id, fault) in es
    ensures Shadows(s, es, Happen(now, Tick(id, fault)), Happen(quiet, Tick(id, fault)))
  {
    if id in s.runs && !Works(s, es, id) {
      assert Over(s.runs[id]) && Over(EndedRun());
    }
  }

  lemma ShadowStep(s: State, es: seq<Event>, now: State, quiet: State, e: Event)
    requires Shadows(s, es, now, quiet) && e in es
    ensures Shadows(s, es, Happen(now, e), Happen(quiet, e))
  {
    if e.Tick? {
      ShadowTick(s, es, now, quiet, e.id, e.fault);
    }
  }

  lemma {:induction false} ShadowPlay(s: State, es: seq<Event>, some: seq<Event>)
    requires forall e :: e in some ==> e in es
    ensures Shadows(s, es, Play(s, some), Play(Quieted(s, es), some))
  {
    if some != [] {
      ShadowPlay(s, es, some[..|some| - 1]);
      ShadowStep(s, es, Play(s, some[..|some| - 1]), Play(Quieted(s, es), some[..|some| - 1]), some[|some| - 1]);
    }
  }

  lemma {:induction false} OwnAreSome(cr: Cr, es: seq<Event>)
    ensures forall e :: e in Own(cr, es) <==> e in es && OfCr(cr, e)
  {
    if es != [] {
      OwnAreSome(cr, es[..|es| - 1]);
      assert es == es[..|es| - 1] + [es[|es| - 1]];
    }
  }

  lemma AgreeByShadows(cr: Cr, s: State, es: seq<Event>, a: State, b: State, qa: State, qb: State)
    requires Shadows(s, es, a, qa) && Shadows(s, es, b, qb) && Agree(cr, qa, qb)
    ensures Agree(cr, a, b)
  {
  }

  /**
   Whatever runs for other CRs do in between, in any interleaving and under any faults, everything that does not belong
   to them is exactly as it would be had they not existed: the CR's objects, and the progress of its runs from their
   first read on.
   */
  lemma OthersDoNotInterfere(cr: Cr, s: State, es: seq<Event>)
    requires WorkingPrograms(s, es, Separate(cr))
    ensures Agree(cr, Play(s, es), Play(s, Own(cr, es)))
  {
    var quiet := Quieted(s, es);
    QuietedPrograms(cr, s, es);
    InterleavedAsAlone(cr, quiet, es);
    OwnAreSome(cr, es);
    ShadowPlay(s, es, es);
    ShadowPlay(s, es, Own(cr, es));
    AgreeByShadows(cr, s, es, Play(s, es), Play(s, Own(cr, es)), Play(quiet, es), Play(quiet, Own(cr, es)));
  }

  /** n calls of one run, none of which fails. */
  function Calls(id: RunId, n: nat): seq<Event> {
    seq(n, i requires 0 <= i < n => Tick(id, Healthy))
  }

  lemma CallsStep(s: State, es: seq<Event>, id: RunId, n: nat)
    ensures Play(s, es + Calls(id, n + 1)) == Happen(Play(s, es + Calls(id, n)), Tick(id, Healthy))
    ensures Play(s, es + Calls(id, 0)) == Play(s, es)
  {
    OneMoreCall(es, id, n);
    assert es + Calls(id, 0) == es;
    PlayStep(s, es + Calls(id, n), Tick(id, Healthy));
  }

  lemma OneMoreCall(es: seq<Event>, id: RunId, n: nat)
    ensures es + Calls(id, n + 1) == es + Calls(id, n) + [Tick(id, Healthy)]
  {
    assert Calls(id, n + 1) == Calls(id, n) + [Tick(id, Healthy)];
  }

  lemma {:induction false} OwnOfBoth(cr: Cr, a: seq<Event>, b: seq<Event>)
    ensures Own(cr, a + b) == Own(cr, a) + Own(cr, b)
  {
    if b == [] {
      assert a + b == a;
    } else {
      OwnOfBoth(cr, a, b[..|b| - 1]);
      assert (a + b)[..|a + b| - 1] == a + b[..|b| - 1];
    }
  }

  lemma {:induction false} AllOrNoneOwn(cr: Cr, es: seq<Event>)
    ensures (forall e :: e in es ==> OfCr(cr, e)) ==> Own(cr, es) == es
    ensures (forall e :: e in es ==> !OfCr(cr, e)) ==> Own(cr, es) == []
  {
    if es != [] {
      AllOrNoneOwn(cr, es[..|es| - 1]);
      assert es == es[..|es| - 1] + [es[|es| - 1]];
    }
  }

  lemma ReadTick(t: State, id: RunId, program: Program, got: seq<Resource>)
    requires id in t.runs && t.runs[id] == Opened(program, got) && |got| < |program.sources|
    ensures var u := Happen(t, Tick(id, Healthy));
            && u.objects == t.objects && id in u.runs
            && (program.sources[|got|] in t.objects ==>
                  u.runs[id] == Opened(program, got + [t.objects[program.sources[|got|]]]))
            && (program.sources[|got|] !in t.objects ==> u.runs[id].got == got)
  {
  }

  /** Calls that read what is there: nothing is written, and after k of them the first k sources are read. */
  lemma {:induction false} ReadingCalls(s: State, es: seq<Event>, id: RunId, program: Program, k: nat)
    requires k <= |program.sources| && AllThere(Play(s, es).objects, program.sources[..k])
    requires id in Play(s, es).runs && Play(s, es).runs[id] == Launched(program)
    ensures var t := Play(s, es + Calls(id, k));
            && t.objects == Play(s, es).objects
            && id in t.runs && t.runs[id] == Opened(program, ObjectsAt(Play(s, es).objects, program.sources[..k]))
  {
    var objects := Play(s, es).objects;
    if k == 0 {
      CallsStep(s, es, id, 0);
      assert ObjectsAt(objects, program.sources[..0]) == [];
    } else {
      OneMoreThere(objects, program.sources, k - 1);
      ReadingCalls(s, es, id, program, k - 1);
      CallsStep(s, es, id, k - 1);
      ReadTick(Play(s, es + Calls(id, k - 1)), id, program, ObjectsAt(objects, program.sources[..k - 1]));
    }
  }

  lemma FirstForeign(cr: Cr, keys: seq<Key>, some: Key) returns (k: nat)
    requires some in keys && Foreign(cr, some)
    ensures k < |keys| && Foreign(cr, keys[k]) && forall j :: 0 <= j < k ==> !Foreign(cr, keys[j])
  {
    if Foreign(cr, keys[0]) {
      k := 0;
    } else {
      assert keys == [keys[0]] + keys[1..];
      k := FirstForeign(cr, keys[1..], some);
      k := k + 1;
    }
  }

  /** The events of one run of the program, alone, up to and including its read number k. */
  function Reads(id: RunId, program: Program, k: nat): seq<Event> { [Launch(id, program)] + Calls(id, k + 1) }

  lemma LaunchIn(s: State, es: seq<Event>, id: RunId, program: Program)
    requires id !in Play(s, es).runs
    ensures var t := Play(s, es + [Launch(id, program)]);
            t.objects == Play(s, es).objects && id in t.runs && t.runs[id] == Launched(program)
  {
    PlayStep(s, es, Launch(id, program));
  }

  /** A run that nobody launches does not appear. */
  lemma {:induction false} NotLaunched(s: State, es: seq<Event>, id: RunId)
    requires id !in s.runs && forall e :: e in es && e.Launch? ==> e.id != id
    ensures id !in Play(s, es).runs
  {
    if es != [] {
      NotLaunched(s, es[..|es| - 1], id);
      assert es[|es| - 1] in es;
    }
  }

  /** A source that is missing is not read. */
  lemma MissingRead(s: State, es: seq<Event>, id: RunId, program: Program, k: nat)
    requires k < |program.sources| && id !in Play(s, es).runs
    requires AllThere(Play(s, es).objects, program.sources[..k]) && program.sources[k] !in Play(s, es).objects
    ensures var t := Play(s, es + Reads(id, program, k)); id in t.runs && |t.runs[id].got| == k
  {
    var launched := es + [Launch(id, program)];
    LaunchIn(s, es, id, program);
    ReadingCalls(s, launched, id, program, k);
    CallsStep(s, launched, id, k);
    ReadTick(Play(s, launched + Calls(id, k)), id, program, ObjectsAt(Play(s, es).objects, program.sources[..k]));
    assert es + Reads(id, program, k) == launched + Calls(id, k + 1);
  }

  /** A source that is there is read. */
  lemma PresentRead(s: State, es: seq<Event>, id: RunId, program: Program, k: nat)
    requires k < |program.sources| && id !in Play(s, es).runs
    requires AllThere(Play(s, es).objects, program.sources[..k + 1])
    ensures var t := Play(s, es + Reads(id, program, k)); id in t.runs && |t.runs[id].got| == k + 1
  {
    var launched := es + [Launch(id, program)];
    LaunchIn(s, es, id, program);
    ReadingCalls(s, launched, id, program, k + 1);
    assert es + Reads(id, program, k) == launched + Calls(id, k + 1);
  }

  /** A cluster that holds the first k sources of a program and nothing else. */
  function Partly(program: Program, k: nat): State
    requires k <= |program.sources|
  {
    State(map key | key in program.sources[..k] :: EMPTY, map[])
  }

  lemma PartlyThere(program: Program, k: nat)
    requires k < |program.sources|
    requires forall j :: 0 <= j < k ==> program.sources[j] != program.sources[k]
    ensures var t := Partly(program, k);
            AllThere(t.objects, program.sources[..k]) && program.sources[k] !in t.objects
  {
    forall j | 0 <= j < k ensures program.sources[..k][j] in Partly(program, k).objects {
      assert program.sources[..k][j] in program.sources[..k];
    }
  }

  lemma NotOwned(cr: Cr, other: Cr, key: Key)
    requires !Foreign(cr, key) && other != cr
    ensures !Owns(other.namespace, other.name, key)
  {
  }

  lemma StillThere(cr: Cr, other: Cr, program: Program, k: nat, after: Store)
    requires k < |program.sources| && other != cr && program.sources[k] in after
    requires forall j :: 0 <= j < k ==> !Foreign(cr, program.sources[j])
    requires forall key :: key in program.sources[..k] && !Owns(other.namespace, other.name, key) ==> key in after
    ensures AllThere(after, program.sources[..k + 1])
  {
    var keys := program.sources[..k + 1];
    forall j | 0 <= j < k + 1 ensures keys[j] in after {
      if j < k {
        NotOwned(cr, other, program.sources[j]);
        assert program.sources[..k][j] in program.sources[..k];
      }
    }
  }

  /** One run alone, with n calls after its reads. */
  function WholeRun(id: RunId, program: Program, n: nat): seq<Event> {
    [Launch(id, program)] + Calls(id, |program.sources|) + Calls(id, n)
  }

  lemma EventsOfRun(id: RunId, program: Program, n: nat, k: nat)
    ensures forall e :: e in WholeRun(id, program, n) || e in Reads(id, program, k) ==>
              e == Launch(id, program) || e == Tick(id, Healthy)
  {
  }

  /** A history of nothing but two runs. */
  lemma TwoRuns(a: RunId, p: Program, n: nat, b: RunId, q: Program, k: nat, legal: (RunId, Program) -> bool)
    requires legal(a, p) && legal(b, q) && k < |q.sources|
    ensures var es := WholeRun(a, p, n) + Reads(b, q, k);
            WorkingPrograms(Partly(q, k), es, legal) && forall e :: e in es ==> !e.Write?
  {
    EventsOfRun(a, p, n, 0);
    EventsOfRun(b, q, 0, k);
  }

  lemma OwnReadsAfter(cr: Cr, before: seq<Event>, other: RunId, program: Program, k: nat)
    requires other.cr != cr && forall e :: e in before ==> !e.Write? && e.id == other
    ensures Own(cr, before + Reads(RunId(cr, 0), program, k)) == Reads(RunId(cr, 0), program, k)
  {
    var run := Reads(RunId(cr, 0), program, k);
    OwnOfBoth(cr, before, run);
    AllOrNoneOwn(cr, before);
    AllOrNoneOwn(cr, run);
    assert [] + run == run;
  }

  /** The run of another CR comes first, then this CR reads. */
  lemma RunThenReads(cr: Cr, program: Program, k: nat, before: seq<Event>, other: RunId)
    requires k < |program.sources| && forall j :: 0 <= j < k ==> program.sources[j] != program.sources[k]
    requires other.cr != cr && forall e :: e in before ==> !e.Write? && e.id == other
    requires AllThere(Play(Partly(program, k), before).objects, program.sources[..k + 1])
    ensures var s, es := Partly(program, k), before + Reads(RunId(cr, 0), program, k);
            !Agree(cr, Play(s, es), Play(s, Own(cr, es)))
  {
    var s, id := Partly(program, k), RunId(cr, 0);
    NotLaunched(s, before, id);
    PresentRead(s, before, id, program, k);
    PartlyThere(program, k);
    MissingRead(s, [], id, program, k);
    assert [] + Reads(id, program, k) == Reads(id, program, k);
    OwnReadsAfter(cr, before, other, program, k);
  }

  /** What another CR's run leaves is what this CR's run reads: a history in which they do not agree. */
  lemma ReadsWhatARunLeaves(cr: Cr, program: Program, k: nat, id: RunId, other: Program, n: nat,
                            legal: (RunId, Program) -> bool) returns (s: State, es: seq<Event>)
    requires k < |program.sources| && forall j :: 0 <= j < k ==> program.sources[j] != program.sources[k]
    requires id.cr != cr && legal(id, other) && legal(RunId(cr, 0), program)
    requires AllThere(Play(Partly(program, k), WholeRun(id, other, n)).objects, program.sources[..k + 1])
    ensures WorkingPrograms(s, es, legal) && forall e :: e in es ==> !e.Write?
    ensures !Agree(cr, Play(s, es), Play(s, Own(cr, es)))
  {
    s, es := Partly(program, k), WholeRun(id, other, n) + Reads(RunId(cr, 0), program, k);
    EventsOfRun(id, other, n, 0);
    RunThenReads(cr, program, k, WholeRun(id, other, n), id);
    TwoRuns(id, other, n, RunId(cr, 0), program, k, legal);
  }

  /** When one new run is all that its CR does, the programs of earlier runs of that CR have no part in the history. */
  lemma OneRunWorks(s: State, es: seq<Event>, id: RunId, program: Program, n: nat, p: (RunId, Program) -> bool,
                    q: (RunId, Program) -> bool)
    requires WorkingPrograms(s, es, p) && id !in s.runs && q(id, program)
    requires forall other, r :: p(other, r) && other.cr != id.cr ==> q(other, r)
    requires Own(id.cr, es) == WholeRun(id, program, n)
    ensures WorkingPrograms(s, es, q)
  {
    OwnAreSome(id.cr, es);
    EventsOfRun(id, program, n, 0);
    forall other | Works(s, es, other) ensures q(other, s.runs[other].program) {
      var e :| e in es && e.Tick? && e.id == other;
      assert !OfCr(id.cr, e);
    }
    forall e | e in es && e.Launch? ensures q(e.id, e.program) {
      assert OfCr(id.cr, e) ==> e in Own(id.cr, es);
    }
  }
}
