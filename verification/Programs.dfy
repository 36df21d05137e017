/**
 A whole run as a machine: it reads some objects one call at a time, plans from what it has read, and then works
 through its plan. What it will read is fixed when it starts.
 */
module Programs {
  import opened Machine
  import opened Names
  import opened Resources
  import opened Wrappers

  /** build plans from the objects read, in the order of sources; None when the run gives up. */
  datatype Program = Program(sources: seq<Key>, build: seq<Resource> -> Option<Plan>)

  datatype Position = Reading | Working(pc: Pc)

  datatype RunData = RunData(program: Program, got: seq<Resource>, at: Position)

  const NO_PLAN := Plan([], [])

  function PlanFrom(program: Program, got: seq<Resource>): Plan {
    var plan := program.build(got);
    if plan.Some? then plan.value else NO_PLAN
  }

  predicate ValidRun(r: RunData) {
    match r.at
    case Reading => |r.got| < |r.program.sources|
    case Working(pc) => ValidPc(PlanFrom(r.program, r.got), pc)
  }

  type Run = r: RunData | ValidRun(r)
    witness RunData(Program([], (got: seq<Resource>) => None), [], Working(Finished(true)))

  /** The run after it has read got. */
  function Opened(program: Program, got: seq<Resource>): Run {
    if |got| < |program.sources| then RunData(program, got, Reading)
    else if program.build(got).None? then RunData(program, got, Working(Finished(false)))
    else RunData(program, got, Working(Start(program.build(got).value)))
  }

  function Launched(program: Program): Run { Opened(program, []) }

  function PlanOfRun(run: Run): Plan { PlanFrom(run.program, run.got) }

  predicate Over(run: Run) { run.at.Working? && run.at.pc.Finished? }

  predicate Succeeded(run: Run) { run.at == Working(Finished(true)) }

  function CallOf(run: Run): Call
    requires !Over(run)
  {
    match run.at
    case Reading => GetObject(run.program.sources[|run.got|])
    case Working(pc) => NextCall(PlanOfRun(run), pc)
  }

  /** Any error while reading ends the run. */
  function Replied(run: Run, reply: Reply): Run
    requires !Over(run)
  {
    match run.at
    case Reading =>
      if reply.Found? then Opened(run.program, run.got + [reply.resource])
      else RunData(run.program, run.got, Working(Finished(false)))
    case Working(pc) => RunData(run.program, run.got, Working(Advance(PlanOfRun(run), pc, reply)))
  }

  function ReadsLeft(run: Run): nat {
    if run.at.Reading? then |run.program.sources| - |run.got| else 0
  }

  function CallsLeft(run: Run): nat {
    if run.at.Reading? then 0 else Remaining(PlanOfRun(run), run.at.pc)
  }

  lemma RunsEnd(run: Run, reply: Reply)
    requires !Over(run)
    ensures ReadsLeft(Replied(run, reply)) < ReadsLeft(run)
            || (ReadsLeft(Replied(run, reply)) == ReadsLeft(run) && CallsLeft(Replied(run, reply)) < CallsLeft(run))
  {
    if run.at.Working? {
      StepsRunOut(PlanOfRun(run), run.at.pc, reply);
    }
  }

  /** A run to its end with nobody else at work; n calls were made before. */
  function ExecRun(run: Run, objects: Store, faults: Faults, n: nat): Outcome
    decreases ReadsLeft(run), CallsLeft(run)
  {
    if Over(run) then Outcome(objects, run.at.pc.ok, n) else
      var (after, reply) := ServeUnder(CallOf(run), objects, faults(n));
      RunsEnd(run, reply);
      ExecRun(Replied(run, reply), after, faults, n + 1)
  }

  datatype ReadingResult = Read(got: seq<Resource>, ok: bool, calls: nat)

  /** One more read, unless one has failed. */
  function ReadOne(r: ReadingResult, objects: Store, key: Key, faults: Faults): ReadingResult {
    if !r.ok then r
    else if faults(r.calls) == Healthy && key in objects then Read(r.got + [objects[key]], true, r.calls + 1)
    else Read(r.got, false, r.calls + 1)
  }

  /** Reading these objects one after the other, up to the first error. */
  function ReadAll(objects: Store, keys: seq<Key>, faults: Faults, n: nat): (r: ReadingResult)
    ensures r.calls >= n && (r.ok ==> |r.got| == |keys|)
  {
    if keys == [] then Read([], true, n)
    else ReadOne(ReadAll(objects, keys[..|keys| - 1], faults, n), objects, keys[|keys| - 1], faults)
  }

  lemma ReadStep(objects: Store, keys: seq<Key>, key: Key, faults: Faults, n: nat)
    ensures ReadAll(objects, keys + [key], faults, n)
         == ReadOne(ReadAll(objects, keys, faults, n), objects, key, faults)
  {
    assert (keys + [key])[..|keys|] == keys;
  }

  /** After the first error nothing more is read. */
  lemma {:induction false} FailureEnds(objects: Store, keys: seq<Key>, more: seq<Key>, faults: Faults, n: nat)
    requires !ReadAll(objects, keys, faults, n).ok
    ensures ReadAll(objects, keys + more, faults, n) == ReadAll(objects, keys, faults, n)
  {
    if more == [] {
      assert keys + more == keys;
    } else {
      var init, last := more[..|more| - 1], more[|more| - 1];
      FailureEnds(objects, keys, init, faults, n);
      ReadStep(objects, keys + init, last, faults, n);
      assert keys + more == keys + init + [last];
    }
  }

  ghost predicate Calm(faults: Faults, n: nat, m: nat) {
    forall k :: n <= k < m ==> faults(k) == Healthy
  }

  ghost predicate AllThere(objects: Store, keys: seq<Key>) {
    forall k :: 0 <= k < |keys| ==> keys[k] in objects
  }

  ghost function ObjectsAt(objects: Store, keys: seq<Key>): seq<Resource>
    requires AllThere(objects, keys)
  {
    seq(|keys|, k requires 0 <= k < |keys| => objects[keys[k]])
  }

  lemma OneMoreThere(objects: Store, keys: seq<Key>, k: nat)
    requires k < |keys| && AllThere(objects, keys[..k + 1])
    ensures AllThere(objects, keys[..k]) && keys[k] in objects
    ensures ObjectsAt(objects, keys[..k + 1]) == ObjectsAt(objects, keys[..k]) + [objects[keys[k]]]
  {
    assert forall j :: 0 <= j < k ==> keys[..k][j] == keys[..k + 1][j];
    assert keys[..k + 1][k] == keys[k];
  }

  /** Reading succeeds exactly when everything is there and no call fails, and then yields what is there. */
  lemma {:induction false} ReadsWhen(objects: Store, keys: seq<Key>, faults: Faults, n: nat)
    ensures var r := ReadAll(objects, keys, faults, n);
            && (r.ok <==> AllThere(objects, keys) && Calm(faults, n, r.calls))
            && (r.ok ==> r.got == ObjectsAt(objects, keys))
  {
    if keys != [] {
      var init, last := keys[..|keys| - 1], keys[|keys| - 1];
      ReadsWhen(objects, init, faults, n);
      assert forall k :: 0 <= k < |init| ==> keys[k] == init[k];
    }
  }

  lemma {:induction false} WorkIsExec(program: Program, got: seq<Resource>, pc: Pc, objects: Store, faults: Faults,
                                      n: nat)
    requires ValidRun(RunData(program, got, Working(pc)))
    ensures ExecRun(RunData(program, got, Working(pc)), objects, faults, n)
         == Exec(PlanFrom(program, got), pc, objects, faults, n)
    decreases Remaining(PlanFrom(program, got), pc)
  {
    if !pc.Finished? {
      var plan := PlanFrom(program, got);
      var (after, reply) := ServeUnder(NextCall(plan, pc), objects, faults(n));
      StepsRunOut(plan, pc, reply);
      WorkIsExec(program, got, Advance(plan, pc, reply), after, faults, n + 1);
    }
  }

  lemma ReadOnce(program: Program, got: seq<Resource>, objects: Store, faults: Faults, n: nat)
    requires |got| < |program.sources|
    ensures var r := ReadOne(Read(got, true, n), objects, program.sources[|got|], faults);
            ExecRun(Opened(program, got), objects, faults, n) ==
              if r.ok then ExecRun(Opened(program, r.got), objects, faults, r.calls)
              else Outcome(objects, false, r.calls)
  {
  }

  lemma {:induction false} ReadsFirst(program: Program, k: nat, objects: Store, faults: Faults, n: nat)
    requires k <= |program.sources|
    ensures var r := ReadAll(objects, program.sources[..k], faults, n);
            ExecRun(Launched(program), objects, faults, n) ==
              if r.ok then ExecRun(Opened(program, r.got), objects, faults, r.calls)
              else Outcome(objects, false, r.calls)
  {
    if k > 0 {
      ReadsFirst(program, k - 1, objects, faults, n);
      assert program.sources[..k] == program.sources[..k - 1] + [program.sources[k - 1]];
      ReadStep(objects, program.sources[..k - 1], program.sources[k - 1], faults, n);
      var before := ReadAll(objects, program.sources[..k - 1], faults, n);
      if before.ok {
        ReadOnce(program, before.got, objects, faults, before.calls);
      }
    } else {
      assert program.sources[..0] == [];
    }
  }

  /** A run alone reads everything, gives up or plans, and then does what its plan says. */
  lemma RunAlone(program: Program, objects: Store, faults: Faults, n: nat)
    ensures var r := ReadAll(objects, program.sources, faults, n);
            ExecRun(Launched(program), objects, faults, n) ==
              if !r.ok || program.build(r.got).None? then Outcome(objects, false, r.calls)
              else Exec(program.build(r.got).value, Start(program.build(r.got).value), objects, faults, r.calls)
  {
    var r := ReadAll(objects, program.sources, faults, n);
    assert program.sources[..|program.sources|] == program.sources;
    ReadsFirst(program, |program.sources|, objects, faults, n);
    if r.ok && program.build(r.got).Some? {
      WorkIsExec(program, r.got, Start(program.build(r.got).value), objects, faults, r.calls);
    }
  }
}
