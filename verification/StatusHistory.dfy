/** The stored status of CRs over histories of runs and edits. */
module StatusHistory {
  import opened BackstageApi
  import opened Builder
  import opened ClusterApi
  import opened Conditions
  import opened Guarantees
  import opened Machine
  import opened Names
  import opened Plans
  import opened Pods
  import opened Preprocessing
  import opened Reconciling
  import opened Wrappers

  /** The stored status of a CR says that it is deployed. */
  ghost predicate SaysDeployed(backstages: map<Cr, Backstage>, cr: Cr) {
    cr in backstages && SayDeployed(backstages[cr].conditions)
  }

  ghost predicate OneConditionEach(backstages: map<Cr, Backstage>) {
    forall cr :: cr in backstages ==> |DeployedOnes(backstages[cr].conditions)| <= 1
  }

  /** How a run of Reconcile for req began: everything it depends on but the CR itself. */
  datatype RunStart = RunStart(
    req: Cr, setup: Setup, password: string, order: Order, objects: Store, faults: Faults, n: nat)

  /** A run, or a user who creates, edits or deletes a CR; only runs write conditions. */
  datatype StatusEvent = Ran(run: RunStart) | Edited(cr: Cr, spec: Option<BackstageSpec>)

  /** The operator does not panic on the CR that it loads. */
  ghost predicate Proper(backstages: map<Cr, Backstage>, run: RunStart) {
    run.req in backstages ==>
      NoPanic(run.setup, backstages[run.req], run.password, run.order, run.objects, run.faults, run.n)
  }

  /** The four stages of the run. */
  ghost function OutcomeOf(backstages: map<Cr, Backstage>, run: RunStart): Outcome
    requires run.req in backstages && Proper(backstages, run)
  {
    Staged(run.setup, backstages[run.req], run.password, run.order, run.objects, run.faults, run.n)
  }

  /** The run loads its CR. */
  ghost predicate Starts(backstages: map<Cr, Backstage>, e: StatusEvent) {
    e.Ran? && LoadedCr(e.run.setup, e.run.req, backstages, e.run.faults(e.run.n)).Some?
  }

  /** The run loads its CR and runs its stages without a panic. */
  ghost predicate Loads(backstages: map<Cr, Backstage>, e: StatusEvent) {
    Starts(backstages, e) && Proper(backstages, e.run)
  }

  /** A run of this CR that stores its outcome: what it says. */
  ghost predicate Says(backstages: map<Cr, Backstage>, e: StatusEvent, cr: Cr, ok: bool) {
    && Loads(backstages, e) && e.run.req == cr
    && var o := OutcomeOf(backstages, e.run);
       o.ok == ok && e.run.faults(o.calls) != Refused
  }

  /**
   The stored CRs after an event: after a run, what Reconcile leaves. The deferred update also follows a panic, which
   can happen in InitObjects only, when the run has read but not sent anything else.
   */
  ghost function StoredAfter(backstages: map<Cr, Backstage>, e: StatusEvent): map<Cr, Backstage> {
    match e
    case Ran(run) =>
      if !Starts(backstages, e) then backstages
      else if !Proper(backstages, run) then
        var cr := backstages[run.req];
        WithStatus(backstages, run.req, BegunConditions(cr.conditions),
                   run.faults(ReadsFor(cr, run.objects, run.faults, run.n).calls))
      else
        var o := OutcomeOf(backstages, run);
        WithStatus(backstages, run.req, FinalConditions(backstages[run.req].conditions, o.ok), run.faults(o.calls))
    case Edited(cr, spec) =>
      if spec.None? then backstages - {cr}
      else if cr in backstages then backstages[cr := backstages[cr].(spec := spec.value)]
      else backstages[cr := Backstage(cr.namespace, cr.name, spec.value, [])]
  }

  ghost function After(backstages: map<Cr, Backstage>, es: seq<StatusEvent>): map<Cr, Backstage> {
    if es == [] then backstages else StoredAfter(After(backstages, es[..|es| - 1]), es[|es| - 1])
  }

  lemma RunStores(backstages: map<Cr, Backstage>, e: StatusEvent, cr: Cr)
    requires Loads(backstages, e) && OneConditionEach(backstages)
    ensures OneConditionEach(StoredAfter(backstages, e))
    ensures SaysDeployed(StoredAfter(backstages, e), cr) <==>
              Says(backstages, e, cr, true) || (SaysDeployed(backstages, cr) && !Says(backstages, e, cr, false))
  {
    var o := OutcomeOf(backstages, e.run);
    UpdateStores(backstages, e.run.req, o.ok, e.run.faults(o.calls), cr);
  }

  lemma UpdateStores(backstages: map<Cr, Backstage>, req: Cr, ok: bool, fault: Fault, cr: Cr)
    requires OneConditionEach(backstages) && req in backstages
    ensures var after := WithStatus(backstages, req, FinalConditions(backstages[req].conditions, ok), fault);
            && OneConditionEach(after)
            && (SaysDeployed(after, cr) <==> if cr == req && fault != Refused then ok else SaysDeployed(backstages, cr))
  {
    TruthfulConditions(backstages[req].conditions, ok);
  }

  /** A run that can store its status leaves one Deployed condition, which tells whether the run had an error. */
  lemma RunTells(backstages: map<Cr, Backstage>, e: StatusEvent)
    requires Loads(backstages, e) && |DeployedOnes(backstages[e.run.req].conditions)| <= 1
    requires e.run.faults(OutcomeOf(backstages, e.run).calls) != Refused
    ensures e.run.req in StoredAfter(backstages, e)
    ensures var ones := DeployedOnes(StoredAfter(backstages, e)[e.run.req].conditions);
            var ok := OutcomeOf(backstages, e.run).ok;
            && |ones| == 1 && ones[0].conditionType == "Deployed"
            && ones[0].status == (if ok then ConditionTrue else ConditionFalse)
            && ones[0].reason == (if ok then Deployed else DeployFailed)
  {
    TruthfulConditions(backstages[e.run.req].conditions, OutcomeOf(backstages, e.run).ok);
  }

  lemma PanicStores(backstages: map<Cr, Backstage>, e: StatusEvent, cr: Cr)
    requires Starts(backstages, e) && !Loads(backstages, e) && OneConditionEach(backstages)
    ensures OneConditionEach(StoredAfter(backstages, e))
    ensures SaysDeployed(StoredAfter(backstages, e), cr) <==> SaysDeployed(backstages, cr)
  {
    var loaded := backstages[e.run.req];
    UpdateKeeps(backstages, e.run.req, e.run.faults(ReadsFor(loaded, e.run.objects, e.run.faults, e.run.n).calls), cr);
  }

  lemma UpdateKeeps(backstages: map<Cr, Backstage>, req: Cr, fault: Fault, cr: Cr)
    requires OneConditionEach(backstages) && req in backstages
    ensures var after := WithStatus(backstages, req, BegunConditions(backstages[req].conditions), fault);
            OneConditionEach(after) && (SaysDeployed(after, cr) <==> SaysDeployed(backstages, cr))
  {
    BegunTruthfully(backstages[req].conditions);
  }

  lemma EditStores(backstages: map<Cr, Backstage>, e: StatusEvent, cr: Cr)
    requires e.Edited? && OneConditionEach(backstages)
    ensures OneConditionEach(StoredAfter(backstages, e))
    ensures SaysDeployed(StoredAfter(backstages, e), cr) <==> SaysDeployed(backstages, cr) && e != Edited(cr, None)
  {
  }

  /** One event: a CR newly says that it is deployed exactly when a run of it has just succeeded and could store it. */
  lemma EventStores(backstages: map<Cr, Backstage>, e: StatusEvent, cr: Cr)
    requires OneConditionEach(backstages)
    ensures OneConditionEach(StoredAfter(backstages, e))
    ensures SaysDeployed(StoredAfter(backstages, e), cr) <==>
              || Says(backstages, e, cr, true)
              || (SaysDeployed(backstages, cr) && !Says(backstages, e, cr, false) && e != Edited(cr, None))
  {
    if e.Edited? {
      EditStores(backstages, e, cr);
    } else if Loads(backstages, e) {
      RunStores(backstages, e, cr);
    } else if Starts(backstages, e) {
      PanicStores(backstages, e, cr);
    }
  }

  /** What an event says of a CR: that it is deployed, that it no longer is, or nothing. */
  datatype Word = Yes | No | Nothing

  /** Runs that can store their outcome say it; the deletion of a CR takes the word back. */
  ghost function WordOf(backstages: map<Cr, Backstage>, e: StatusEvent, cr: Cr): Word {
    if Says(backstages, e, cr, true) then Yes
    else if Says(backstages, e, cr, false) || e == Edited(cr, None) then No
    else Nothing
  }

  ghost function Words(backstages: map<Cr, Backstage>, es: seq<StatusEvent>, cr: Cr): (ws: seq<Word>)
    ensures |ws| == |es|
  {
    if es == [] then [] else
      var init := es[..|es| - 1];
      Words(backstages, init, cr) + [WordOf(After(backstages, init), es[|es| - 1], cr)]
  }

  lemma {:induction false} WordAt(backstages: map<Cr, Backstage>, es: seq<StatusEvent>, cr: Cr, i: nat)
    requires i < |es|
    ensures Words(backstages, es, cr)[i] == WordOf(After(backstages, es[..i]), es[i], cr)
  {
    if i < |es| - 1 {
      WordAt(backstages, es[..|es| - 1], cr, i);
      assert es[..|es| - 1][..i] == es[..i];
    }
  }

  /** Word i is yes, and none after it is no. */
  predicate Vouches(ws: seq<Word>, i: nat) {
    i < |ws| && ws[i] == Yes && forall j :: i < j < |ws| ==> ws[j] != No
  }

  ghost predicate Vouched(ws: seq<Word>) { exists i: nat :: Vouches(ws, i) }

  lemma VouchedStep(ws: seq<Word>, w: Word)
    ensures Vouched(ws + [w]) <==> w == Yes || (Vouched(ws) && w != No)
  {
    var all := ws + [w];
    assert all[|ws|] == w;
    if w == Yes {
      assert Vouches(all, |ws|);
    } else if Vouched(ws) && w != No {
      var i: nat :| Vouches(ws, i);
      assert Vouches(all, i);
    }
    if i: nat :| Vouches(all, i) && i < |ws| {
      forall j | i < j < |ws| ensures ws[j] != No {
        assert all[j] == ws[j];
      }
      assert Vouches(ws, i);
    }
  }

  /** What a run that ended without error has done. */
  ghost predicate Accomplished(backstages: map<Cr, Backstage>, run: RunStart)
    requires run.req in backstages && Proper(backstages, run)
  {
    var cr, r := backstages[run.req], ReadsFor(backstages[run.req], run.objects, run.faults, run.n);
    && Available(run.objects, cr.namespace, cr.spec) && r.ok
    && var inp := BuildInputs(run.setup, cr, run.password, run.order, r.got);
       Succeeds(inp) && OutcomeOf(backstages, run).objects == Settle(PlanOf(inp, run.setup.registry), run.objects)
  }

  lemma OkIsAccomplished(backstages: map<Cr, Backstage>, e: StatusEvent, cr: Cr)
    requires Says(backstages, e, cr, true)
    ensures Accomplished(backstages, e.run)
  {
    SuccessMeans(e.run.setup, backstages[cr], e.run.password, e.run.order, e.run.objects, e.run.faults, e.run.n);
  }

  lemma LastEvent(backstages: map<Cr, Backstage>, e: StatusEvent, cr: Cr)
    requires OneConditionEach(backstages)
    ensures OneConditionEach(StoredAfter(backstages, e))
    ensures var w := WordOf(backstages, e, cr);
            SaysDeployed(StoredAfter(backstages, e), cr) <==> w == Yes || (SaysDeployed(backstages, cr) && w != No)
  {
    EventStores(backstages, e, cr);
  }

  lemma {:induction false} DeployedIffVouched(backstages: map<Cr, Backstage>, es: seq<StatusEvent>, cr: Cr)
    requires OneConditionEach(backstages) && !SaysDeployed(backstages, cr)
    ensures OneConditionEach(After(backstages, es))
    ensures SaysDeployed(After(backstages, es), cr) <==> Vouched(Words(backstages, es, cr))
  {
    if es != [] {
      var init, e := es[..|es| - 1], es[|es| - 1];
      DeployedIffVouched(backstages, init, cr);
      LastEvent(After(backstages, init), e, cr);
      VouchedStep(Words(backstages, init, cr), WordOf(After(backstages, init), e, cr));
    }
  }

  lemma YesIsAccomplished(backstages: map<Cr, Backstage>, e: StatusEvent, cr: Cr)
    requires WordOf(backstages, e, cr) == Yes
    ensures Loads(backstages, e) && e.run.req == cr && Accomplished(backstages, e.run)
  {
    OkIsAccomplished(backstages, e, cr);
  }

  /**
   From a store in which a CR does not say that it is deployed, after any history of runs and edits: it says so exactly
   when one of its runs has said it and nothing has taken it back since. All four stages of such a run have succeeded,
   and it has left the cluster as its plan means.
   */
  lemma DeployedExactly(backstages: map<Cr, Backstage>, es: seq<StatusEvent>, cr: Cr)
    requires OneConditionEach(backstages) && !SaysDeployed(backstages, cr)
    ensures OneConditionEach(After(backstages, es))
    ensures SaysDeployed(After(backstages, es), cr) <==> exists i: nat :: Vouches(Words(backstages, es, cr), i)
    ensures forall i: nat :: Vouches(Words(backstages, es, cr), i) ==>
              var before := After(backstages, es[..i]);
              Loads(before, es[i]) && es[i].run.req == cr && Accomplished(before, es[i].run)
  {
    DeployedIffVouched(backstages, es, cr);
    forall i: nat | Vouches(Words(backstages, es, cr), i)
      ensures var before := After(backstages, es[..i]);
              Loads(before, es[i]) && es[i].run.req == cr && Accomplished(before, es[i].run)
    {
      WordAt(backstages, es, cr, i);
      YesIsAccomplished(After(backstages, es[..i]), es[i], cr);
    }
  }
}
