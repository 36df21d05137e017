/** What lasts at a key of the cluster while runs come and go: content that is only ever created, and labels. */
module Lasting {
  import opened Convergence
  import opened Interleaving
  import opened Machine
  import opened Names
  import opened Programs
  import opened Resources

  /** This event is a delete call for the key that reaches the server. */
  predicate Deletes(s: State, e: Event, key: Key) {
    && e.Tick? && e.fault != Refused && Alive(s, e.id)
    && s.runs[e.id].at.Working? && s.runs[e.id].at.pc.Cleaning? && CallOf(s.runs[e.id]).key == key
  }

  lemma DeletedIsPlanned(s: State, e: Event, key: Key)
    requires Deletes(s, e, key)
    ensures var run := s.runs[e.id]; run.program.build(run.got).Some? && key in PlanOfRun(run).deletions
  {
    var run := s.runs[e.id];
    assert PlanOfRun(run).deletions[run.at.pc.j] == key;
  }

  /** No event of the history is such a call. */
  ghost predicate Undeleted(s: State, es: seq<Event>, key: Key) {
    forall i :: 0 <= i < |es| ==> !Deletes(Play(s, es[..i]), es[i], key)
  }

  /** No other writer touches the key. */
  ghost predicate Untouched(es: seq<Event>, key: Key) {
    forall e :: e in es && e.Write? ==> e.key != key
  }

  lemma UndeletedBefore(s: State, es: seq<Event>, key: Key)
    requires Undeleted(s, es, key) && es != []
    ensures Undeleted(s, es[..|es| - 1], key)
    ensures !Deletes(Play(s, es[..|es| - 1]), es[|es| - 1], key)
  {
    var init := es[..|es| - 1];
    forall i | 0 <= i < |init| ensures !Deletes(Play(s, init[..i]), init[i], key) {
      assert init[..i] == es[..i];
    }
  }

  /** A plan that never patches the key. */
  ghost function OnlyCreates(key: Key): Plan -> bool {
    (plan: Plan) => forall item :: item in plan.items && item.key == key ==> item.how == CreateOnly
  }

  ghost function CreateOnlyRuns(key: Key): (RunId, Program) -> bool {
    (id: RunId, program: Program) => Yields(program, OnlyCreates(key))
  }

  /** A working run of such a program neither reads nor patches the key: it creates or deletes it. */
  lemma CreatesOrDeletes(run: Run, key: Key)
    requires !Over(run) && run.at.Working? && Yields(run.program, OnlyCreates(key)) && CallOf(run).key == key
    ensures !CallOf(run).PatchObject?
  {
    var plan := run.program.build(run.got);
    assert plan.Some? && OnlyCreates(key)(plan.value);
    if !run.at.pc.Cleaning? {
      assert plan.value.items[run.at.pc.i] in plan.value.items;
    }
  }

  lemma CreatedTickKeeps(s: State, e: Event, key: Key)
    requires e.Tick? && AllPrograms(s, [], CreateOnlyRuns(key)) && key in s.objects && !Deletes(s, e, key)
    ensures SameAt(Happen(s, e).objects, s.objects, key)
  {
    if Alive(s, e.id) {
      var run := s.runs[e.id];
      assert CreateOnlyRuns(key)(e.id, run.program);
      CallIsLocal(CallOf(run), s.objects, s.objects, e.fault);
      if run.at.Working? && CallOf(run).key == key {
        CreatesOrDeletes(run, key);
      }
    }
  }

  /** Once there, an object that nobody patches never changes until a call deletes it. */
  lemma {:induction false} StaysUntilDeleted(s: State, es: seq<Event>, key: Key)
    requires AllPrograms(s, es, CreateOnlyRuns(key)) && Untouched(es, key) && Undeleted(s, es, key) && key in s.objects
    ensures SameAt(Play(s, es).objects, s.objects, key)
  {
    if es != [] {
      var init, e := es[..|es| - 1], es[|es| - 1];
      FewerPrograms(s, es, CreateOnlyRuns(key));
      UndeletedBefore(s, es, key);
      assert e in es;
      StaysUntilDeleted(s, init, key);
      if e.Tick? {
        CreatedTickKeeps(Play(s, init), e, key);
      }
    }
  }

  /** This event brings the object into being. */
  predicate Creates(s: State, e: Event, key: Key) {
    e.Tick? && key !in s.objects && key in Happen(s, e).objects
  }

  /** What a run has created is what its plan wants there. */
  lemma CreatedAsWanted(s: State, e: Event, key: Key)
    requires Creates(s, e, key)
    ensures Alive(s, e.id) && s.runs[e.id].program.build(s.runs[e.id].got).Some?
    ensures exists item :: item in PlanOfRun(s.runs[e.id]).items && item.key == key
                           && Happen(s, e).objects[key] == item.want
  {
    var run := s.runs[e.id];
    CallIsLocal(CallOf(run), s.objects, s.objects, e.fault);
    assert CallOf(run).CreateObject? && CallOf(run).key == key;
    assert PlanOfRun(run).items[run.at.pc.i] in PlanOfRun(run).items;
  }

  /** Every creation of the key in the history makes what p allows. */
  ghost predicate CreatedOnlyAs(s: State, es: seq<Event>, key: Key, p: Resource -> bool) {
    forall i :: 0 <= i < |es| && Creates(Play(s, es[..i]), es[i], key) ==>
      p(Happen(Play(s, es[..i]), es[i]).objects[key])
  }

  lemma CreatedBefore(s: State, es: seq<Event>, key: Key, p: Resource -> bool)
    requires CreatedOnlyAs(s, es, key, p) && es != []
    ensures CreatedOnlyAs(s, es[..|es| - 1], key, p)
    ensures var t := Play(s, es[..|es| - 1]); Creates(t, es[|es| - 1], key) ==> p(Play(s, es).objects[key])
  {
    var init := es[..|es| - 1];
    forall i | 0 <= i < |init| && Creates(Play(s, init[..i]), init[i], key)
      ensures p(Happen(Play(s, init[..i]), init[i]).objects[key])
    {
      assert init[..i] == es[..i] && Creates(Play(s, es[..i]), es[i], key);
    }
  }

  lemma GoneOrKept(s: State, e: Event, key: Key)
    requires e.Tick? && AllPrograms(s, [], CreateOnlyRuns(key)) && key in s.objects
    ensures key in Happen(s, e).objects ==> Happen(s, e).objects[key] == s.objects[key]
  {
    if !Deletes(s, e, key) {
      CreatedTickKeeps(s, e, key);
    }
  }

  /** What holds of an object whenever it is created holds throughout, deletions and new creations included. */
  lemma {:induction false} HoldsAsCreated(s: State, es: seq<Event>, key: Key, p: Resource -> bool)
    requires AllPrograms(s, es, CreateOnlyRuns(key)) && Untouched(es, key) && CreatedOnlyAs(s, es, key, p)
    requires key in s.objects ==> p(s.objects[key])
    ensures key in Play(s, es).objects ==> p(Play(s, es).objects[key])
  {
    if es != [] {
      var init, e := es[..|es| - 1], es[|es| - 1];
      FewerPrograms(s, es, CreateOnlyRuns(key));
      CreatedBefore(s, es, key, p);
      assert e in es;
      HoldsAsCreated(s, init, key, p);
      if e.Tick? && key in Play(s, init).objects {
        GoneOrKept(Play(s, init), e, key);
      }
    }
  }

  /** No label or annotation key is lost from one resource to the other. */
  ghost predicate KeepsLabels(was: Resource, now: Resource) {
    was.labels.Keys <= now.labels.Keys && was.annotations.Keys <= now.annotations.Keys
  }

  lemma CallKeepsLabels(run: Run, objects: Store, fault: Fault, key: Key)
    requires !Over(run) && key in objects
    ensures var after := ServeUnder(CallOf(run), objects, fault).0;
            key in after ==> KeepsLabels(objects[key], after[key])
  {
    CallIsLocal(CallOf(run), objects, objects, fault);
    if run.at.Working? && run.at.pc.Patching? && CallOf(run).key == key {
      PatchKeepsLabels(PlanOfRun(run), run.at.pc, objects[key]);
    }
  }

  /** No call of any run, at any moment of any history, takes a label or an annotation from an object it leaves. */
  lemma TickKeepsLabels(s: State, id: RunId, fault: Fault, key: Key)
    ensures var after := Happen(s, Tick(id, fault)).objects;
            key in s.objects && key in after ==> KeepsLabels(s.objects[key], after[key])
  {
    if Alive(s, id) && key in s.objects {
      CallKeepsLabels(s.runs[id], s.objects, fault, key);
    }
  }

  lemma KeptUnlessDeleted(s: State, e: Event, key: Key)
    requires e.Tick? && key in s.objects && !Deletes(s, e, key)
    ensures key in Happen(s, e).objects
  {
    if Alive(s, e.id) {
      CallIsLocal(CallOf(s.runs[e.id]), s.objects, s.objects, e.fault);
    }
  }

  ghost predicate Bears(r: Resource, labels: set<string>, annotations: set<string>) {
    labels <= r.labels.Keys && annotations <= r.annotations.Keys
  }

  /**
   Labels and annotations that an object bears, whoever put them there, it bears until a call deletes the object or
   another writer takes them away, however many runs read and patch it in between.
   */
  lemma {:induction false} LabelsLast(s: State, es: seq<Event>, key: Key, labels: set<string>, annotations: set<string>)
    requires Undeleted(s, es, key)
    requires key in s.objects && Bears(s.objects[key], labels, annotations)
    requires forall e :: e in es && e.Write? && e.key == key ==>
               e.resource.Some? && Bears(e.resource.value, labels, annotations)
    ensures key in Play(s, es).objects && Bears(Play(s, es).objects[key], labels, annotations)
  {
    if es != [] {
      var init, e := es[..|es| - 1], es[|es| - 1];
      UndeletedBefore(s, es, key);
      assert e in es;
      LabelsLast(s, init, key, labels, annotations);
      if e.Tick? {
        KeptUnlessDeleted(Play(s, init), e, key);
        TickKeepsLabels(Play(s, init), e.id, e.fault, key);
      }
    }
  }
}
