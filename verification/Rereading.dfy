/** What a second run for the same CR reads: when it is the same, and when the builder uses it alike. */
module Rereading {
  import opened BackstageApi
  import opened Builder
  import opened Convergence
  import opened Determinacy
  import opened Guarantees
  import opened Machine
  import opened Marshalling
  import opened Names
  import opened Objects
  import opened Plans
  import opened Pods
  import opened Preprocessing
  import opened Programs
  import opened Reconciling
  import opened Repetition
  import opened Resources
  import opened Sources
  import opened Uses

  /** Two sequences of resources with the same data. */
  ghost predicate SameData(a: seq<Resource>, b: seq<Resource>) {
    |a| == |b| && forall i :: 0 <= i < |a| ==> DataOf(a[i]) == DataOf(b[i])
  }

  /** The data that the operator itself gives an object of this kind. */
  ghost function WantedData(inp: Inputs, registry: seq<Kind>, kind: Kind): Data
    requires Usable(inp) && Ready(inp) && IsPlaced(inp, kind)
  {
    DataOf(ResourceOf(PhaseTwo(inp, registry, kind)))
  }

  /** A ConfigMap after a run: the operator's own data where it has applied it, else as before. */
  lemma DataAfterRun(inp: Inputs, registry: seq<Kind>, objects: Store, name: string)
    requires Usable(inp) && Ready(inp) && IsRegistry(registry) && ConfigMapKey(inp.namespace, name) in objects
    ensures var key, once := ConfigMapKey(inp.namespace, name), Settle(PlanOf(inp, registry), objects);
            && key in once
            && (forall kind :: key == OwnKey(inp, kind) && IsPlaced(inp, kind) ==>
                  DataOf(once[key]) == WantedData(inp, registry, kind))
            && ((forall kind :: key == OwnKey(inp, kind) ==> !IsPlaced(inp, kind)) ==>
                  DataOf(once[key]) == DataOf(objects[key]))
  {
    var key := ConfigMapKey(inp.namespace, name);
    if Owns(inp.namespace, inp.name, key) {
      var kind :| key == KeyOf(kind, inp.namespace, inp.name);
      OwnDataAfterRun(inp, registry, objects, key, kind);
    } else {
      ForeignKeysStay(inp, registry, objects, key);
    }
  }

  lemma OwnDataAfterRun(inp: Inputs, registry: seq<Kind>, objects: Store, key: Key, kind: Kind)
    requires Usable(inp) && Ready(inp) && IsRegistry(registry) && key in objects
    requires key == OwnKey(inp, kind) && key.api == ConfigMaps
    ensures var once := Settle(PlanOf(inp, registry), objects);
            key in once && (if IsPlaced(inp, kind) then DataOf(once[key]) == WantedData(inp, registry, kind)
                            else DataOf(once[key]) == DataOf(objects[key]))
    ensures forall other :: key == OwnKey(inp, other) ==> other == kind
  {
    ClusterAfterRun(inp, registry, objects, kind);
    Deleted(inp, kind);
    forall other | key == OwnKey(inp, other) ensures other == kind {
      KeysAreInjective(kind, inp.namespace, inp.name, other, inp.namespace, inp.name);
    }
  }

  /**
   Wherever the CR names a ConfigMap that the operator applies for this same CR, the ConfigMap already had the data
   that the operator gives it.
   */
  ghost predicate Undisturbed(inp: Inputs, registry: seq<Kind>, objects: Store)
    requires Usable(inp) && Ready(inp)
  {
    forall name, kind ::
      name in ReadNames(inp.spec) && ConfigMapKey(inp.namespace, name) == OwnKey(inp, kind) && IsPlaced(inp, kind) ==>
        ConfigMapKey(inp.namespace, name) in objects
        && DataOf(objects[ConfigMapKey(inp.namespace, name)]) == WantedData(inp, registry, kind)
  }

  /** The CR names no ConfigMap of its own. */
  ghost predicate NamesNoneOfItsOwn(backstage: Backstage) {
    forall name :: name in ReadNames(backstage.spec) ==>
      !Owns(backstage.namespace, backstage.name, ConfigMapKey(backstage.namespace, name))
  }

  /** The operator applies a ConfigMap of this kind under a name that the CR gives. */
  predicate AppliesTo(inp: Inputs, name: string, kind: Kind) {
    ConfigMapKey(inp.namespace, name) == OwnKey(inp, kind) && IsPlaced(inp, kind)
  }

  /** Where the CR's raw configuration is a ConfigMap that the operator applies, both say the same of every kind. */
  ghost predicate RawUnaffected(inp: Inputs, registry: seq<Kind>, objects: Store)
    requires Usable(inp) && Ready(inp)
  {
    forall name, kind :: name in RawNames(inp.spec) && AppliesTo(inp, name, kind) ==>
      SameRaw(DataAt(objects, inp.namespace, name), WantedData(inp, registry, kind))
  }

  /** Where the CR mounts files of a ConfigMap that the operator applies, both have the files that it asks for. */
  ghost predicate FilesUnaffected(inp: Inputs, registry: seq<Kind>, objects: Store)
    requires Usable(inp) && Ready(inp)
  {
    forall r, kind :: r in FileRefs(inp.spec) && AppliesTo(inp, r.name, kind) ==>
      UseOf(DataAt(objects, inp.namespace, r.name), r.key) == UseOf(WantedData(inp, registry, kind), r.key)
  }

  lemma FileRefIsRead(spec: BackstageSpec, r: ObjectKeyRef)
    requires r in FileRefs(spec)
    ensures r.name in ReadNames(spec)
  {
    var app, files := RefsOf(spec, AppConfigKind), RefsOf(spec, ConfigMapFilesKind);
    if r in app {
      var i :| 0 <= i < |app| && app[i] == r;
      NameAt(app, i);
    } else if r in files {
      var i :| 0 <= i < |files| && files[i] == r;
      NameAt(files, i);
    }
  }

  /** A ConfigMap's data after the run, by name. */
  lemma DataAtAfter(inp: Inputs, registry: seq<Kind>, objects: Store, name: string)
    requires Usable(inp) && Ready(inp) && IsRegistry(registry) && ConfigMapKey(inp.namespace, name) in objects
    ensures var after := DataAt(Settle(PlanOf(inp, registry), objects), inp.namespace, name);
            && (forall kind :: AppliesTo(inp, name, kind) ==> after == WantedData(inp, registry, kind))
            && ((forall kind :: !AppliesTo(inp, name, kind)) ==> after == DataAt(objects, inp.namespace, name))
  {
    var key := ConfigMapKey(inp.namespace, name);
    if kind :| AppliesTo(inp, name, kind) {
      OwnDataAfterRun(inp, registry, objects, key, kind);
    } else {
      forall kind | key == OwnKey(inp, kind) ensures !IsPlaced(inp, kind) {
        assert !AppliesTo(inp, name, kind);
      }
      DataAfterRun(inp, registry, objects, name);
    }
  }

  lemma RawAlikeExactly(inp: Inputs, registry: seq<Kind>, objects: Store)
    requires Usable(inp) && Ready(inp) && IsRegistry(registry) && Available(objects, inp.namespace, inp.spec)
    ensures RawAlike(objects, Settle(PlanOf(inp, registry), objects), inp.namespace, inp.spec) <==>
              RawUnaffected(inp, registry, objects)
  {
    forall name | name in RawNames(inp.spec)
      ensures SameRaw(DataAt(objects, inp.namespace, name),
                      DataAt(Settle(PlanOf(inp, registry), objects), inp.namespace, name)) <==>
                forall kind :: AppliesTo(inp, name, kind) ==>
                  SameRaw(DataAt(objects, inp.namespace, name), WantedData(inp, registry, kind))
    {
      assert name in ReadNames(inp.spec);
      DataAtAfter(inp, registry, objects, name);
    }
  }

  lemma FilesAlikeExactly(inp: Inputs, registry: seq<Kind>, objects: Store)
    requires Usable(inp) && Ready(inp) && IsRegistry(registry) && Available(objects, inp.namespace, inp.spec)
    ensures FilesAlike(objects, Settle(PlanOf(inp, registry), objects), inp.namespace, inp.spec) <==>
              FilesUnaffected(inp, registry, objects)
  {
    forall r | r in FileRefs(inp.spec)
      ensures UseOf(DataAt(objects, inp.namespace, r.name), r.key)
              == UseOf(DataAt(Settle(PlanOf(inp, registry), objects), inp.namespace, r.name), r.key) <==>
                forall kind :: AppliesTo(inp, r.name, kind) ==>
                  UseOf(DataAt(objects, inp.namespace, r.name), r.key) == UseOf(WantedData(inp, registry, kind), r.key)
    {
      FileRefIsRead(inp.spec, r);
      DataAtAfter(inp, registry, objects, r.name);
    }
  }

  /** A run of the operator and what it found: its settings, its CR, its random choices, the faults it met. */
  datatype Attempt = Attempt(
    setup: Setup, backstage: Backstage, password: string, order: Order, faults: Faults, n: nat)

  ghost predicate Safe(t: Attempt, objects: Store) {
    NoPanic(t.setup, t.backstage, t.password, t.order, objects, t.faults, t.n)
  }

  function ReadsOf(t: Attempt, objects: Store): ReadingResult { ReadsFor(t.backstage, objects, t.faults, t.n) }

  /** The whole run, preprocessing included. */
  ghost function Result(t: Attempt, objects: Store): Outcome
    requires Safe(t, objects)
  {
    Staged(t.setup, t.backstage, t.password, t.order, objects, t.faults, t.n)
  }

  /** What the builder is given when the run's reads succeed. */
  function InputsOf(t: Attempt, objects: Store): Inputs
    requires ReadsOf(t, objects).ok
  {
    BuildInputs(t.setup, t.backstage, t.password, t.order, ReadsOf(t, objects).got)
  }

  /** The same settings and CR, in later circumstances. */
  ghost predicate Again(t: Attempt, u: Attempt) {
    && u == t.(password := u.password, order := u.order, faults := u.faults, n := u.n)
    && IsRegistry(t.setup.registry) && ValidOrder(t.order) && ValidOrder(u.order)
  }

  lemma WhatWorked(t: Attempt, objects: Store)
    requires Safe(t, objects) && Result(t, objects).ok
    ensures ReadsOf(t, objects).ok
    ensures var inp := InputsOf(t, objects);
            && Usable(inp) && Ready(inp) && Succeeds(inp)
            && Result(t, objects).objects == Settle(PlanOf(inp, t.setup.registry), objects)
  {
    SuccessMeans(t.setup, t.backstage, t.password, t.order, objects, t.faults, t.n);
  }

  lemma WhatIsRead(t: Attempt, objects: Store)
    requires ReadsOf(t, objects).ok
    ensures AsStored(objects, t.backstage.namespace, ReadNames(t.backstage.spec), ReadsOf(t, objects).got)
  {
    PreprocessResolves(objects, t.backstage.namespace, t.backstage.spec, t.faults, t.n + 1);
  }

  /** One name that the CR gives: it reads the same again unless the first run has overwritten it with other data. */
  lemma NameReadsSame(inp: Inputs, registry: seq<Kind>, objects: Store, name: string)
    requires Usable(inp) && Ready(inp) && IsRegistry(registry) && ConfigMapKey(inp.namespace, name) in objects
    ensures var key, once := ConfigMapKey(inp.namespace, name), Settle(PlanOf(inp, registry), objects);
            && key in once
            && (DataOf(once[key]) == DataOf(objects[key]) <==>
                  forall kind :: key == OwnKey(inp, kind) && IsPlaced(inp, kind) ==>
                    DataOf(objects[key]) == WantedData(inp, registry, kind))
  {
    DataAfterRun(inp, registry, objects, name);
    var key := ConfigMapKey(inp.namespace, name);
    if kind :| key == OwnKey(inp, kind) && IsPlaced(inp, kind) {
      OwnDataAfterRun(inp, registry, objects, key, kind);
    }
  }

  lemma UndisturbedByName(inp: Inputs, registry: seq<Kind>, objects: Store)
    requires Usable(inp) && Ready(inp) && Available(objects, inp.namespace, inp.spec)
    ensures Undisturbed(inp, registry, objects) <==>
              forall name :: name in ReadNames(inp.spec) ==>
                forall kind :: ConfigMapKey(inp.namespace, name) == OwnKey(inp, kind) && IsPlaced(inp, kind) ==>
                  DataOf(objects[ConfigMapKey(inp.namespace, name)]) == WantedData(inp, registry, kind)
  {
  }

  lemma StoredIsAvailable(objects: Store, namespace: string, spec: BackstageSpec, got: seq<Resource>)
    requires AsStored(objects, namespace, ReadNames(spec), got)
    ensures Available(objects, namespace, spec)
  {
  }

  lemma ReadsSameExactly(inp: Inputs, registry: seq<Kind>, objects: Store, got: seq<Resource>, again: seq<Resource>)
    requires Usable(inp) && Ready(inp) && IsRegistry(registry)
    requires AsStored(objects, inp.namespace, ReadNames(inp.spec), got)
    requires AsStored(Settle(PlanOf(inp, registry), objects), inp.namespace, ReadNames(inp.spec), again)
    ensures SameData(got, again) <==> Undisturbed(inp, registry, objects)
  {
    var names, once := ReadNames(inp.spec), Settle(PlanOf(inp, registry), objects);
    StoredIsAvailable(objects, inp.namespace, inp.spec, got);
    UndisturbedByName(inp, registry, objects);
    forall name | name in names
      ensures var key := ConfigMapKey(inp.namespace, name);
              && key in once
              && (DataOf(once[key]) == DataOf(objects[key]) <==>
                    forall kind :: key == OwnKey(inp, kind) && IsPlaced(inp, kind) ==>
                      DataOf(objects[key]) == WantedData(inp, registry, kind))
    {
      NameReadsSame(inp, registry, objects, name);
    }
    SameDataByName(objects, once, inp.namespace, names, got, again);
  }

  lemma SameDataByName(objects: Store, once: Store, namespace: string, names: seq<string>, got: seq<Resource>,
                       again: seq<Resource>)
    requires AsStored(objects, namespace, names, got) && AsStored(once, namespace, names, again)
    ensures SameData(got, again) <==>
              forall name :: name in names ==>
                DataOf(once[ConfigMapKey(namespace, name)]) == DataOf(objects[ConfigMapKey(namespace, name)])
  {
    if SameData(got, again) {
      forall name | name in names
        ensures DataOf(once[ConfigMapKey(namespace, name)]) == DataOf(objects[ConfigMapKey(namespace, name)])
      {
        var i :| 0 <= i < |names| && names[i] == name;
        assert DataOf(got[i]) == DataOf(again[i]);
      }
    }
    if forall name :: name in names ==>
         DataOf(once[ConfigMapKey(namespace, name)]) == DataOf(objects[ConfigMapKey(namespace, name)])
    {
      forall i | 0 <= i < |got| ensures DataOf(got[i]) == DataOf(again[i]) {
        assert names[i] in names;
      }
    }
  }

  /**
   After a successful run, a second run that can read everything is given the same data exactly when the CR is
   undisturbed: wherever it names a ConfigMap that the first run applied, this already held what was applied.
   */
  lemma SecondRunReadsSame(t: Attempt, u: Attempt, objects: Store)
    requires Again(t, u) && Safe(t, objects) && Result(t, objects).ok && ReadsOf(u, Result(t, objects).objects).ok
    ensures ReadsOf(t, objects).ok && Usable(InputsOf(t, objects)) && Ready(InputsOf(t, objects))
    ensures SameData(ReadsOf(t, objects).got, ReadsOf(u, Result(t, objects).objects).got) <==>
              Undisturbed(InputsOf(t, objects), t.setup.registry, objects)
  {
    WhatWorked(t, objects);
    WhatIsRead(t, objects);
    WhatIsRead(u, Result(t, objects).objects);
    ReadsSameExactly(InputsOf(t, objects), t.setup.registry, objects, ReadsOf(t, objects).got,
                     ReadsOf(u, Result(t, objects).objects).got);
  }

  /** The run leaves what the builder uses of the CR's raw configuration as it was, as far as it gets. */
  ghost predicate KeepsItsRaw(t: Attempt, objects: Store) {
    ReadsOf(t, objects).ok && Usable(InputsOf(t, objects)) && Ready(InputsOf(t, objects)) ==>
      RawUnaffected(InputsOf(t, objects), t.setup.registry, objects)
  }

  /** The run leaves everything that the builder uses of the CR's ConfigMaps as it was, as far as it gets. */
  ghost predicate KeepsToItself(t: Attempt, objects: Store) {
    ReadsOf(t, objects).ok && Usable(InputsOf(t, objects)) && Ready(InputsOf(t, objects)) ==>
      && RawUnaffected(InputsOf(t, objects), t.setup.registry, objects)
      && FilesUnaffected(InputsOf(t, objects), t.setup.registry, objects)
  }

  /** The CR's raw configuration is no ConfigMap that the operator generates for it. */
  ghost predicate NamesNoRawOfItsOwn(backstage: Backstage) {
    forall name :: name in RawNames(backstage.spec) ==>
      !Owns(backstage.namespace, backstage.name, ConfigMapKey(backstage.namespace, name))
  }

  lemma NotApplied(t: Attempt, objects: Store, name: string, kind: Kind)
    requires ReadsOf(t, objects).ok
    requires !Owns(t.backstage.namespace, t.backstage.name, ConfigMapKey(t.backstage.namespace, name))
    ensures !AppliesTo(InputsOf(t, objects), name, kind)
  {
    assert OwnKey(InputsOf(t, objects), kind) == KeyOf(kind, t.backstage.namespace, t.backstage.name);
  }

  lemma OwnRawKept(t: Attempt, objects: Store)
    requires NamesNoRawOfItsOwn(t.backstage)
    ensures KeepsItsRaw(t, objects)
  {
    if ReadsOf(t, objects).ok && Usable(InputsOf(t, objects)) && Ready(InputsOf(t, objects)) {
      forall name, kind | name in RawNames(t.backstage.spec) ensures !AppliesTo(InputsOf(t, objects), name, kind) {
        NotApplied(t, objects, name, kind);
      }
    }
  }

  /** A CR that has no file of a ConfigMap of its own mounted, nor any as raw configuration, keeps to itself. */
  lemma NamingNoneKeepsToItself(t: Attempt, objects: Store)
    requires NamesNoneOfItsOwn(t.backstage)
    ensures KeepsToItself(t, objects)
  {
    forall name | name in RawNames(t.backstage.spec) ensures name in ReadNames(t.backstage.spec) {
    }
    OwnRawKept(t, objects);
    if ReadsOf(t, objects).ok && Usable(InputsOf(t, objects)) && Ready(InputsOf(t, objects)) {
      OwnFilesKept(t, objects);
    }
  }

  lemma OwnFilesKept(t: Attempt, objects: Store)
    requires NamesNoneOfItsOwn(t.backstage)
    requires ReadsOf(t, objects).ok && Usable(InputsOf(t, objects)) && Ready(InputsOf(t, objects))
    ensures FilesUnaffected(InputsOf(t, objects), t.setup.registry, objects)
  {
    forall r, kind | r in FileRefs(t.backstage.spec) ensures !AppliesTo(InputsOf(t, objects), r.name, kind) {
      FileRefIsRead(t.backstage.spec, r);
      NotApplied(t, objects, r.name, kind);
    }
  }

  lemma GivenFromStore(t: Attempt, objects: Store)
    requires ReadsOf(t, objects).ok
    ensures Resolves(objects, t.backstage.namespace, t.backstage.spec, InputsOf(t, objects).ext)
  {
    ReadsMatch(t.backstage, ReadsOf(t, objects).got);
    PreprocessResolves(objects, t.backstage.namespace, t.backstage.spec, t.faults, t.n + 1);
  }

  /** Both runs were given what their stores held. */
  lemma GivenFromStores(t: Attempt, u: Attempt, objects: Store)
    requires Again(t, u) && Safe(t, objects) && Result(t, objects).ok && ReadsOf(u, Result(t, objects).objects).ok
    ensures ReadsOf(t, objects).ok
    ensures ReadFrom(InputsOf(t, objects), InputsOf(u, Result(t, objects).objects), objects, Result(t, objects).objects)
  {
    WhatWorked(t, objects);
    GivenFromStore(t, objects);
    GivenFromStore(u, Result(t, objects).objects);
  }

  lemma WhatWasThere(t: Attempt, objects: Store)
    requires Safe(t, objects) && Result(t, objects).ok
    ensures Available(objects, t.backstage.namespace, t.backstage.spec)
  {
    WhatWorked(t, objects);
    WhatIsRead(t, objects);
    StoredIsAvailable(objects, t.backstage.namespace, t.backstage.spec, ReadsOf(t, objects).got);
  }

  /** A second run has the same manifests, if the first has left the CR's raw configuration alone. */
  lemma SecondManifests(t: Attempt, u: Attempt, objects: Store)
    requires Again(t, u) && Safe(t, objects) && Result(t, objects).ok && KeepsItsRaw(t, objects)
    requires ReadsOf(u, Result(t, objects).objects).ok
    ensures ReadsOf(t, objects).ok && Usable(InputsOf(t, objects)) && Ready(InputsOf(t, objects))
    ensures SameManifests(InputsOf(t, objects), InputsOf(u, Result(t, objects).objects))
  {
    WhatWorked(t, objects);
    WhatWasThere(t, objects);
    GivenFromStores(t, u, objects);
    RawAlikeExactly(InputsOf(t, objects), t.setup.registry, objects);
    ManifestsAlike(InputsOf(t, objects), InputsOf(u, Result(t, objects).objects), objects, Result(t, objects).objects);
  }

  lemma SecondInputs(t: Attempt, u: Attempt, objects: Store)
    requires Again(t, u) && Safe(t, objects) && Result(t, objects).ok && KeepsToItself(t, objects)
    requires ReadsOf(u, Result(t, objects).objects).ok
    ensures ReadsOf(t, objects).ok && Rebuilt(InputsOf(t, objects), InputsOf(u, Result(t, objects).objects))
    ensures Usable(InputsOf(t, objects)) && Ready(InputsOf(t, objects))
  {
    WhatWorked(t, objects);
    WhatWasThere(t, objects);
    GivenFromStores(t, u, objects);
    RawAlikeExactly(InputsOf(t, objects), t.setup.registry, objects);
    FilesAlikeExactly(InputsOf(t, objects), t.setup.registry, objects);
    InputsAlike(InputsOf(t, objects), InputsOf(u, Result(t, objects).objects), objects, Result(t, objects).objects);
  }

  /** The second run needs no more of the manifests than the first did. */
  lemma SecondRunIsSafe(t: Attempt, u: Attempt, objects: Store)
    requires Again(t, u) && Safe(t, objects) && Result(t, objects).ok && KeepsItsRaw(t, objects)
    ensures Safe(u, Result(t, objects).objects)
  {
    if ReadsOf(u, Result(t, objects).objects).ok {
      SecondManifests(t, u, objects);
      UsableRebuilt(InputsOf(t, objects), InputsOf(u, Result(t, objects).objects));
    }
  }

  /**
   Whole runs, preprocessing included, for a CR that names none of its own ConfigMaps, or only such as have the files
   that it asks for before and after: a second successful run, with its own password, faults and moment, leaves the
   whole cluster exactly as the first left it, when the map loops take the same orders.
   */
  lemma SecondRunIsIdle(t: Attempt, u: Attempt, objects: Store)
    requires Again(t, u) && u.order == t.order
    requires Safe(t, objects) && Result(t, objects).ok && KeepsToItself(t, objects)
    ensures Safe(u, Result(t, objects).objects)
    ensures var once := Result(t, objects).objects; Result(u, once).ok ==> Result(u, once).objects == once
  {
    var once := Result(t, objects).objects;
    SecondRunIsSafe(t, u, objects);
    if Result(u, once).ok {
      WhatWorked(t, objects);
      WhatWorked(u, once);
      SecondInputs(t, u, objects);
      SecondPlanIsIdle(InputsOf(t, objects), InputsOf(u, once), t.setup.registry, objects);
    }
  }

  /** In any loop orders the second run changes at most the fields of the Deployment, block by block in order only. */
  lemma SecondRunChangesLittle(t: Attempt, u: Attempt, objects: Store, key: Key)
    requires Again(t, u) && Safe(t, objects) && Result(t, objects).ok && KeepsToItself(t, objects)
    ensures Safe(u, Result(t, objects).objects)
    ensures var once := Result(t, objects).objects;
            Result(u, once).ok ==>
              && ReadsOf(t, objects).ok && ReadsOf(u, once).ok
              && Rebuilt(InputsOf(t, objects), InputsOf(u, once))
              && (key != KeyOf(DeploymentKind, t.backstage.namespace, t.backstage.name) ==>
                    SameAt(Result(u, once).objects, once, key))
              && (key == KeyOf(DeploymentKind, t.backstage.namespace, t.backstage.name) ==>
                    key in once && key in Result(u, once).objects
                    && Result(u, once).objects[key] == once[key].(fields := Result(u, once).objects[key].fields))
  {
    var once := Result(t, objects).objects;
    SecondRunIsSafe(t, u, objects);
    if Result(u, once).ok {
      WhatWorked(t, objects);
      WhatWorked(u, once);
      SecondInputs(t, u, objects);
      var a, b, registry := InputsOf(t, objects), InputsOf(u, once), t.setup.registry;
      if !Owns(a.namespace, a.name, key) {
        ForeignKeysStay(b, registry, once, key);
        NotOwnDeployment(a, key);
      } else {
        var kind :| key == KeyOf(kind, a.namespace, a.name);
        KeysAreInjective(kind, a.namespace, a.name, DeploymentKind, a.namespace, a.name);
        if kind == DeploymentKind {
          SecondPlanDeployment(a, b, registry, objects);
        } else {
          SecondPlanChangesNothing(a, b, registry, objects, kind);
        }
      }
    }
  }

  lemma NotOwnDeployment(inp: Inputs, key: Key)
    requires !Owns(inp.namespace, inp.name, key)
    ensures key != KeyOf(DeploymentKind, inp.namespace, inp.name)
  {
  }
}
