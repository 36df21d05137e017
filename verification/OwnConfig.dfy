/** A CR that lists the ConfigMap that the operator itself generates for it: its second run reads other data. */
module OwnConfig {
  import opened BackstageApi
  import opened Builder
  import opened Guarantees
  import opened Idempotence
  import opened Machine
  import opened Marshalling
  import opened Names
  import opened Objects
  import opened Plans
  import opened Pods
  import opened Preprocessing
  import opened Programs
  import opened Reconciling
  import opened Rereading
  import opened Resources
  import opened Samples
  import opened Sources
  import opened Uses
  import opened Wrappers

  const OWN_NAME := "a-backstage-appconfig"

  /** The CR "a", whose app-config list names OWN_NAME. */
  function Lister(): Backstage {
    var app := Application(Some(AppConfig("", [ObjectKeyRef(OWN_NAME, "")])), "", None, None, None, None, [], None);
    Backstage("ns", "a", SampleSpec(Some(app)), [])
  }

  /** The default app-config with its one file. */
  const DEFAULT_CONFIG: (Kind, Data) := (AppConfigKind, Some(map["x.yaml" := ""]))

  function ListerSetup(registry: seq<Kind>): Setup {
    Setup("", SampleOperator(map[], Some(DEFAULT_CONFIG)), registry)
  }

  function Held(): Resource {
    Resource(map[], map[], map[], map["data" := Strings(map["y.yaml" := ""])])
  }

  /** The cluster holds a ConfigMap of that name with another file. */
  function ListerStore(): Store { map[ConfigMapKey("ns", OWN_NAME) := Held()] }

  function ListerRun(registry: seq<Kind>, order: Order): Attempt {
    Attempt(ListerSetup(registry), Lister(), "", order, (k: nat) => Healthy, 0)
  }

  lemma ListerReads(registry: seq<Kind>, order: Order)
    ensures ReadsOf(ListerRun(registry, order), ListerStore()) == Read([Held()], true, 2)
  {
    var spec := Lister().spec;
    assert NamesIn(RefsOf(spec, AppConfigKind)) == [OWN_NAME] by {
      assert RefName(ObjectKeyRef(OWN_NAME, "")) == OWN_NAME;
    }
    assert ReadNames(spec) == [OWN_NAME];
    OneKey("ns", OWN_NAME);
    ReadStep(ListerStore(), [], ConfigMapKey("ns", OWN_NAME), (k: nat) => Healthy, 1);
    assert [] + [ConfigMapKey("ns", OWN_NAME)] == ReadKeys("ns", spec);
  }

  /** What the builder is given for this CR, whatever was read. */
  ghost predicate ForLister(inp: Inputs, registry: seq<Kind>) {
    && inp.namespace == "ns" && inp.name == "a" && inp.spec == Lister().spec
    && inp.operator == ListerSetup(registry).operator
  }

  lemma ListerSucceeds(inp: Inputs, registry: seq<Kind>)
    requires ForLister(inp, registry)
    ensures Usable(inp) && Succeeds(inp) && IsPlaced(inp, AppConfigKind)
    ensures Given(inp, AppConfigKind) == Some(SampleConfigMap(DEFAULT_CONFIG.1))
  {
    SampleSucceeds(inp, map[], Some(DEFAULT_CONFIG));
    SampleGiven(inp, map[], Some(DEFAULT_CONFIG), AppConfigKind);
  }

  lemma ListerWants(inp: Inputs, registry: seq<Kind>)
    requires ForLister(inp, registry)
    ensures Usable(inp) && Ready(inp) && IsPlaced(inp, AppConfigKind)
    ensures WantedData(inp, registry, AppConfigKind) == Some(map["x.yaml" := ""])
  {
    ListerSucceeds(inp, registry);
    DataReadsBack(PhaseTwo(inp, registry, AppConfigKind));
    assert "x.yaml" in map["x.yaml" := ""];
  }

  lemma HeldData()
    ensures DataOf(Held()) == Some(map["y.yaml" := ""])
  {
    StringsRoundTrip(map["y.yaml" := ""]);
  }

  lemma OwnKeyNamed(inp: Inputs)
    requires inp.namespace == "ns" && inp.name == "a"
    ensures ConfigMapKey("ns", OWN_NAME) == OwnKey(inp, AppConfigKind)
  {
  }

  lemma OwnNameRead()
    ensures OWN_NAME in ReadNames(Lister().spec)
  {
    assert NamesIn(RefsOf(Lister().spec, AppConfigKind))[0] == OWN_NAME by {
      NameAt(RefsOf(Lister().spec, AppConfigKind), 0);
    }
  }

  lemma StoredUnderOwnName()
    ensures DataAt(ListerStore(), "ns", OWN_NAME) == Some(map["y.yaml" := ""])
    ensures ConfigMapKey("ns", OWN_NAME) in ListerStore()
    ensures DataOf(ListerStore()[ConfigMapKey("ns", OWN_NAME)]) == Some(map["y.yaml" := ""])
  {
    HeldData();
  }

  lemma OtherFile()
    ensures Some(map["y.yaml" := ""]) != Some(map["x.yaml" := ""])
    ensures UseOf(Some(map["y.yaml" := ""]), "") != UseOf(Some(map["x.yaml" := ""]), "")
  {
    assert "y.yaml" in map["y.yaml" := ""] && "y.yaml" !in map["x.yaml" := ""];
    assert "y.yaml" in UseOf(Some(map["y.yaml" := ""]), "").names;
    assert "y.yaml" !in UseOf(Some(map["x.yaml" := ""]), "").names;
  }

  lemma ListerIsDisturbed(inp: Inputs, registry: seq<Kind>)
    requires ForLister(inp, registry)
    ensures Usable(inp) && Ready(inp) && !Undisturbed(inp, registry, ListerStore())
  {
    ListerWants(inp, registry);
    StoredUnderOwnName();
    OwnKeyNamed(inp);
    OwnNameRead();
    OtherFile();
  }

  lemma ListerRefs()
    ensures FileRefs(Lister().spec) == [ObjectKeyRef(OWN_NAME, "")] && RawNames(Lister().spec) == []
  {
    assert RefsOf(Lister().spec, ConfigMapFilesKind) == [] && PluginRefs(Lister().spec) == [];
  }

  lemma ListerIsAffected(inp: Inputs, registry: seq<Kind>)
    requires ForLister(inp, registry)
    ensures Usable(inp) && Ready(inp) && !FilesUnaffected(inp, registry, ListerStore())
  {
    ListerWants(inp, registry);
    StoredUnderOwnName();
    OwnKeyNamed(inp);
    OtherFile();
    ListerRefs();
    assert AppliesTo(inp, OWN_NAME, AppConfigKind);
    assert FileRefs(inp.spec)[0] in FileRefs(inp.spec);
  }

  lemma StoredAfterwards(inp: Inputs, registry: seq<Kind>)
    requires ForLister(inp, registry) && IsRegistry(registry)
    ensures Usable(inp) && Ready(inp)
    ensures DataAt(Settle(PlanOf(inp, registry), ListerStore()), "ns", OWN_NAME) == Some(map["x.yaml" := ""])
  {
    ListerWants(inp, registry);
    OwnKeyNamed(inp);
    StoredUnderOwnName();
    DataAtAfter(inp, registry, ListerStore(), OWN_NAME);
    assert AppliesTo(inp, OWN_NAME, AppConfigKind);
  }

  lemma OneNamedFile(objects: Store, file: string)
    requires file != "" && DataAt(objects, "ns", OWN_NAME) == Some(map[file := ""])
    ensures FilesAreNamed(objects, "ns", Lister().spec)
  {
    ListerRefs();
  }

  /** The first run exchanges the file under that name. */
  lemma ListerFiles(t: Attempt, inp: Inputs, registry: seq<Kind>)
    requires t == ListerRun(registry, t.order) && IsRegistry(registry) && ReadsOf(t, ListerStore()).ok
    requires inp == InputsOf(t, ListerStore()) && Safe(t, ListerStore()) && Result(t, ListerStore()).ok
    ensures NamedThroughout(t, ListerStore()) && !KeepsToItself(t, ListerStore())
    ensures NamesNoRawOfItsOwn(t.backstage)
  {
    WhatWorked(t, ListerStore());
    ListerRefs();
    ListerIsAffected(inp, registry);
    StoredUnderOwnName();
    StoredAfterwards(inp, registry);
    OneNamedFile(ListerStore(), "y.yaml");
    OneNamedFile(Result(t, ListerStore()).objects, "x.yaml");
  }

  /**
   The first run of this CR succeeds and overwrites what it has read. So the next run, when it can read, is given other
   data, and when it succeeds it changes the Deployment, although nothing was changed in between.
   */
  lemma OwnNameDisturbs(registry: seq<Kind>, order: Order, u: Attempt)
    requires IsRegistry(registry) && Again(ListerRun(registry, order), u) && u.order == order
    ensures var t := ListerRun(registry, order);
            Safe(t, ListerStore()) && Result(t, ListerStore()).ok
    ensures var once := Result(ListerRun(registry, order), ListerStore()).objects;
            && Safe(u, once)
            && (ReadsOf(u, once).ok ==>
                  !SameData(ReadsOf(ListerRun(registry, order), ListerStore()).got, ReadsOf(u, once).got))
            && (Result(u, once).ok ==>
                  var key := KeyOf(DeploymentKind, "ns", "a");
                  key in once && key in Result(u, once).objects && Result(u, once).objects[key] != once[key])
  {
    var t := ListerRun(registry, order);
    ListerReads(registry, order);
    var inp := InputsOf(t, ListerStore());
    ListerSucceeds(inp, registry);
    ListerIsDisturbed(inp, registry);
    ListerRunIsOk(t, inp, registry, order);
    var once := Result(t, ListerStore()).objects;
    ListerFiles(t, inp, registry);
    SecondRunIsIdleExactly(t, u, ListerStore());
    if ReadsOf(u, once).ok {
      SecondRunReadsSame(t, u, ListerStore());
    }
    if Result(u, once).ok {
      SecondRunChangesDeployment(t, u, ListerStore());
    }
  }

  lemma ListerRunIsOk(t: Attempt, inp: Inputs, registry: seq<Kind>, order: Order)
    requires t == ListerRun(registry, order) && ReadsOf(t, ListerStore()).ok && inp == InputsOf(t, ListerStore())
    requires Usable(inp) && Succeeds(inp)
    ensures Safe(t, ListerStore()) && Result(t, ListerStore()).ok
  {
    SuccessMeans(t.setup, t.backstage, t.password, t.order, ListerStore(), t.faults, t.n);
    FailsFast(t.setup, t.backstage, t.password, t.order, ListerStore(), t.faults, t.n);
  }
}
