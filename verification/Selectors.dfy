/** Which pods the services and workloads of a built model select. */
module Selectors {
  import opened Builder
  import opened Names
  import opened Objects
  import opened Samples
  import opened Wrappers

  /** Every entry of the selector is among the labels. */
  predicate Selects(selector: Labels, labels: Labels) {
    forall k :: k in selector ==> k in labels && labels[k] == selector[k]
  }

  function LabelOf(kind: Kind, backstageName: string): string {
    if kind in {DbServiceKind, DbStatefulSetKind} then DbAppLabel(backstageName) else AppLabel(backstageName)
  }

  /** What the manifest says of selectors and pod labels beside the operator's own label. */
  function Unset(labels: Labels): Labels { labels - {APP_LABEL} }

  /** The operator's label decides together with all the other entries. */
  lemma LabelledSelects(selector: Labels, labels: Labels, v: string, w: string)
    ensures Selects(selector[APP_LABEL := v], labels[APP_LABEL := w]) <==> v == w && Selects(Unset(selector), labels)
  {
    var s, l := selector[APP_LABEL := v], labels[APP_LABEL := w];
    if Selects(s, l) {
      assert APP_LABEL in s;
      forall k | k in Unset(selector) ensures k in labels && labels[k] == selector[k] {
        assert k in s;
      }
    }
    if v == w && Selects(Unset(selector), labels) {
      forall k | k in s ensures k in l && l[k] == s[k] {
        assert k == APP_LABEL || k in Unset(selector);
      }
    }
  }

  lemma ServiceLabels(inp: Inputs, registry: seq<Kind>, kind: Kind)
    requires Usable(inp) && Ready(inp) && IsPlaced(inp, kind) && kind in {ServiceKind, DbServiceKind}
    ensures Given(inp, kind).Some? && Given(inp, kind).value.body.ServiceBody?
    ensures PhaseTwo(inp, registry, kind).body.selector
         == Given(inp, kind).value.body.selector[APP_LABEL := LabelOf(kind, inp.name)]
  {
  }

  lemma WorkloadBodyKept(inp: Inputs, registry: seq<Kind>, kind: Kind)
    requires Usable(inp) && Ready(inp) && IsPlaced(inp, kind) && kind in {DeploymentKind, DbStatefulSetKind}
    ensures var after, before := PhaseTwo(inp, registry, kind).body, PhaseOne(inp, kind).body;
            after.podLabels == before.podLabels && after.matchLabels == before.matchLabels
  {
  }

  lemma WorkloadLabelled(inp: Inputs, kind: Kind)
    requires Usable(inp) && IsPlaced(inp, kind) && kind in {DeploymentKind, DbStatefulSetKind}
    ensures Given(inp, kind).Some? && Given(inp, kind).value.body.WorkloadBody?
    ensures Given(inp, kind).value.body.matchLabels.Some?
    ensures PhaseOne(inp, kind).body == Labelled(kind, Given(inp, kind).value.body, inp.name)
  {
  }

  lemma WorkloadLabels(inp: Inputs, registry: seq<Kind>, kind: Kind)
    requires Usable(inp) && Ready(inp) && IsPlaced(inp, kind) && kind in {DeploymentKind, DbStatefulSetKind}
    ensures Given(inp, kind).Some? && Given(inp, kind).value.body.WorkloadBody?
    ensures Given(inp, kind).value.body.matchLabels.Some?
    ensures var body, given := PhaseTwo(inp, registry, kind).body, Given(inp, kind).value.body;
            && body.podLabels == given.podLabels[APP_LABEL := LabelOf(kind, inp.name)]
            && body.matchLabels == Some(given.matchLabels.value[APP_LABEL := LabelOf(kind, inp.name)])
  {
    WorkloadBodyKept(inp, registry, kind);
    WorkloadLabelled(inp, kind);
  }

  /** The selector in a service's manifest. */
  function SelectorGiven(inp: Inputs, service: Kind): Labels
    requires Usable(inp) && IsPlaced(inp, service) && service in {ServiceKind, DbServiceKind}
  {
    Given(inp, service).value.body.selector
  }

  /** The pod labels in a workload's manifest. */
  function PodLabelsGiven(inp: Inputs, workload: Kind): Labels
    requires Usable(inp) && IsPlaced(inp, workload) && workload in {DeploymentKind, DbStatefulSetKind}
  {
    Given(inp, workload).value.body.podLabels
  }

  /**
   Inside one CR a service selects the pods of a workload exactly when both are the database's or neither is, and every
   other entry of the selector in the service's manifest is on the pods of the workload's manifest.
   */
  lemma SelectorsAgree(inp: Inputs, registry: seq<Kind>, service: Kind, workload: Kind)
    requires Usable(inp) && Ready(inp) && IsPlaced(inp, service) && IsPlaced(inp, workload)
    requires service in {ServiceKind, DbServiceKind} && workload in {DeploymentKind, DbStatefulSetKind}
    ensures Selects(PhaseTwo(inp, registry, service).body.selector,
                    PhaseTwo(inp, registry, workload).body.podLabels) <==>
              && (service == DbServiceKind <==> workload == DbStatefulSetKind)
              && Selects(Unset(SelectorGiven(inp, service)), PodLabelsGiven(inp, workload))
  {
    ServiceLabels(inp, registry, service);
    WorkloadLabels(inp, registry, workload);
    AppLabelsCollide(inp.name, inp.name);
    LabelledSelects(SelectorGiven(inp, service), PodLabelsGiven(inp, workload), LabelOf(service, inp.name),
                    LabelOf(workload, inp.name));
  }

  /** A workload selects its own pods exactly when the other entries of its manifest's selector are on them. */
  lemma WorkloadSelectsItsPods(inp: Inputs, registry: seq<Kind>, workload: Kind)
    requires Usable(inp) && Ready(inp) && IsPlaced(inp, workload) && workload in {DeploymentKind, DbStatefulSetKind}
    ensures Given(inp, workload).Some? && Given(inp, workload).value.body.matchLabels.Some?
    ensures var body, given := PhaseTwo(inp, registry, workload).body, Given(inp, workload).value.body;
            && body.matchLabels.Some?
            && (Selects(body.matchLabels.value, body.podLabels) <==>
                  Selects(Unset(given.matchLabels.value), given.podLabels))
  {
    WorkloadLabels(inp, registry, workload);
    var given := Given(inp, workload).value.body;
    LabelledSelects(given.matchLabels.value, given.podLabels, LabelOf(workload, inp.name), LabelOf(workload, inp.name));
  }

  /** A service whose manifest selects pods by a tier, over a deployment whose manifest labels none. */
  function TierOnly(): Inputs {
    Inputs("ns", "a", SampleSpec(None), NO_EXTERNAL, SampleOperator(map["tier" := "web"], None), "", NoOrder())
  }

  lemma TierIsNoLabel()
    ensures !Selects(Unset(map["tier" := "web"]), map[])
  {
    assert "tier" in Unset(map["tier" := "web"]);
  }

  /** The builder accepts these manifests, and the finished Service selects none of the Deployment's pods. */
  lemma TierSelectsNone(registry: seq<Kind>)
    ensures Usable(TierOnly()) && Succeeds(TierOnly())
    ensures IsPlaced(TierOnly(), ServiceKind) && IsPlaced(TierOnly(), DeploymentKind)
    ensures !Selects(PhaseTwo(TierOnly(), registry, ServiceKind).body.selector,
                     PhaseTwo(TierOnly(), registry, DeploymentKind).body.podLabels)
  {
    SampleSucceeds(TierOnly(), map["tier" := "web"], None);
    SampleGiven(TierOnly(), map["tier" := "web"], None, ServiceKind);
    SampleGiven(TierOnly(), map["tier" := "web"], None, DeploymentKind);
    SelectorsAgree(TierOnly(), registry, ServiceKind, DeploymentKind);
    TierIsNoLabel();
  }
}
