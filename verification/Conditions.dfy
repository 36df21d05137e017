/** The status conditions of a CR over one run. */
module Conditions {
  import opened BackstageApi

  /** meta.SetStatusCondition: the first condition of the type is overwritten, or a new one appended. */
  function SetCondition(conditions: seq<Condition>, c: Condition): seq<Condition> {
    if conditions == [] then [c]
    else if conditions[0].conditionType == c.conditionType then [c] + conditions[1..]
    else [conditions[0]] + SetCondition(conditions[1..], c)
  }

  const IN_PROGRESS := Condition(DEPLOYED_TYPE, ConditionFalse, DeployInProgress)
  const DEPLOYED := Condition(DEPLOYED_TYPE, ConditionTrue, Deployed)
  const FAILED := Condition(DEPLOYED_TYPE, ConditionFalse, DeployFailed)

  /** The conditions that a run starts with. */
  function BegunConditions(conditions: seq<Condition>): seq<Condition> {
    if conditions == [] then [IN_PROGRESS] else conditions
  }

  /** The conditions a run means to store. */
  function FinalConditions(conditions: seq<Condition>, ok: bool): seq<Condition> {
    SetCondition(BegunConditions(conditions), if ok then DEPLOYED else FAILED)
  }

  predicate OfDeployed(c: Condition) { c.conditionType == "Deployed" }

  function DeployedOnes(conditions: seq<Condition>): seq<Condition> {
    if conditions == [] then []
    else (if OfDeployed(conditions[0]) then [conditions[0]] else []) + DeployedOnes(conditions[1..])
  }

  function OtherOnes(conditions: seq<Condition>): seq<Condition> {
    if conditions == [] then []
    else (if OfDeployed(conditions[0]) then [] else [conditions[0]]) + OtherOnes(conditions[1..])
  }

  /** Some condition says, by its type and its status, that the CR is deployed. */
  ghost predicate SayDeployed(conditions: seq<Condition>) {
    exists c :: c in conditions && c.conditionType == "Deployed" && c.status == ConditionTrue
  }

  lemma {:induction false} DeployedOnesAre(conditions: seq<Condition>)
    ensures forall c :: c in DeployedOnes(conditions) <==> c in conditions && OfDeployed(c)
  {
    if conditions != [] {
      DeployedOnesAre(conditions[1..]);
      assert conditions == [conditions[0]] + conditions[1..];
    }
  }

  lemma OneSaysIt(conditions: seq<Condition>)
    requires |DeployedOnes(conditions)| == 1
    ensures SayDeployed(conditions) <==> DeployedOnes(conditions)[0].status == ConditionTrue
  {
    var ones := DeployedOnes(conditions);
    DeployedOnesAre(conditions);
    assert ones == [ones[0]] && ones[0] in ones;
  }

  /** Setting a condition replaces the one of its type and leaves the others alone. */
  lemma {:induction false} SetOnce(conditions: seq<Condition>, c: Condition)
    requires |DeployedOnes(conditions)| <= 1 && OfDeployed(c)
    ensures DeployedOnes(SetCondition(conditions, c)) == [c]
    ensures OtherOnes(SetCondition(conditions, c)) == OtherOnes(conditions)
  {
    if conditions == [] {
    } else if OfDeployed(conditions[0]) {
      var after := [c] + conditions[1..];
      assert after[1..] == conditions[1..];
      assert DeployedOnes(conditions[1..]) == [];
    } else {
      SetOnce(conditions[1..], c);
      var after := [conditions[0]] + SetCondition(conditions[1..], c);
      assert after[1..] == SetCondition(conditions[1..], c);
    }
  }

  /** A run that has begun does not yet say anything new. */
  lemma BegunTruthfully(conditions: seq<Condition>)
    requires |DeployedOnes(conditions)| <= 1
    ensures var begun := BegunConditions(conditions);
            && |DeployedOnes(begun)| <= 1 && OtherOnes(begun) == OtherOnes(conditions)
            && (SayDeployed(begun) <==> SayDeployed(conditions))
  {
    if conditions == [] {
      assert [IN_PROGRESS][1..] == [];
    }
  }

  /**
   A CR with at most one Deployed condition ends its run with exactly one. Its status is true exactly when the run had
   no error, its reason says which it was, and the other conditions stay.
   */
  lemma TruthfulConditions(conditions: seq<Condition>, ok: bool)
    requires |DeployedOnes(conditions)| <= 1
    ensures var after := FinalConditions(conditions, ok);
            && |DeployedOnes(after)| == 1 && DeployedOnes(after)[0].conditionType == "Deployed"
            && (DeployedOnes(after)[0].status == ConditionTrue <==> ok)
            && DeployedOnes(after)[0].reason == (if ok then Deployed else DeployFailed)
            && OtherOnes(after) == OtherOnes(conditions)
            && (SayDeployed(after) <==> ok)
  {
    BegunTruthfully(conditions);
    SetOnce(BegunConditions(conditions), if ok then DEPLOYED else FAILED);
    OneSaysIt(FinalConditions(conditions, ok));
  }

  /** A run that ends in a panic leaves a first status that says that the deployment has only begun. */
  lemma FirstStatus()
    ensures |BegunConditions([])| == 1
    ensures var c := BegunConditions([])[0];
            c.conditionType == "Deployed" && c.status == ConditionFalse && c.reason == DeployInProgress
  {
  }
}
