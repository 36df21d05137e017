/** Runs without interference: what they leave behind, that they can be repeated, and that patches keep labels. */
module Convergence {
  import opened Machine
  import opened Names
  import opened Resources
  import opened Wrappers

  lemma AppliedRest(plan: Plan, i: nat, objects: Store)
    requires i < |plan.items|
    ensures Rest(plan, ApplyFrom(plan, i + 1), objects)
         == CleanedUp(plan.deletions, 0, SettleItems(plan.items, i + 1, objects))
  {
  }

  /** A served call keeps the run in step with what the whole run means. */
  ghost predicate Faithful(plan: Plan, pc: Pc, objects: Store, served: (Store, Reply))
    requires ValidPc(plan, pc) && !pc.Finished?
  {
    var next := Advance(plan, pc, served.1);
    InSync(plan, next, served.0) && Rest(plan, next, served.0) == Rest(plan, pc, objects) && next != Finished(false)
  }

  lemma ApplyingIsFaithful(plan: Plan, pc: Pc, objects: Store)
    requires ValidPc(plan, pc) && pc.Applying?
    ensures Faithful(plan, pc, objects, Serve(NextCall(plan, pc), objects))
  {
    AppliedRest(plan, pc.i, objects);
    AppliedRest(plan, pc.i, Settled(plan.items[pc.i], objects));
  }

  lemma CreatingIsFaithful(plan: Plan, pc: Pc, objects: Store)
    requires ValidPc(plan, pc) && InSync(plan, pc, objects) && pc.Creating?
    ensures Faithful(plan, pc, objects, Serve(NextCall(plan, pc), objects))
  {
    AppliedRest(plan, pc.i, Settled(plan.items[pc.i], objects));
  }

  lemma PatchingIsServed(plan: Plan, pc: Pc, objects: Store)
    requires Sendable(plan) && ValidPc(plan, pc) && InSync(plan, pc, objects) && pc.Patching?
    ensures Serve(NextCall(plan, pc), objects) == (Settled(plan.items[pc.i], objects), Done)
  {
    assert plan.items[pc.i] in plan.items;
    PatchSettles(plan.items[pc.i], pc.base, objects);
  }

  lemma PatchedIsFaithful(plan: Plan, pc: Pc, objects: Store, after: Store)
    requires ValidPc(plan, pc) && pc.Patching? && after == Settled(plan.items[pc.i], objects)
    ensures Faithful(plan, pc, objects, (after, Done))
  {
    AppliedRest(plan, pc.i, after);
  }

  lemma PatchingIsFaithful(plan: Plan, pc: Pc, objects: Store)
    requires Sendable(plan) && ValidPc(plan, pc) && InSync(plan, pc, objects) && pc.Patching?
    ensures Faithful(plan, pc, objects, Serve(NextCall(plan, pc), objects))
  {
    PatchingIsServed(plan, pc, objects);
    PatchedIsFaithful(plan, pc, objects, Settled(plan.items[pc.i], objects));
  }

  lemma CleaningIsFaithful(plan: Plan, pc: Pc, objects: Store)
    requires ValidPc(plan, pc) && pc.Cleaning?
    ensures Faithful(plan, pc, objects, Serve(NextCall(plan, pc), objects))
  {
    var after := objects - {plan.deletions[pc.j]};
    if plan.deletions[pc.j] !in objects {
      assert after == objects;
    }
    assert Rest(plan, CleanFrom(plan, pc.j + 1), after) == CleanedUp(plan.deletions, pc.j + 1, after);
    assert Rest(plan, pc, objects) == CleanedUp(plan.deletions, pc.j + 1, after);
  }

  lemma ServedStep(plan: Plan, pc: Pc, objects: Store)
    requires Sendable(plan) && ValidPc(plan, pc) && InSync(plan, pc, objects) && !pc.Finished?
    ensures Faithful(plan, pc, objects, Serve(NextCall(plan, pc), objects))
  {
    match pc
    case Applying(_) => ApplyingIsFaithful(plan, pc, objects);
    case Creating(_) => CreatingIsFaithful(plan, pc, objects);
    case Patching(_, _) => PatchingIsFaithful(plan, pc, objects);
    case Cleaning(_) => CleaningIsFaithful(plan, pc, objects);
  }

  /** A run succeeds exactly when it meets no fault, and then it has done what it means, whatever was there before. */
  lemma {:induction false} ExecMeans(plan: Plan, pc: Pc, objects: Store, faults: Faults, n: nat)
    requires Sendable(plan) && ValidPc(plan, pc) && InSync(plan, pc, objects) && pc != Finished(false)
    ensures var o := Exec(plan, pc, objects, faults, n);
            && (o.ok <==> forall k :: n <= k < o.calls ==> faults(k) == Healthy)
            && (o.ok ==> o.objects == Rest(plan, pc, objects))
    decreases Remaining(plan, pc)
  {
    if !pc.Finished? {
      var (after, reply) := ServeUnder(NextCall(plan, pc), objects, faults(n));
      var next := Advance(plan, pc, reply);
      StepsRunOut(plan, pc, reply);
      if faults(n) == Healthy {
        ServedStep(plan, pc, objects);
        ExecMeans(plan, next, after, faults, n + 1);
      } else {
        assert next == Finished(false);
      }
    }
  }

  lemma RunMeans(plan: Plan, objects: Store, faults: Faults, n: nat)
    requires Sendable(plan)
    ensures var o := Exec(plan, Start(plan), objects, faults, n);
            && (o.ok <==> forall k :: n <= k < o.calls ==> faults(k) == Healthy)
            && (o.ok ==> o.objects == Settle(plan, objects))
  {
    assert Rest(plan, Start(plan), objects) == Settle(plan, objects);
    ExecMeans(plan, Start(plan), objects, faults, n);
  }

  ghost predicate KeysDistinct(items: seq<Item>) {
    forall i, j :: 0 <= i < j < |items| ==> items[i].key != items[j].key
  }

  /** The same entry, or no entry, in both maps. */
  ghost predicate SameAt(a: Store, b: Store, key: Key) {
    (key in a <==> key in b) && (key in a ==> a[key] == b[key])
  }

  lemma {:induction false} SettleOthers(items: seq<Item>, i: nat, objects: Store, key: Key)
    requires i <= |items| && forall k :: i <= k < |items| ==> items[k].key != key
    ensures SameAt(SettleItems(items, i, objects), objects, key)
    decreases |items| - i
  {
    if i < |items| {
      SettleOthers(items, i + 1, Settled(items[i], objects), key);
    }
  }

  lemma SettledDependsOnKey(item: Item, a: Store, b: Store)
    requires SameAt(a, b, item.key)
    ensures SameAt(Settled(item, a), Settled(item, b), item.key)
  {
  }

  lemma {:induction false} SettleOwn(items: seq<Item>, i: nat, objects: Store, k: nat)
    requires KeysDistinct(items) && i <= k < |items|
    ensures SameAt(SettleItems(items, i, objects), Settled(items[k], objects), items[k].key)
    decreases |items| - i
  {
    var after := Settled(items[i], objects);
    if i < k {
      SettleOwn(items, i + 1, after, k);
      SettledDependsOnKey(items[k], after, objects);
    } else {
      SettleOthers(items, i + 1, after, items[k].key);
    }
  }

  lemma {:induction false} CleanedAt(deletions: seq<Key>, j: nat, objects: Store, key: Key)
    requires j <= |deletions|
    ensures key in deletions[j..] ==> key !in CleanedUp(deletions, j, objects)
    ensures key !in deletions[j..] ==> SameAt(CleanedUp(deletions, j, objects), objects, key)
    ensures key !in objects ==> key !in CleanedUp(deletions, j, objects)
    decreases |deletions| - j
  {
    if j < |deletions| {
      CleanedAt(deletions, j + 1, objects - {deletions[j]}, key);
      assert deletions[j..] == [deletions[j]] + deletions[j + 1..];
    }
  }

  /** What the wanted object becomes over what was there. */
  function Merged(item: Item, was: Option<Resource>): Resource {
    if was.None? then item.want
    else match item.how
      case CreateOnly => was.value
      case CreateOrPatch => Overlaid(was.value, item.want)
      case ReadFirst => Restored(item.want, was.value)
  }

  function At(objects: Store, key: Key): Option<Resource> {
    if key in objects then Some(objects[key]) else None
  }

  /**
   After a successful run, from any state that earlier runs, faults and other writers may have left, key by key:
   deleted keys are gone, applied keys hold the wanted object over what was there, all other keys are as before.
   */
  lemma SettleAt(plan: Plan, objects: Store, key: Key)
    requires KeysDistinct(plan.items)
    ensures key in plan.deletions ==> At(Settle(plan, objects), key) == None
    ensures key !in plan.deletions ==>
              && (forall k :: 0 <= k < |plan.items| && plan.items[k].key == key ==>
                    At(Settle(plan, objects), key) == Some(Merged(plan.items[k], At(objects, key))))
              && ((forall k :: 0 <= k < |plan.items| ==> plan.items[k].key != key) ==>
                    At(Settle(plan, objects), key) == At(objects, key))
  {
    var applied := SettleItems(plan.items, 0, objects);
    assert plan.deletions[0..] == plan.deletions;
    CleanedAt(plan.deletions, 0, applied, key);
    if forall k :: 0 <= k < |plan.items| ==> plan.items[k].key != key {
      SettleOthers(plan.items, 0, objects, key);
    } else {
      forall k | 0 <= k < |plan.items| && plan.items[k].key == key
        ensures At(applied, key) == Some(Merged(plan.items[k], At(objects, key)))
      {
        SettleOwn(plan.items, 0, objects, k);
      }
    }
  }

  lemma RestoredMapTwice(want: map<string, string>, base: map<string, string>)
    ensures RestoredMap(want, RestoredMap(want, base)) == RestoredMap(want, base)
  {
  }

  /** Applying a wanted object a second time changes nothing but what is now wanted otherwise beside the metadata. */
  lemma MergedTwice(item: Item, again: Item, was: Option<Resource>)
    requires NullFreeResource(item.want) && again == item.(want := again.want)
    requires again.want == item.want.(fields := again.want.fields)
    ensures var once := Merged(item, was);
            Merged(again, Some(once)) ==
              if item.how == CreateOnly then once
              else if again.want == item.want then once
              else if item.how == CreateOrPatch then Overlaid(once, again.want)
              else once.(fields := again.want.fields)
  {
    RestoredMapTwice(item.want.labels, map[]);
    RestoredMapTwice(item.want.annotations, map[]);
    if was.Some? {
      OverlaidTwice(was.value, item.want);
      RestoredMapTwice(item.want.labels, was.value.labels);
      RestoredMapTwice(item.want.annotations, was.value.annotations);
    } else {
      OverlaidTwice(item.want, item.want);
      RestoredSelf(item.want.labels);
      RestoredSelf(item.want.annotations);
    }
  }

  lemma RestoredSelf(m: map<string, string>)
    ensures RestoredMap(m, m) == m
  {
  }

  /**
   No patch that a run sends, in any state of the run, drops a label or an annotation, even one that another writer
   added after the run read the object: it adds to the live map the entries that differ from what was read.
   */
  lemma PatchKeepsLabels(plan: Plan, pc: Pc, live: Resource)
    requires ValidPc(plan, pc) && pc.Patching?
    ensures NextCall(plan, pc).PatchObject?
    ensures var after := ApplyPatch(live, NextCall(plan, pc).patch);
            var want := Restored(plan.items[pc.i].want, pc.base);
            && after.labels == live.labels + Changed(pc.base.labels, want.labels)
            && after.annotations == live.annotations + Changed(pc.base.annotations, want.annotations)
            && live.labels.Keys <= after.labels.Keys && live.annotations.Keys <= after.annotations.Keys
  {
    LabelsSurvivePatch(live, pc.base, Restored(plan.items[pc.i].want, pc.base));
  }
}
