/**
 One run of the reconciler after its model is built, as a machine that makes one API call a step: apply every object,
 then clean. Each call may be served, refused, or served with its reply lost.
 */
module Machine {
  import opened MergePatch
  import opened Names
  import opened Resources

  type Store = map<Key, Resource>

  datatype Fault = Healthy | Refused | LostReply

  datatype Call =
    | GetObject(key: Key)
    | CreateObject(key: Key, resource: Resource)
    | PatchObject(key: Key, patch: Json)
    | DeleteObject(key: Key)

  datatype Reply = Found(resource: Resource) | Done | NotFound | AlreadyExists | Failure

  /** What the API server does with a call that reaches it. */
  function Serve(call: Call, objects: Store): (Store, Reply) {
    match call
    case GetObject(key) => (objects, if key in objects then Found(objects[key]) else NotFound)
    case CreateObject(key, r) => if key in objects then (objects, AlreadyExists) else (objects[key := r], Done)
    case PatchObject(key, patch) =>
      if key in objects then (objects[key := ApplyPatch(objects[key], patch)], Done) else (objects, NotFound)
    case DeleteObject(key) => if key in objects then (objects - {key}, Done) else (objects, NotFound)
  }

  function ServeUnder(call: Call, objects: Store, fault: Fault): (Store, Reply) {
    match fault
    case Healthy => Serve(call, objects)
    case Refused => (objects, Failure)
    case LostReply => (Serve(call, objects).0, Failure)
  }

  /** A call whose reply is lost has been served all the same; one that is refused has not. */
  lemma LostReplyIsServed(call: Call, objects: Store)
    ensures ServeUnder(call, objects, LostReply) == (Serve(call, objects).0, Failure)
    ensures ServeUnder(call, objects, Refused) == (objects, Failure)
    ensures call.CreateObject? && call.key !in objects ==>
              ServeUnder(call, objects, LostReply).0 == objects[call.key := call.resource]
  {
  }

  /** Secrets are not read: the DB secret is only ever created, other secrets are created or patched blindly. */
  datatype Treatment = ReadFirst | CreateOrPatch | CreateOnly

  /** An object to apply. */
  datatype Item = Item(key: Key, want: Resource, how: Treatment)

  datatype Plan = Plan(items: seq<Item>, deletions: seq<Key>)

  datatype Pc =
    | Applying(i: nat)                    // about to read, or for a secret to create, object i
    | Creating(i: nat)                    // object i was not found
    | Patching(i: nat, base: Resource)    // object i was found to be base; a secret counts as found empty
    | Cleaning(j: nat)
    | Finished(ok: bool)

  predicate ValidPc(plan: Plan, pc: Pc) {
    match pc
    case Applying(i) => i < |plan.items|
    case Creating(i) => i < |plan.items| && plan.items[i].how == ReadFirst
    case Patching(i, base) =>
      i < |plan.items| && plan.items[i].how != CreateOnly && (plan.items[i].how == CreateOrPatch ==> base == EMPTY)
    case Cleaning(j) => j < |plan.deletions|
    case Finished(_) => true
  }

  function CleanFrom(plan: Plan, j: nat): Pc {
    if j < |plan.deletions| then Cleaning(j) else Finished(true)
  }

  function ApplyFrom(plan: Plan, i: nat): Pc {
    if i < |plan.items| then Applying(i) else CleanFrom(plan, 0)
  }

  function NextCall(plan: Plan, pc: Pc): Call
    requires ValidPc(plan, pc) && !pc.Finished?
  {
    match pc
    case Applying(i) =>
      var item := plan.items[i];
      if item.how == ReadFirst then GetObject(item.key) else CreateObject(item.key, item.want)
    case Creating(i) => CreateObject(plan.items[i].key, plan.items[i].want)
    case Patching(i, base) =>
      PatchObject(plan.items[i].key, MergeFrom(base, Restored(plan.items[i].want, base)))
    case Cleaning(j) => DeleteObject(plan.deletions[j])
  }

  /** How the run goes on after a reply: any error but the expected ones ends it. */
  function Advance(plan: Plan, pc: Pc, reply: Reply): (next: Pc)
    requires ValidPc(plan, pc) && !pc.Finished?
    ensures ValidPc(plan, next)
  {
    match pc
    case Applying(i) =>
      if plan.items[i].how == ReadFirst then (
        match reply
        case Found(base) => Patching(i, base)
        case NotFound => Creating(i)
        case _ => Finished(false))
      else (
        match reply
        case Done => ApplyFrom(plan, i + 1)
        case AlreadyExists => if plan.items[i].how == CreateOnly then ApplyFrom(plan, i + 1) else Patching(i, EMPTY)
        case _ => Finished(false))
    case Creating(i) => if reply.Done? then ApplyFrom(plan, i + 1) else Finished(false)
    case Patching(i, _) => if reply.Done? then ApplyFrom(plan, i + 1) else Finished(false)
    case Cleaning(j) => if reply.Done? || reply.NotFound? then CleanFrom(plan, j + 1) else Finished(false)
  }

  /** How many calls a run can still make. */
  function Remaining(plan: Plan, pc: Pc): nat
    requires ValidPc(plan, pc)
  {
    match pc
    case Applying(i) => 2 * (|plan.items| - i) + |plan.deletions|
    case Creating(i) => 2 * (|plan.items| - i) + |plan.deletions| - 1
    case Patching(i, _) => 2 * (|plan.items| - i) + |plan.deletions| - 1
    case Cleaning(j) => |plan.deletions| - j
    case Finished(_) => 0
  }

  /** Every step brings the run nearer to its end. */
  lemma StepsRunOut(plan: Plan, pc: Pc, reply: Reply)
    requires ValidPc(plan, pc) && !pc.Finished?
    ensures Remaining(plan, Advance(plan, pc, reply)) < Remaining(plan, pc)
  {
  }

  /** Which faults the calls of a run meet, by the number of the call. */
  type Faults = nat -> Fault

  datatype Outcome = Outcome(objects: Store, ok: bool, calls: nat)

  /** A run from pc to its end with nobody else at work; n calls were made before. */
  function Exec(plan: Plan, pc: Pc, objects: Store, faults: Faults, n: nat): (o: Outcome)
    requires ValidPc(plan, pc)
    ensures o.calls >= n
    decreases Remaining(plan, pc)
  {
    if pc.Finished? then Outcome(objects, pc.ok, n) else
      var (after, reply) := ServeUnder(NextCall(plan, pc), objects, faults(n));
      StepsRunOut(plan, pc, reply);
      Exec(plan, Advance(plan, pc, reply), after, faults, n + 1)
  }

  function Start(plan: Plan): (pc: Pc)
    ensures ValidPc(plan, pc)
  {
    ApplyFrom(plan, 0)
  }

  /** What applying one object means for its key. */
  function Settled(item: Item, objects: Store): Store {
    if item.key !in objects then objects[item.key := item.want]
    else match item.how
      case CreateOnly => objects
      case CreateOrPatch => objects[item.key := Overlaid(objects[item.key], item.want)]
      case ReadFirst => objects[item.key := Restored(item.want, objects[item.key])]
  }

  function SettleItems(items: seq<Item>, i: nat, objects: Store): Store
    requires i <= |items|
    decreases |items| - i
  {
    if i == |items| then objects else SettleItems(items, i + 1, Settled(items[i], objects))
  }

  function CleanedUp(deletions: seq<Key>, j: nat, objects: Store): Store
    requires j <= |deletions|
    decreases |deletions| - j
  {
    if j == |deletions| then objects else CleanedUp(deletions, j + 1, objects - {deletions[j]})
  }

  /** What a whole run means, without calls and faults. */
  function Settle(plan: Plan, objects: Store): Store {
    CleanedUp(plan.deletions, 0, SettleItems(plan.items, 0, objects))
  }

  /** What the operator sends can be expressed by merge patches. */
  ghost predicate Sendable(plan: Plan) {
    forall item :: item in plan.items ==> NullFreeResource(item.want)
  }

  /** What is left of a run at pc, without calls and faults. */
  function Rest(plan: Plan, pc: Pc, objects: Store): Store
    requires ValidPc(plan, pc)
  {
    match pc
    case Applying(i) => CleanedUp(plan.deletions, 0, SettleItems(plan.items, i, objects))
    case Creating(i) => CleanedUp(plan.deletions, 0, SettleItems(plan.items, i, objects))
    case Patching(i, _) => CleanedUp(plan.deletions, 0, SettleItems(plan.items, i, objects))
    case Cleaning(j) => CleanedUp(plan.deletions, j, objects)
    case Finished(_) => objects
  }

  /** With nobody else at work, what was read last is still so. */
  ghost predicate InSync(plan: Plan, pc: Pc, objects: Store)
    requires ValidPc(plan, pc)
  {
    match pc
    case Creating(i) => plan.items[i].key !in objects
    case Patching(i, base) =>
      plan.items[i].key in objects && (plan.items[i].how == ReadFirst ==> base == objects[plan.items[i].key])
    case _ => true
  }

  lemma RestoredIsNullFree(want: Resource, base: Resource)
    requires NullFreeResource(want)
    ensures NullFreeResource(Restored(want, base))
  {
  }

  lemma RestoredOfEmpty(want: Resource)
    ensures Restored(want, EMPTY) == want
  {
    assert RestoredMap(want.labels, map[]) == want.labels;
    assert RestoredMap(want.annotations, map[]) == want.annotations;
  }

  lemma PatchSettles(item: Item, base: Resource, objects: Store)
    requires NullFreeResource(item.want) && item.key in objects && item.how != CreateOnly
    requires if item.how == CreateOrPatch then base == EMPTY else base == objects[item.key]
    ensures objects[item.key := ApplyPatch(objects[item.key], MergeFrom(base, Restored(item.want, base)))]
         == Settled(item, objects)
  {
    if item.how == CreateOrPatch {
      RestoredOfEmpty(item.want);
      BlindPatch(objects[item.key], item.want);
    } else {
      RestoredIsNullFree(item.want, base);
      PatchArrives(base, Restored(item.want, base));
    }
  }
}
