/** The API server as the reconciler reaches it: every call may be served, refused, or served with its reply lost. */
module ClusterApi {
  import opened BackstageApi
  import opened Machine
  import opened Names
  import opened Resources

  datatype BackstageReply = Loaded(backstage: Backstage) | Gone | Unavailable

  class Cluster {
    var objects: Store
    var backstages: map<Cr, Backstage>
    var calls: nat
    const faults: Faults
    ghost var sent: seq<Call>    // every call on objects so far

    constructor (objects: Store, backstages: map<Cr, Backstage>, faults: Faults)
      ensures this.objects == objects && this.backstages == backstages && this.faults == faults
      ensures calls == 0 && sent == []
    {
      this.objects, this.backstages, this.faults, calls := objects, backstages, faults, 0;
      sent := [];
    }

    /** The call, under whatever fault is due. */
    method Perform(call: Call) returns (reply: Reply)
      modifies `objects, `calls, `sent
      ensures sent == old(sent) + [call]
      ensures (objects, reply) == ServeUnder(call, old(objects), faults(old(calls)))
      ensures calls == old(calls) + 1
    {
      var fault := faults(calls);
      calls := calls + 1;
      sent := sent + [call];
      if fault == Refused {
        return Failure;
      }
      match call {
        case GetObject(key) =>
          reply := if key in objects then Found(objects[key]) else NotFound;
        case CreateObject(key, r) =>
          if key in objects {
            reply := AlreadyExists;
          } else {
            objects := objects[key := r];
            reply := Done;
          }
        case PatchObject(key, patch) =>
          if key in objects {
            objects := objects[key := ApplyPatch(objects[key], patch)];
            reply := Done;
          } else {
            reply := NotFound;
          }
        case DeleteObject(key) =>
          if key in objects {
            objects := objects - {key};
            reply := Done;
          } else {
            reply := NotFound;
          }
      }
      if fault == LostReply {
        reply := Failure;
      }
    }

    method GetBackstage(cr: Cr) returns (reply: BackstageReply)
      modifies `calls
      ensures calls == old(calls) + 1
      ensures reply == if faults(old(calls)) != Healthy then Unavailable
                       else if cr in backstages then Loaded(backstages[cr]) else Gone
    {
      var fault := faults(calls);
      calls := calls + 1;
      if fault != Healthy {
        return Unavailable;
      }
      reply := if cr in backstages then Loaded(backstages[cr]) else Gone;
    }

    /** Status().Update: only the conditions are written; a conflict or any other error is logged and forgotten. */
    method UpdateStatus(cr: Cr, conditions: seq<Condition>)
      modifies `backstages, `calls
      ensures calls == old(calls) + 1
      ensures backstages == WithStatus(old(backstages), cr, conditions, faults(old(calls)))
    {
      var fault := faults(calls);
      calls := calls + 1;
      if fault != Refused && cr in backstages {
        backstages := backstages[cr := backstages[cr].(conditions := conditions)];
      }
    }
  }

  /** What a status update leaves. */
  function WithStatus(backstages: map<Cr, Backstage>, cr: Cr, conditions: seq<Condition>, fault: Fault)
    : map<Cr, Backstage>
  {
    if fault == Refused || cr !in backstages then backstages
    else backstages[cr := backstages[cr].(conditions := conditions)]
  }
}
