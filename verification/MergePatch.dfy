/**
 JSON merge patch, section 2 of RFC 7396, and the difference that client.MergeFrom computes:
 the patch that turns one document into another.
 */
module MergePatch {

  datatype Json =
    | Null
    | Bool(b: bool)
    | Num(n: int)
    | Str(s: string)
    | Arr(items: seq<Json>)
    | Obj(members: map<string, Json>)

  /** The members of an object; everything else has none. */
  function Members(j: Json): map<string, Json> {
    if j.Obj? then j.members else map[]
  }

  function Get(m: map<string, Json>, k: string): Json {
    if k in m then m[k] else Null
  }

  /** The pseudo-code MergePatch(Target, Patch) of section 2 of RFC 7396. */
  function Patched(target: Json, patch: Json): Json
    decreases patch
  {
    if !patch.Obj? then patch else
      var t := Members(target);
      Obj(map k | k in t.Keys + patch.members.Keys && !(k in patch.members && patch.members[k] == Null)
            :: if k in patch.members then Patched(Get(t, k), patch.members[k]) else t[k])
  }

  /** The patch from base to want: changed members recursively, null for members that go away. */
  function Diff(base: Json, want: Json): Json
    decreases want
  {
    if !want.Obj? || !base.Obj? then want else
      var b, w := base.members, want.members;
      Obj(map k | k in b.Keys + w.Keys && !(k in b && k in w && b[k] == w[k])
            :: if k !in w then Null else if k in b then Diff(b[k], w[k]) else w[k])
  }

  /** No member of an object is null, at any depth below objects. */
  ghost predicate NullFree(j: Json) {
    j.Obj? ==> forall k :: k in j.members ==> j.members[k] != Null && NullFree(j.members[k])
  }

  /**
   Whether a merge patch can express the step from base to want: a null member
   of want must already be in base with the same value.
   */
  ghost predicate Expressible(base: Json, want: Json)
    decreases want
  {
    want.Obj? ==>
      var b := Members(base);
      forall k :: k in want.members ==>
        || (k in b && b[k] == want.members[k])
        || (want.members[k] != Null && Expressible(Get(b, k), want.members[k]))
  }

  lemma {:induction false} NullFreeExpressible(base: Json, want: Json)
    requires NullFree(want)
    ensures Expressible(base, want)
    decreases want
  {
    if want.Obj? {
      var b := Members(base);
      forall k | k in want.members ensures Expressible(Get(b, k), want.members[k]) {
        NullFreeExpressible(Get(b, k), want.members[k]);
      }
    }
  }

  /** Patching with a document where there was nothing builds that document exactly when it holds no null. */
  lemma {:induction false} PatchFromNothing(target: Json, want: Json)
    requires !target.Obj?
    ensures Patched(target, want) == want <==> Expressible(target, want)
    decreases want
  {
    if want.Obj? {
      var p := Patched(target, want);
      forall k | k in want.members
        ensures Patched(Null, want.members[k]) == want.members[k] <==> Expressible(Null, want.members[k])
      {
        PatchFromNothing(Null, want.members[k]);
      }
      if Expressible(target, want) {
        assert p.members == want.members;
      } else {
        var k :| k in want.members && !(want.members[k] != Null && Expressible(Null, want.members[k]));
        assert !(k in p.members && p.members[k] == want.members[k]);
      }
    }
  }

  /** The difference, applied to its own base, gives the wanted document exactly when a merge patch can express it. */
  lemma {:induction false} DiffThenPatch(base: Json, want: Json)
    ensures Patched(base, Diff(base, want)) == want <==> Expressible(base, want)
    decreases want
  {
    if !want.Obj? {
    } else if !base.Obj? {
      PatchFromNothing(base, want);
    } else {
      var b, w := base.members, want.members;
      var d, p := Diff(base, want), Patched(base, Diff(base, want));
      forall k | k in w && !(k in b && b[k] == w[k])
        ensures (k in p.members && p.members[k] == w[k]) <==> (w[k] != Null && Expressible(Get(b, k), w[k]))
      {
        if k in b { DiffThenPatch(b[k], w[k]); } else { PatchFromNothing(Null, w[k]); }
      }
      if Expressible(base, want) {
        assert p.members == w;
      } else {
        var k :| k in w && !(k in b && b[k] == w[k]) && !(w[k] != Null && Expressible(Get(b, k), w[k]));
        assert !(k in p.members && p.members[k] == w[k]);
      }
    }
  }

  /** Whatever a patch leaves is expressible from where it started. */
  lemma {:induction false} PatchedIsExpressible(base: Json, patch: Json)
    ensures Expressible(base, Patched(base, patch))
    decreases patch
  {
    if patch.Obj? {
      var b, after := Members(base), Patched(base, patch).members;
      forall k | k in after
        ensures (k in b && b[k] == after[k]) || (after[k] != Null && Expressible(Get(b, k), after[k]))
      {
        if k in patch.members {
          PatchedIsExpressible(Get(b, k), patch.members[k]);
        }
      }
    }
  }

  /** A step is expressible exactly when some merge patch takes it. */
  lemma ExpressibleExactly(base: Json, want: Json)
    ensures Expressible(base, want) <==> exists patch :: Patched(base, patch) == want
  {
    DiffThenPatch(base, want);
    if patch :| Patched(base, patch) == want {
      PatchedIsExpressible(base, patch);
    }
  }

  /** Sending the same patch twice is sending it once. */
  lemma {:induction false} PatchTwice(target: Json, patch: Json)
    ensures Patched(Patched(target, patch), patch) == Patched(target, patch)
    decreases patch
  {
    if patch.Obj? {
      var t, once := Members(target), Patched(target, patch);
      var twice := Patched(once, patch);
      forall k | k in patch.members && patch.members[k] != Null
        ensures Patched(Patched(Get(t, k), patch.members[k]), patch.members[k]) == Patched(Get(t, k), patch.members[k])
      {
        PatchTwice(Get(t, k), patch.members[k]);
      }
      assert twice.members == once.members;
    }
  }
}
