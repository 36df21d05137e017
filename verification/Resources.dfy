/**
 What the API server stores, and the two ways in which the reconciler patches it.
 A resource is a typed object; labels and annotations are kept apart because the
 reconciler restores them. Patches travel as JSON.
 */
module Resources {
  import opened MergePatch

  datatype ResourceData = Resource(
    labels: map<string, string>,
    annotations: map<string, string>,
    meta: map<string, Json>,    // the other members of "metadata"
    fields: map<string, Json>)  // the members beside "metadata"

  predicate WellFormed(r: ResourceData) {
    && "labels" !in r.meta
    && "annotations" !in r.meta
    && "metadata" !in r.fields
  }

  type Resource = r: ResourceData | WellFormed(r) witness Resource(map[], map[], map[], map[])

  const EMPTY: Resource := Resource(map[], map[], map[], map[])

  function Strings(m: map<string, string>): Json {
    Obj(map k | k in m :: Str(m[k]))
  }

  function StringsOf(j: Json): map<string, string> {
    map k | k in Members(j) && Members(j)[k].Str? :: Members(j)[k].s
  }

  /** Marshalling leaves out empty maps, as the omitempty tags of ObjectMeta say. */
  function EncodeMeta(r: Resource): map<string, Json> {
    r.meta
    + (if r.labels == map[] then map[] else map["labels" := Strings(r.labels)])
    + (if r.annotations == map[] then map[] else map["annotations" := Strings(r.annotations)])
  }

  function Encode(r: Resource): Json {
    Obj(r.fields["metadata" := Obj(EncodeMeta(r))])
  }

  function Decode(j: Json): Resource {
    var m := Members(j);
    var meta := Members(Get(m, "metadata"));
    Resource(StringsOf(Get(meta, "labels")), StringsOf(Get(meta, "annotations")),
             meta - {"labels", "annotations"}, m - {"metadata"})
  }

  /** The server applies a patch to the document it holds. */
  function ApplyPatch(live: Resource, patch: Json): Resource {
    Decode(Patched(Encode(live), patch))
  }

  /** client.MergeFrom(base) for obj. */
  function MergeFrom(base: Resource, obj: Resource): Json {
    Diff(Encode(base), Encode(obj))
  }

  /** The entry of base wins where the wanted map has none or an empty one. */
  function RestoredMap(want: map<string, string>, base: map<string, string>): (r: map<string, string>)
    ensures r.Keys == want.Keys + base.Keys
    ensures forall k :: k in want && (want[k] != "" || k !in base) ==> r[k] == want[k]
    ensures forall k :: k in base && (k !in want || want[k] == "") ==> r[k] == base[k]
  {
    map k | k in want.Keys + base.Keys ::
      if k in want && (want[k] != "" || k !in base) then want[k] else base[k]
  }

  /** patchObject keeps the labels and annotations that the live object had. */
  function Restored(want: Resource, base: Resource): Resource {
    want.(labels := RestoredMap(want.labels, base.labels),
          annotations := RestoredMap(want.annotations, base.annotations))
  }

  /** What a Go object marshals to holds no null member. */
  ghost predicate NullFreeResource(r: Resource) {
    && (forall k :: k in r.meta ==> r.meta[k] != Null && NullFree(r.meta[k]))
    && (forall k :: k in r.fields ==> r.fields[k] != Null && NullFree(r.fields[k]))
  }

  lemma {:induction false} StringsRoundTrip(m: map<string, string>)
    ensures StringsOf(Strings(m)) == m
    ensures NullFree(Strings(m))
  {
  }

  /** Where the parts of a resource are in its document. */
  lemma DocumentOf(r: Resource)
    ensures var m := Members(Encode(r));
            var metadata := Members(Get(m, "metadata"));
            && StringsOf(Get(metadata, "labels")) == r.labels
            && StringsOf(Get(metadata, "annotations")) == r.annotations
            && (forall k :: k !in {"labels", "annotations"} ==> Get(metadata, k) == Get(r.meta, k))
            && (forall k :: k != "metadata" ==> Get(m, k) == Get(r.fields, k))
  {
    MetaRoundTrip(r);
  }

  lemma MetaRoundTrip(r: Resource)
    ensures var m := EncodeMeta(r);
            && StringsOf(Get(m, "labels")) == r.labels && StringsOf(Get(m, "annotations")) == r.annotations
            && m - {"labels", "annotations"} == r.meta
  {
    StringsRoundTrip(r.labels);
    StringsRoundTrip(r.annotations);
    assert StringsOf(Null) == map[];
  }

  lemma {:induction false} RoundTrip(r: Resource)
    ensures Decode(Encode(r)) == r
  {
    MetaRoundTrip(r);
    assert Get(Members(Encode(r)), "metadata") == Obj(EncodeMeta(r));
    assert Members(Encode(r)) - {"metadata"} == r.fields;
  }

  lemma {:induction false} EncodeNullFree(r: Resource)
    requires NullFreeResource(r)
    ensures NullFree(Encode(r))
  {
    StringsRoundTrip(r.labels);
    StringsRoundTrip(r.annotations);
    var m := EncodeMeta(r);
    forall k | k in m ensures m[k] != Null && NullFree(m[k]) {
    }
  }

  /** A wanted object patched onto the object it was compared with arrives exactly as wanted. */
  lemma {:induction false} PatchArrives(base: Resource, obj: Resource)
    requires NullFreeResource(obj)
    ensures ApplyPatch(base, MergeFrom(base, obj)) == obj
  {
    EncodeNullFree(obj);
    NullFreeExpressible(Encode(base), Encode(obj));
    DiffThenPatch(Encode(base), Encode(obj));
    RoundTrip(obj);
  }

  /** Entries of want that base lacks or holds with another value: what a patch between string maps sends. */
  function Changed(base: map<string, string>, want: map<string, string>): map<string, string> {
    map k | k in want && !(k in base && base[k] == want[k]) :: want[k]
  }

  lemma StringPatchMember(l: Json, w: map<string, string>, k: string)
    ensures var p := Members(Patched(l, Strings(w)));
            && (k in p <==> k in Members(l) || k in w)
            && (k in p ==> p[k] == if k in w then Str(w[k]) else Members(l)[k])
  {
  }

  /** A patch made of strings adds its entries. */
  lemma StringPatch(l: Json, w: map<string, string>)
    ensures StringsOf(Patched(l, Strings(w))) == StringsOf(l) + w
  {
    var after := StringsOf(Patched(l, Strings(w)));
    forall k
      ensures k in after <==> k in StringsOf(l) + w
      ensures k in after ==> after[k] == (StringsOf(l) + w)[k]
    {
      StringPatchMember(l, w, k);
    }
    assert after == StringsOf(l) + w;
  }

  /** The difference of two string maps, when no entry goes away. */
  lemma StringDiff(base: map<string, string>, want: map<string, string>)
    requires base.Keys <= want.Keys
    ensures Diff(Strings(base), Strings(want)) == Strings(Changed(base, want))
  {
    assert Diff(Strings(base), Strings(want)).members == Strings(Changed(base, want)).members;
  }

  /** One member of a patched document whose patch is a difference of objects. */
  lemma PatchedMember(live: Json, b: map<string, Json>, w: map<string, Json>, k: string)
    requires live.Obj?
    ensures Get(Members(Patched(live, Diff(Obj(b), Obj(w)))), k)
         == if (k in b && k in w && b[k] == w[k]) || (k !in b && k !in w) then Get(live.members, k)
            else if k !in w then Null
            else if k in b then Patched(Get(live.members, k), Diff(b[k], w[k]))
            else Patched(Get(live.members, k), w[k])
  {
  }

  /** The metadata that a patch leaves on the live object. */
  function MetaAfter(live: Resource, base: Resource, obj: Resource): map<string, Json> {
    Members(Get(Members(Patched(Encode(live), MergeFrom(base, obj))), "metadata"))
  }

  lemma PatchedMeta(live: Resource, base: Resource, obj: Resource, k: string)
    ensures Get(MetaAfter(live, base, obj), k)
         == Get(Members(Patched(Obj(EncodeMeta(live)), Diff(Obj(EncodeMeta(base)), Obj(EncodeMeta(obj))))), k)
  {
    var b, w, l := EncodeMeta(base), EncodeMeta(obj), EncodeMeta(live);
    PatchedMember(Encode(live), Encode(base).members, Encode(obj).members, "metadata");
    if b == w {
      PatchedMember(Obj(l), b, w, k);
    }
  }

  /** One of the two string maps of the metadata, as a member that is left out when empty. */
  ghost predicate Carries(m: map<string, Json>, k: string, v: map<string, string>) {
    if v == map[] then k !in m else k in m && m[k] == Strings(v)
  }

  lemma PatchedStringsCases(l: map<string, Json>, b: map<string, Json>, w: map<string, Json>, k: string,
                            live: map<string, string>, base: map<string, string>, want: map<string, string>,
                            after: Json)
    requires Carries(l, k, live) && Carries(b, k, base) && Carries(w, k, want)
    requires base.Keys <= want.Keys
    requires after == if (k in b && k in w && b[k] == w[k]) || (k !in b && k !in w) then Get(l, k)
                      else if k !in w then Null
                      else if k in b then Patched(Get(l, k), Diff(b[k], w[k]))
                      else Patched(Get(l, k), w[k])
    ensures StringsOf(after) == live + Changed(base, want)
  {
    StringsRoundTrip(live);
    assert StringsOf(Get(l, k)) == live;
    if k !in w {
      assert base == map[];
    } else if k in b {
      StringDiff(base, want);
      StringPatch(Get(l, k), Changed(base, want));
      if b[k] == w[k] {
        StringsRoundTrip(base);
        StringsRoundTrip(want);
        assert Changed(base, want) == map[];
      }
    } else {
      StringPatch(Get(l, k), want);
      assert Changed(base, want) == want;
    }
  }

  /** What a patched string map of the metadata reads as. */
  lemma PatchedStrings(l: map<string, Json>, b: map<string, Json>, w: map<string, Json>, k: string,
                       live: map<string, string>, base: map<string, string>, want: map<string, string>)
    requires Carries(l, k, live) && Carries(b, k, base) && Carries(w, k, want)
    requires base.Keys <= want.Keys
    ensures StringsOf(Get(Members(Patched(Obj(l), Diff(Obj(b), Obj(w)))), k)) == live + Changed(base, want)
  {
    PatchedMember(Obj(l), b, w, k);
    var after := Get(Members(Patched(Obj(l), Diff(Obj(b), Obj(w)))), k);
    PatchedStringsCases(l, b, w, k, live, base, want, after);
  }

  /**
   Whatever another writer did to the live object after the reconciler read base, the patch only adds
   or changes labels and annotations: the live entries stay, and the entries that differ from base are written.
   */
  lemma LabelsSurvivePatch(live: Resource, base: Resource, obj: Resource)
    requires base.labels.Keys <= obj.labels.Keys
    requires base.annotations.Keys <= obj.annotations.Keys
    ensures ApplyPatch(live, MergeFrom(base, obj)).labels == live.labels + Changed(base.labels, obj.labels)
    ensures ApplyPatch(live, MergeFrom(base, obj)).annotations
         == live.annotations + Changed(base.annotations, obj.annotations)
  {
    var l, b, w := EncodeMeta(live), EncodeMeta(base), EncodeMeta(obj);
    assert StringsOf(Get(MetaAfter(live, base, obj), "labels")) == live.labels + Changed(base.labels, obj.labels) by {
      PatchedMeta(live, base, obj, "labels");
      PatchedStrings(l, b, w, "labels", live.labels, base.labels, obj.labels);
    }
    assert StringsOf(Get(MetaAfter(live, base, obj), "annotations"))
        == live.annotations + Changed(base.annotations, obj.annotations) by {
      PatchedMeta(live, base, obj, "annotations");
      PatchedStrings(l, b, w, "annotations", live.annotations, base.annotations, obj.annotations);
    }
  }

  function OverlaidMembers(live: map<string, Json>, obj: map<string, Json>): map<string, Json> {
    map k | k in live.Keys + obj.Keys :: if k in obj then Patched(Get(live, k), obj[k]) else live[k]
  }

  /** A patch computed against an empty object lays every member of obj over the live one and drops nothing. */
  function Overlaid(live: Resource, obj: Resource): Resource {
    Resource(live.labels + obj.labels, live.annotations + obj.annotations,
             OverlaidMembers(live.meta, obj.meta), OverlaidMembers(live.fields, obj.fields))
  }

  lemma DiffFromEmpty(w: map<string, Json>)
    ensures Diff(Obj(map[]), Obj(w)) == Obj(w)
  {
    assert Diff(Obj(map[]), Obj(w)).members == w;
  }

  lemma PatchedIsOverlaid(l: map<string, Json>, w: map<string, Json>)
    requires Null !in w.Values
    ensures Members(Patched(Obj(l), Obj(w))) == OverlaidMembers(l, w)
  {
    assert forall k :: k in w ==> w[k] in w.Values;
  }

  lemma BlindDocument(l: map<string, Json>, w: map<string, Json>, lm: map<string, Json>, wm: map<string, Json>)
    requires "metadata" in l && l["metadata"] == Obj(lm)
    requires "metadata" in w && w["metadata"] == Obj(wm)
    requires Null !in wm.Values
    ensures Members(Get(Members(Patched(Obj(l), Diff(Obj(map["metadata" := Obj(map[])]), Obj(w)))), "metadata"))
         == OverlaidMembers(lm, wm)
  {
    PatchedMember(Obj(l), map["metadata" := Obj(map[])], w, "metadata");
    if wm == map[] {
      assert OverlaidMembers(lm, wm) == lm;
    } else {
      DiffFromEmpty(wm);
      PatchedIsOverlaid(lm, wm);
    }
  }

  lemma NoNullMeta(obj: Resource)
    requires NullFreeResource(obj)
    ensures Null !in EncodeMeta(obj).Values
  {
    EncodeNullFree(obj);
    assert Encode(obj).members["metadata"] == Obj(EncodeMeta(obj));
  }

  lemma EncodeEmpty()
    ensures Encode(EMPTY) == Obj(map["metadata" := Obj(map[])])
  {
    assert EncodeMeta(EMPTY) == map[];
    assert EMPTY.fields["metadata" := Obj(map[])] == map["metadata" := Obj(map[])];
  }

  lemma BlindMeta(live: Resource, obj: Resource)
    requires NullFreeResource(obj)
    ensures MetaAfter(live, EMPTY, obj) == OverlaidMembers(EncodeMeta(live), EncodeMeta(obj))
  {
    NoNullMeta(obj);
    EncodeEmpty();
    BlindDocument(Encode(live).members, Encode(obj).members, EncodeMeta(live), EncodeMeta(obj));
  }

  lemma OverlaidWithout(l: map<string, Json>, w: map<string, Json>, gone: set<string>)
    ensures OverlaidMembers(l, w) - gone == OverlaidMembers(l - gone, w - gone)
  {
  }

  lemma PlainMeta(r: Resource)
    ensures EncodeMeta(r) - {"labels", "annotations"} == r.meta
  {
  }

  lemma BlindPatchMeta(live: Resource, obj: Resource)
    requires NullFreeResource(obj)
    ensures MetaAfter(live, EMPTY, obj) - {"labels", "annotations"} == OverlaidMembers(live.meta, obj.meta)
  {
    BlindMeta(live, obj);
    OverlaidWithout(EncodeMeta(live), EncodeMeta(obj), {"labels", "annotations"});
    PlainMeta(live);
    PlainMeta(obj);
  }

  lemma BlindField(live: Resource, obj: Resource, k: string)
    requires NullFreeResource(obj) && k != "metadata"
    ensures var after := Members(Patched(Encode(live), MergeFrom(EMPTY, obj)));
            && (k in after <==> k in live.fields || k in obj.fields)
            && (k in after ==> after[k] == OverlaidMembers(live.fields, obj.fields)[k])
  {
    var patch := MergeFrom(EMPTY, obj);
    assert k in patch.members <==> k in obj.fields;
  }

  lemma BlindFields(live: Resource, obj: Resource)
    requires NullFreeResource(obj)
    ensures Members(Patched(Encode(live), MergeFrom(EMPTY, obj))) - {"metadata"}
         == OverlaidMembers(live.fields, obj.fields)
  {
    var after := Members(Patched(Encode(live), MergeFrom(EMPTY, obj))) - {"metadata"};
    var want := OverlaidMembers(live.fields, obj.fields);
    forall k
      ensures k in after <==> k in want
      ensures k in after ==> after[k] == want[k]
    {
      if k != "metadata" { BlindField(live, obj, k); }
    }
    assert after == want;
  }

  lemma ChangedFromEmpty(m: map<string, string>)
    ensures Changed(map[], m) == m
  {
  }

  lemma DecodeParts(j: Json)
    ensures Decode(j).meta == Members(Get(Members(j), "metadata")) - {"labels", "annotations"}
    ensures Decode(j).fields == Members(j) - {"metadata"}
  {
  }

  /** How a secret that already exists is patched: nobody reads it, the wanted members are laid over it. */
  lemma BlindPatch(live: Resource, obj: Resource)
    requires NullFreeResource(obj)
    ensures ApplyPatch(live, MergeFrom(EMPTY, obj)) == Overlaid(live, obj)
  {
    var after := ApplyPatch(live, MergeFrom(EMPTY, obj));
    LabelsSurvivePatch(live, EMPTY, obj);
    ChangedFromEmpty(obj.labels);
    ChangedFromEmpty(obj.annotations);
    BlindPatchMeta(live, obj);
    BlindFields(live, obj);
    DecodeParts(Patched(Encode(live), MergeFrom(EMPTY, obj)));
  }

  lemma OverlaidMembersTwice(live: map<string, Json>, obj: map<string, Json>)
    ensures OverlaidMembers(OverlaidMembers(live, obj), obj) == OverlaidMembers(live, obj)
  {
    forall k | k in obj ensures Patched(Patched(Get(live, k), obj[k]), obj[k]) == Patched(Get(live, k), obj[k]) {
      PatchTwice(Get(live, k), obj[k]);
    }
  }

  lemma OverlaidMembersSelf(obj: map<string, Json>)
    requires forall k :: k in obj ==> obj[k] != Null && NullFree(obj[k])
    ensures OverlaidMembers(obj, obj) == obj
  {
    forall k | k in obj ensures Patched(obj[k], obj[k]) == obj[k] {
      NullFreeExpressible(Null, obj[k]);
      PatchFromNothing(Null, obj[k]);
      PatchTwice(Null, obj[k]);
    }
  }

  /** Laying the same object over twice changes nothing the second time, nor does laying an object over itself. */
  lemma OverlaidTwice(live: Resource, obj: Resource)
    requires NullFreeResource(obj)
    ensures Overlaid(Overlaid(live, obj), obj) == Overlaid(live, obj)
    ensures Overlaid(obj, obj) == obj
  {
    OverlaidMembersTwice(live.meta, obj.meta);
    OverlaidMembersTwice(live.fields, obj.fields);
    OverlaidMembersSelf(obj.meta);
    OverlaidMembersSelf(obj.fields);
    assert live.labels + obj.labels + obj.labels == live.labels + obj.labels;
    assert live.annotations + obj.annotations + obj.annotations == live.annotations + obj.annotations;
    assert obj.labels + obj.labels == obj.labels && obj.annotations + obj.annotations == obj.annotations;
  }
}
