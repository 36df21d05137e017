/** The order in which runtime objects are applied. */
module Sorting {
  import opened Names
  import opened Seqs

  predicate IsDeployment(kind: Kind) { kind == DeploymentKind }
  predicate IsStatefulSet(kind: Kind) { kind == DbStatefulSetKind }
  predicate IsOrdinary(kind: Kind) { !IsDeployment(kind) && !IsStatefulSet(kind) }

  /** The comparator given to sort.Slice. Two ordinary objects are each less than the other. */
  predicate Less(a: Kind, b: Kind) {
    !(IsStatefulSet(a) || IsDeployment(b))
  }

  function OfDeployment<T>(kindOf: T -> Kind): T -> bool { (x: T) => IsDeployment(kindOf(x)) }
  function OfOrdinary<T>(kindOf: T -> Kind): T -> bool { (x: T) => IsOrdinary(kindOf(x)) }
  function OfStatefulSet<T>(kindOf: T -> Kind): T -> bool { (x: T) => IsStatefulSet(kindOf(x)) }

  /** Deployments first, then all ordinary objects in reverse, then the StatefulSets. */
  function Sorted<T>(kindOf: T -> Kind, s: seq<T>): seq<T> {
    Filter(OfDeployment(kindOf), s) + Reverse(Filter(OfOrdinary(kindOf), s)) + Filter(OfStatefulSet(kindOf), s)
  }

  lemma PartsStep<T>(kind: Kind, d: seq<T>, o: seq<T>, f: seq<T>, x: T, s: seq<T>)
    requires multiset(d) + multiset(o) + multiset(f) == multiset(s)
    ensures multiset(d + if IsDeployment(kind) then [x] else []) + multiset(o + if IsOrdinary(kind) then [x] else [])
            + multiset(f + if IsStatefulSet(kind) then [x] else []) == multiset(s + [x])
  {
    assert d + [] == d && o + [] == o && f + [] == f;
  }

  function InParts<T>(kindOf: T -> Kind, s: seq<T>): multiset<T> {
    multiset(Filter(OfDeployment(kindOf), s)) + multiset(Filter(OfOrdinary(kindOf), s))
    + multiset(Filter(OfStatefulSet(kindOf), s))
  }

  lemma MoreInParts<T>(kindOf: T -> Kind, s: seq<T>, x: T, t: seq<T>)
    requires InParts(kindOf, s) == multiset(s) && t == s + [x]
    ensures InParts(kindOf, t) == multiset(t)
  {
    FilterStep(OfDeployment(kindOf), s, x);
    FilterStep(OfOrdinary(kindOf), s, x);
    FilterStep(OfStatefulSet(kindOf), s, x);
    PartsStep(kindOf(x), Filter(OfDeployment(kindOf), s), Filter(OfOrdinary(kindOf), s),
              Filter(OfStatefulSet(kindOf), s), x, s);
  }

  lemma NothingInParts<T>(kindOf: T -> Kind, s: seq<T>)
    requires s == []
    ensures InParts(kindOf, s) == multiset(s)
  {
  }

  lemma {:induction false} Parts<T>(kindOf: T -> Kind, n: nat, s: seq<T>)
    requires n == |s|
    ensures InParts(kindOf, s) == multiset(s)
    decreases n
  {
    if n == 0 {
      NothingInParts(kindOf, s);
    } else {
      Parts(kindOf, n - 1, s[..n - 1]);
      MoreInParts(kindOf, s[..n - 1], s[n - 1], s);
    }
  }

  /** Sorting loses and adds nothing. */
  lemma SortedPermutes<T>(kindOf: T -> Kind, s: seq<T>)
    ensures multiset(Sorted(kindOf, s)) == multiset(s)
  {
    Parts(kindOf, |s|, s);
    ReversePermutes(Filter(OfOrdinary(kindOf), s));
  }

  lemma SortedMembers<T>(kindOf: T -> Kind, s: seq<T>)
    ensures forall x :: x in Sorted(kindOf, s) <==> x in s
    ensures |Sorted(kindOf, s)| == |s|
  {
    SortedPermutes(kindOf, s);
    var t := Sorted(kindOf, s);
    forall x ensures x in t <==> x in s {
      assert x in t <==> x in multiset(t);
      assert x in s <==> x in multiset(s);
    }
    assert |t| == |multiset(t)| == |multiset(s)| == |s|;
  }

  lemma ReverseStep<T>(o: seq<T>, x: T)
    ensures Reverse(o + [x]) == [x] + Reverse(o)
  {
  }

  /** The filters when one more element comes in. */
  lemma FiltersStep<T>(kindOf: T -> Kind, s: seq<T>, x: T)
    ensures Sorted(kindOf, s + [x])
         == (Filter(OfDeployment(kindOf), s) + if IsDeployment(kindOf(x)) then [x] else [])
            + Reverse(Filter(OfOrdinary(kindOf), s) + if IsOrdinary(kindOf(x)) then [x] else [])
            + (Filter(OfStatefulSet(kindOf), s) + if IsStatefulSet(kindOf(x)) then [x] else [])
  {
    FilterStep(OfDeployment(kindOf), s, x);
    FilterStep(OfOrdinary(kindOf), s, x);
    FilterStep(OfStatefulSet(kindOf), s, x);
  }

  lemma PartsInPlace<T>(d: seq<T>, o: seq<T>, f: seq<T>, x: T)
    ensures (d + [x]) + Reverse(o + []) + (f + []) == d + [x] + (Reverse(o) + f)
    ensures (d + []) + Reverse(o + [x]) + (f + []) == d + [x] + (Reverse(o) + f)
    ensures (d + []) + Reverse(o + []) + (f + [x]) == d + Reverse(o) + f + [x]
  {
    assert d + [] == d && o + [] == o && f + [] == f;
    ReverseStep(o, x);
    assert d + ([x] + Reverse(o)) + f == d + [x] + (Reverse(o) + f);
    assert d + Reverse(o) + (f + [x]) == d + Reverse(o) + f + [x];
  }

  /** The parts of the sorted list when one more element comes in. */
  lemma SortedStep<T>(kindOf: T -> Kind, s: seq<T>, x: T, d: seq<T>, o: seq<T>, f: seq<T>)
    requires d == Filter(OfDeployment(kindOf), s)
    requires o == Filter(OfOrdinary(kindOf), s)
    requires f == Filter(OfStatefulSet(kindOf), s)
    ensures Sorted(kindOf, s) == d + Reverse(o) + f
    ensures !IsStatefulSet(kindOf(x)) ==> Sorted(kindOf, s + [x]) == d + [x] + (Reverse(o) + f)
    ensures IsStatefulSet(kindOf(x)) ==> Sorted(kindOf, s + [x]) == d + Reverse(o) + f + [x]
  {
    FiltersStep(kindOf, s, x);
    PartsInPlace(d, o, f, x);
  }

  lemma DeploymentsFirst<T>(kindOf: T -> Kind, s: seq<T>, t: seq<T>)
    requires t == Sorted(kindOf, s)
    ensures forall k :: 0 <= k < |t| ==> (IsDeployment(kindOf(t[k])) <==> k < |Filter(OfDeployment(kindOf), s)|)
  {
    var d, o, f := Filter(OfDeployment(kindOf), s), Filter(OfOrdinary(kindOf), s), Filter(OfStatefulSet(kindOf), s);
    FilterMembers(OfDeployment(kindOf), s);
    FilterMembers(OfOrdinary(kindOf), s);
    FilterMembers(OfStatefulSet(kindOf), s);
    forall k | 0 <= k < |t| ensures IsDeployment(kindOf(t[k])) <==> k < |d| {
      if k < |d| {
        assert t[k] == d[k] && d[k] in d;
      } else if k < |d| + |o| {
        assert t[k] == o[|o| - 1 - (k - |d|)] && t[k] in o;
      } else {
        assert t[k] == f[k - |d| - |o|] && t[k] in f;
      }
    }
  }

  /**
   One round of insertion sort under this comparator: an element that has moved left over everything
   it is less than, and met something it is not less than, stands where Sorted puts it.
   */
  lemma InsertedIsSorted<T>(kindOf: T -> Kind, s: seq<T>, t: seq<T>, x: T, j: nat)
    requires t == Sorted(kindOf, s) && j <= |t|
    requires j > 0 ==> !Less(kindOf(x), kindOf(t[j - 1]))
    requires forall k :: j <= k < |t| ==> Less(kindOf(x), kindOf(t[k]))
    ensures t[..j] + [x] + t[j..] == Sorted(kindOf, s + [x])
  {
    var d, o, f := Filter(OfDeployment(kindOf), s), Filter(OfOrdinary(kindOf), s), Filter(OfStatefulSet(kindOf), s);
    SortedStep(kindOf, s, x, d, o, f);
    DeploymentsFirst(kindOf, s, t);
    if j < |t| {
      assert Less(kindOf(x), kindOf(t[j]));
    }
    if IsStatefulSet(kindOf(x)) {
      assert j == |t|;
      assert t[..j] == t;
    } else {
      assert j == |d|;
      assert t[..j] == d && t[j..] == Reverse(o) + f;
    }
  }
}
