/** Mapping, filtering and reversing sequences, and what a permutation of the input does to the result. */
module Seqs {

  function Map<A, B>(f: A -> B, s: seq<A>): seq<B> {
    seq(|s|, i requires 0 <= i < |s| => f(s[i]))
  }

  function Filter<A>(p: A -> bool, s: seq<A>): seq<A> {
    if s == [] then [] else
      var last := s[|s| - 1];
      Filter(p, s[..|s| - 1]) + if p(last) then [last] else []
  }

  function Reverse<A>(s: seq<A>): (r: seq<A>)
    ensures |r| == |s|
    ensures forall i :: 0 <= i < |s| ==> r[i] == s[|s| - 1 - i]
  {
    seq(|s|, i requires 0 <= i < |s| => s[|s| - 1 - i])
  }

  function Concat<T>(ss: seq<seq<T>>): seq<T> {
    if ss == [] then [] else Concat(ss[..|ss| - 1]) + ss[|ss| - 1]
  }

  lemma FilterStep<A>(p: A -> bool, s: seq<A>, x: A)
    ensures Filter(p, s + [x]) == Filter(p, s) + if p(x) then [x] else []
  {
    assert (s + [x])[..|s|] == s;
  }

  lemma MapStep<A, B>(f: A -> B, s: seq<A>, x: A)
    ensures Map(f, s + [x]) == Map(f, s) + [f(x)]
  {
  }

  lemma MapOfOne<A, B>(f: A -> B, x: A)
    ensures Map(f, [x]) == [f(x)] && Map(f, []) == []
  {
  }

  lemma TakeStep<A>(s: seq<A>, i: nat)
    requires i < |s|
    ensures s[..i + 1] == s[..i] + [s[i]]
  {
  }

  lemma {:induction false} FilterMembers<A>(p: A -> bool, s: seq<A>)
    ensures forall x :: x in Filter(p, s) <==> x in s && p(x)
  {
    if s != [] {
      FilterMembers(p, s[..|s| - 1]);
      assert s == s[..|s| - 1] + [s[|s| - 1]];
    }
  }

  lemma WithoutOne<A>(init: seq<A>, x: A, a: seq<A>, b: seq<A>)
    requires multiset(init + [x]) == multiset(a + [x] + b)
    ensures multiset(init) == multiset(a + b)
  {
    assert multiset(init) == multiset(init + [x]) - multiset{x};
    assert multiset(a + b) == multiset(a + [x] + b) - multiset{x};
  }

  lemma SplitAt<A>(t: seq<A>, j: nat)
    requires j < |t|
    ensures t == t[..j] + [t[j]] + t[j + 1..]
  {
  }

  /** A permutation can give up its last element anywhere in the other sequence. */
  lemma PermutedLast<A>(s: seq<A>, t: seq<A>) returns (init: seq<A>, x: A, a: seq<A>, b: seq<A>)
    requires multiset(s) == multiset(t) && s != []
    ensures s == init + [x] && t == a + [x] + b
    ensures multiset(init) == multiset(a + b)
  {
    init, x := s[..|s| - 1], s[|s| - 1];
    assert x in multiset(t);
    var j :| 0 <= j < |t| && t[j] == x;
    a, b := t[..j], t[j + 1..];
    SplitAt(s, |s| - 1);
    SplitAt(t, j);
    WithoutOne(init, x, a, b);
  }

  lemma {:induction false} FilterOfBoth<A>(p: A -> bool, s: seq<A>, t: seq<A>)
    ensures Filter(p, s + t) == Filter(p, s) + Filter(p, t)
  {
    if t == [] {
      assert s + t == s;
    } else {
      FilterOfBoth(p, s, t[..|t| - 1]);
      assert (s + t)[..|s + t| - 1] == s + t[..|t| - 1];
    }
  }

  lemma FilterMiddle<A>(p: A -> bool, init: seq<A>, x: A, a: seq<A>, b: seq<A>)
    requires multiset(Filter(p, init)) == multiset(Filter(p, a + b))
    ensures multiset(Filter(p, init + [x])) == multiset(Filter(p, a + [x] + b))
  {
    FilterStep(p, init, x);
    FilterOfBoth(p, a, b);
    FilterOfBoth(p, a + [x], b);
    FilterStep(p, a, x);
  }

  lemma EmptyPermuted<A>(t: seq<A>)
    requires multiset(t) == multiset([])
    ensures t == []
  {
    assert |t| == |multiset(t)| == 0;
  }

  lemma {:induction false} FilterPermuted<A>(p: A -> bool, s: seq<A>, t: seq<A>)
    requires multiset(s) == multiset(t)
    ensures multiset(Filter(p, s)) == multiset(Filter(p, t))
    decreases |s|
  {
    if s == [] {
      EmptyPermuted(t);
    } else {
      var init, x, a, b := PermutedLast(s, t);
      FilterPermuted(p, init, a + b);
      FilterMiddle(p, init, x, a, b);
    }
  }

  lemma MapMiddle<A, B>(f: A -> B, init: seq<A>, x: A, a: seq<A>, b: seq<A>)
    requires multiset(Map(f, init)) == multiset(Map(f, a + b))
    ensures multiset(Map(f, init + [x])) == multiset(Map(f, a + [x] + b))
  {
    assert Map(f, init + [x]) == Map(f, init) + [f(x)];
    assert Map(f, a + [x] + b) == Map(f, a) + [f(x)] + Map(f, b);
    assert Map(f, a + b) == Map(f, a) + Map(f, b);
  }

  lemma {:induction false} MapPermuted<A, B>(f: A -> B, s: seq<A>, t: seq<A>)
    requires multiset(s) == multiset(t)
    ensures multiset(Map(f, s)) == multiset(Map(f, t))
    decreases |s|
  {
    if s == [] {
      EmptyPermuted(t);
    } else {
      var init, x, a, b := PermutedLast(s, t);
      MapPermuted(f, init, a + b);
      MapMiddle(f, init, x, a, b);
    }
  }

  ghost predicate Distinct<A>(s: seq<A>) {
    forall i, j :: 0 <= i < j < |s| ==> s[i] != s[j]
  }

  lemma {:induction false} FilterDistinct<A>(p: A -> bool, s: seq<A>)
    requires Distinct(s)
    ensures Distinct(Filter(p, s))
  {
    if s != [] {
      var init := s[..|s| - 1];
      FilterDistinct(p, init);
      FilterMembers(p, init);
      assert s[|s| - 1] !in init;
    }
  }

  lemma ReversePermutes<A>(s: seq<A>)
    ensures multiset(Reverse(s)) == multiset(s)
    decreases |s|
  {
    if s != [] {
      var init, last := s[..|s| - 1], s[|s| - 1];
      ReversePermutes(init);
      assert Reverse(s) == [last] + Reverse(init);
      assert s == init + [last];
    }
  }

  lemma PermutedIsDistinct<T>(s: seq<T>, t: seq<T>)
    requires Distinct(s) && multiset(s) == multiset(t)
    ensures Distinct(t)
  {
    forall i, j | 0 <= i < j < |t| ensures t[i] != t[j] {
      if t[i] == t[j] {
        TwiceIn(t, i, j);
        OnceIn(s, t[i]);
      }
    }
  }

  lemma {:induction false} OnceIn<T>(s: seq<T>, x: T)
    requires Distinct(s)
    ensures multiset(s)[x] <= 1
  {
    if s != [] {
      var init, last := s[..|s| - 1], s[|s| - 1];
      OnceIn(init, x);
      assert s == init + [last];
      if last == x {
        assert x !in init;
      }
    }
  }

  lemma TwiceIn<T>(t: seq<T>, i: nat, j: nat)
    requires i < j < |t| && t[i] == t[j]
    ensures multiset(t)[t[i]] >= 2
  {
    assert t == t[..i] + [t[i]] + t[i + 1..j] + [t[j]] + t[j + 1..];
  }

  lemma SameDistinct<A, B>(a: seq<A>, b: seq<B>)
    requires |a| == |b| && forall i, j :: 0 <= i < j < |a| ==> (a[i] == a[j] <==> b[i] == b[j])
    ensures Distinct(a) <==> Distinct(b)
  {
  }

  lemma DistinctOfBoth<T>(a: seq<T>, b: seq<T>)
    ensures Distinct(a + b) <==> Distinct(a) && Distinct(b) && forall x :: x in a ==> x !in b
  {
    var s := a + b;
    if Distinct(a) && Distinct(b) && (forall x :: x in a ==> x !in b) {
      forall i, j | 0 <= i < j < |s| ensures s[i] != s[j] {
        if i < |a| <= j {
          assert a[i] in a && b[j - |a|] in b;
        }
      }
    }
    if Distinct(s) {
      forall i, j | 0 <= i < j < |a| ensures a[i] != a[j] { assert s[i] != s[j]; }
      forall i, j | 0 <= i < j < |b| ensures b[i] != b[j] { assert s[|a| + i] != s[|a| + j]; }
      forall i, j | 0 <= i < |a| && 0 <= j < |b| ensures a[i] != b[j] { assert s[i] != s[|a| + j]; }
    }
  }
}
