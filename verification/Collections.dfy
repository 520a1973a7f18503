/** Facts about finite sequences and sets that several components share. */
module Collections {

  datatype Option<+T> = None | Some(value: T)

  datatype Result<+T, +E> = Success(value: T) | Failure(error: E)

  ghost predicate Distinct<T>(s: seq<T>) {
    forall i, j :: 0 <= i < j < |s| ==> s[i] != s[j]
  }

  function SetOf<T>(s: seq<T>): set<T> {
    set x | x in s
  }

  lemma {:induction false} SetOfSize<T>(s: seq<T>)
    ensures |SetOf(s)| <= |s|
    ensures |SetOf(s)| == |s| <==> Distinct(s)
  {
    if s != [] {
      var init, last := s[..|s| - 1], s[|s| - 1];
      SetOfSize(init);
      assert s == init + [last];
      if last in init {
        assert SetOf(s) == SetOf(init);
        var i :| 0 <= i < |init| && init[i] == last;
        assert s[i] == s[|s| - 1];
      } else {
        assert SetOf(s) == SetOf(init) + {last};
        assert Distinct(s) ==> Distinct(init);
        assert Distinct(init) ==> Distinct(s);
      }
    }
  }

  lemma {:induction false} SubsetSize<T>(a: set<T>, b: set<T>)
    requires a <= b
    ensures |a| <= |b|
    ensures |a| == |b| ==> a == b
  {
    assert b == a + (b - a);
    if |a| == |b| {
      assert |b - a| == 0;
    }
  }

  /** A duplicate-free sequence drawn from a set is no longer than the set. */
  lemma {:induction false} DistinctBound<T>(s: seq<T>, bound: set<T>)
    requires Distinct(s) && forall x :: x in s ==> x in bound
    ensures |s| <= |bound|
  {
    SetOfSize(s);
    SubsetSize(SetOf(s), bound);
  }

  lemma {:induction false} DistinctConcat<T>(a: seq<T>, b: seq<T>)
    requires Distinct(a) && Distinct(b) && forall x :: x in a ==> x !in b
    ensures Distinct(a + b)
  {
    forall i, j | 0 <= i < j < |a + b| ensures (a + b)[i] != (a + b)[j] {
      if i < |a| <= j {
        assert a[i] in a && b[j - |a|] in b;
      }
    }
  }

  lemma {:induction false} SplitAt<T>(s: seq<T>, n: nat)
    requires n <= |s|
    ensures s[..n] + s[n..] == s
  {
  }

  lemma {:induction false} MultisetDistinct<T>(a: seq<T>, b: seq<T>)
    requires multiset(a) == multiset(b)
    ensures |a| == |b|
    ensures SetOf(a) == SetOf(b)
    ensures Distinct(a) ==> Distinct(b)
  {
    assert |multiset(a)| == |multiset(b)|;
    forall x ensures x in a <==> x in b {
      assert x in a <==> x in multiset(a);
      assert x in b <==> x in multiset(b);
    }
    assert SetOf(a) == SetOf(b);
    SetOfSize(a);
    SetOfSize(b);
  }

  /** Two sequences without repetition and with the same elements are permutations of each other. */
  lemma {:induction false} SameElementsPermutation<T>(a: seq<T>, b: seq<T>)
    requires Distinct(a) && Distinct(b) && SetOf(a) == SetOf(b)
    ensures multiset(a) == multiset(b)
  {
    forall x ensures multiset(a)[x] == multiset(b)[x] {
      MultiplicityOfDistinct(a, x);
      MultiplicityOfDistinct(b, x);
      assert x in a <==> x in SetOf(b);
    }
  }

  lemma {:induction false} MultiplicityOfDistinct<T>(s: seq<T>, x: T)
    requires Distinct(s)
    ensures multiset(s)[x] == if x in s then 1 else 0
  {
    if s != [] {
      var init, last := s[..|s| - 1], s[|s| - 1];
      MultiplicityOfDistinct(init, x);
      assert s == init + [last];
      assert forall i :: 0 <= i < |init| ==> init[i] != last;
    }
  }
}
