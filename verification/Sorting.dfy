/** sort.Slice with a name comparison: an unstable sort, specified only as an ordered permutation. */
module Sorting {
  import opened Text

  predicate SortedOn<T>(name: T -> string, s: seq<T>) {
    forall i, j :: 0 <= i < j < |s| ==> !Less(name(s[j]), name(s[i]))
  }

  method SortOn<T>(name: T -> string, items: seq<T>) returns (sorted: seq<T>)
    ensures multiset(sorted) == multiset(items)
    ensures SortedOn(name, sorted)
  {
    sorted := [];
    for n := 0 to |items|
      invariant multiset(sorted) == multiset(items[..n])
      invariant SortedOn(name, sorted)
    {
      sorted := InsertOn(name, sorted, items[n]);
      assert items[..n + 1] == items[..n] + [items[n]];
    }
    assert items[..|items|] == items;
  }

  method InsertOn<T>(name: T -> string, sorted: seq<T>, item: T) returns (r: seq<T>)
    requires SortedOn(name, sorted)
    ensures multiset(r) == multiset(sorted) + multiset{item}
    ensures SortedOn(name, r)
  {
    var p := |sorted|;
    while p > 0 && Less(name(item), name(sorted[p - 1]))
      invariant 0 <= p <= |sorted|
      invariant forall j :: p <= j < |sorted| ==> !Less(name(sorted[j]), name(item))
    {
      LessAsymmetric(name(item), name(sorted[p - 1]));
      p := p - 1;
    }
    InsertedIsSorted(name, sorted, item, p);
    r := sorted[..p] + [item] + sorted[p..];
    assert sorted == sorted[..p] + sorted[p..];
  }

  lemma {:induction false} InsertedIsSorted<T>(name: T -> string, sorted: seq<T>, item: T, p: nat)
    requires SortedOn(name, sorted)
    requires p <= |sorted| && (p > 0 ==> !Less(name(item), name(sorted[p - 1])))
    requires forall j :: p <= j < |sorted| ==> !Less(name(sorted[j]), name(item))
    ensures SortedOn(name, sorted[..p] + [item] + sorted[p..])
  {
    forall i | 0 <= i < p - 1 ensures !Less(name(item), name(sorted[i])) {
      NotGreaterTransitive(name(sorted[i]), name(sorted[p - 1]), name(item));
    }
    var r := sorted[..p] + [item] + sorted[p..];
    forall i, j | 0 <= i < j < |r| ensures !Less(name(r[j]), name(r[i])) {
      assert r[i] == (if i < p then sorted[i] else if i == p then item else sorted[i - 1]);
      assert r[j] == (if j < p then sorted[j] else if j == p then item else sorted[j - 1]);
    }
  }
}
