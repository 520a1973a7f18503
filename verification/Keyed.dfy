/** Lists of records identified by a string key, and rearranging them by a list of keys. */
module Keyed {
  import opened Collections

  function KeysOf<T>(key: T -> string, ws: seq<T>): (r: seq<string>)
    ensures |r| == |ws| && forall i :: 0 <= i < |r| ==> r[i] == key(ws[i])
  {
    seq(|ws|, i requires 0 <= i < |ws| => key(ws[i]))
  }

  /** Records by key; a later one replaces an earlier one with the same key. */
  function ByKey<T>(key: T -> string, ws: seq<T>): (r: map<string, T>)
    ensures forall k :: k in r ==> r[k] in ws && key(r[k]) == k
  {
    if ws == [] then map[]
    else
      var init, w := ws[..|ws| - 1], ws[|ws| - 1];
      assert ws == init + [w];
      ByKey(key, init)[key(w) := w]
  }

  /** The records named by the items, each at its first mention. */
  function InItemOrder<T>(items: seq<string>, index: map<string, T>): seq<T> {
    if items == [] then []
    else
      var init, k := items[..|items| - 1], items[|items| - 1];
      InItemOrder(init, index) + if k in index && k !in init then [index[k]] else []
  }

  lemma {:induction false} ItemOrderAppend<T>(items: seq<string>, k: string, index: map<string, T>)
    ensures InItemOrder(items + [k], index)
         == if k in index && k !in items then InItemOrder(items, index) + [index[k]] else InItemOrder(items, index)
  {
    assert (items + [k])[..|items|] == items;
  }

  /** The records no item names, in their original order. */
  function Unnamed<T>(key: T -> string, ws: seq<T>, items: seq<string>): seq<T> {
    if ws == [] then []
    else
      var w := ws[|ws| - 1];
      Unnamed(key, ws[..|ws| - 1], items) + if key(w) in items then [] else [w]
  }

  function Rearranged<T>(key: T -> string, ws: seq<T>, items: seq<string>): seq<T> {
    InItemOrder(items, ByKey(key, ws)) + Unnamed(key, ws, items)
  }

  lemma {:induction false} ByKeyDomain<T>(key: T -> string, ws: seq<T>)
    ensures ByKey(key, ws).Keys == SetOf(KeysOf(key, ws))
  {
    if ws != [] {
      var init, w := ws[..|ws| - 1], ws[|ws| - 1];
      assert ws == init + [w];
      ByKeyDomain(key, init);
    }
  }

  lemma {:induction false} UnnamedEmpty<T>(key: T -> string, ws: seq<T>, items: seq<string>)
    requires forall w :: w in ws ==> key(w) in items
    ensures Unnamed(key, ws, items) == []
  {
    if ws != [] {
      UnnamedEmpty(key, ws[..|ws| - 1], items);
    }
  }

  lemma {:induction false} NewKey<T>(key: T -> string, items: seq<string>, before: seq<T>, k: string, w: T)
    requires Distinct(KeysOf(key, before)) && SetOf(KeysOf(key, before)) == SetOf(items) && k !in items && key(w) == k
    ensures KeysOf(key, before + [w]) == KeysOf(key, before) + [k]
    ensures Distinct(KeysOf(key, before + [w])) && SetOf(KeysOf(key, before + [w])) == SetOf(items + [k])
  {
    var keys := KeysOf(key, before);
    assert k !in keys by { assert k !in SetOf(items); }
    DistinctConcat(keys, [k]);
    assert SetOf(keys + [k]) == SetOf(keys) + {k} && SetOf(items + [k]) == SetOf(items) + {k};
  }

  /** In item order every named key appears once, at the place of its first mention. */
  lemma {:induction false} ItemOrderKeys<T>(key: T -> string, items: seq<string>, index: map<string, T>)
    requires forall k :: k in index ==> key(index[k]) == k
    requires forall k :: k in items ==> k in index
    ensures Distinct(KeysOf(key, InItemOrder(items, index)))
    ensures SetOf(KeysOf(key, InItemOrder(items, index))) == SetOf(items)
    ensures Distinct(items) ==> KeysOf(key, InItemOrder(items, index)) == items
    ensures forall w :: w in InItemOrder(items, index) ==> key(w) in index && w == index[key(w)]
  {
    if items != [] {
      var init, k := items[..|items| - 1], items[|items| - 1];
      assert items == init + [k];
      ItemOrderKeys(key, init, index);
      ItemOrderAppend(init, k, index);
      if k in init {
        assert SetOf(items) == SetOf(init);
        var i :| 0 <= i < |init| && init[i] == k;
        assert items[i] == items[|items| - 1];
      } else {
        NewKey(key, init, InItemOrder(init, index), k, index[k]);
        assert Distinct(items) ==> Distinct(init);
      }
    }
  }

  lemma {:induction false} DistinctKeysDistinct<T>(key: T -> string, ws: seq<T>)
    requires Distinct(KeysOf(key, ws))
    ensures Distinct(ws)
    ensures forall w :: w in ws ==> key(w) in ByKey(key, ws) && ByKey(key, ws)[key(w)] == w
  {
    var keys := KeysOf(key, ws);
    forall i, j | 0 <= i < j < |ws| ensures ws[i] != ws[j] {
      assert keys[i] != keys[j];
    }
    ByKeyDomain(key, ws);
    forall w | w in ws ensures key(w) in ByKey(key, ws) && ByKey(key, ws)[key(w)] == w {
      var i :| 0 <= i < |ws| && ws[i] == w;
      assert keys[i] in SetOf(keys);
      var j :| 0 <= j < |ws| && ws[j] == ByKey(key, ws)[key(w)];
      assert keys[j] == keys[i];
    }
  }

  /**
   * Rearranging by items that mention exactly the records' keys is a permutation if and only if the
   * keys are pairwise distinct; with a repeated key a record is lost.
   */
  lemma {:induction false} RearrangedPermutes<T>(key: T -> string, ws: seq<T>, items: seq<string>)
    requires SetOf(items) == SetOf(KeysOf(key, ws))
    ensures multiset(Rearranged(key, ws, items)) == multiset(ws) <==> Distinct(KeysOf(key, ws))
    ensures |Rearranged(key, ws, items)| == |SetOf(KeysOf(key, ws))|
    ensures Distinct(items) ==> KeysOf(key, Rearranged(key, ws, items)) == items
  {
    var keys, index, r := KeysOf(key, ws), ByKey(key, ws), Rearranged(key, ws, items);
    ByKeyDomain(key, ws);
    forall w | w in ws ensures key(w) in items {
      var i :| 0 <= i < |ws| && ws[i] == w;
      assert keys[i] in SetOf(items);
    }
    UnnamedEmpty(key, ws, items);
    assert forall k :: k in items ==> k in SetOf(keys);
    ItemOrderKeys(key, items, index);
    assert r == InItemOrder(items, index);
    SetOfSize(KeysOf(key, r));
    SetOfSize(keys);
    if Distinct(keys) {
      SameRecords(key, ws, r);
    } else {
      assert |multiset(r)| < |multiset(ws)|;
    }
  }

  lemma {:induction false} SameRecords<T>(key: T -> string, ws: seq<T>, r: seq<T>)
    requires Distinct(KeysOf(key, ws)) && Distinct(KeysOf(key, r)) && SetOf(KeysOf(key, ws)) == SetOf(KeysOf(key, r))
    requires forall w :: w in r ==> key(w) in ByKey(key, ws) && w == ByKey(key, ws)[key(w)]
    ensures multiset(r) == multiset(ws)
  {
    DistinctKeysDistinct(key, ws);
    DistinctKeysDistinct(key, r);
    forall w | w in ws ensures w in r {
      var i :| 0 <= i < |ws| && ws[i] == w;
      assert KeysOf(key, ws)[i] in SetOf(KeysOf(key, r));
      var j :| 0 <= j < |r| && KeysOf(key, r)[j] == key(w);
      assert r[j] in r;
    }
    assert SetOf(r) == SetOf(ws);
    SameElementsPermutation(r, ws);
  }
}
