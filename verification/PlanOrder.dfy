/** The order a wave plan induces, and reorderWorkloadsByPlan, which imposes it on the workload list. */
module PlanOrder {
  import opened Collections
  import opened DependencyGraph
  import opened GreedySchedule
  import opened Keyed
  import opened MigrationTypes
  import opened WavePlanner

  function FlattenKeys(rounds: seq<seq<string>>): seq<string> {
    if rounds == [] then [] else FlattenKeys(rounds[..|rounds| - 1]) + rounds[|rounds| - 1]
  }

  /** Every key comes after all its dependencies. */
  ghost predicate Respects(edges: seq<Edge>, list: seq<string>) {
    forall i, e :: 0 <= i < |list| && e in edges && e.dependent == list[i] ==> e.dependency in list[..i]
  }

  lemma {:induction false} RespectsAppend(edges: seq<Edge>, before: seq<string>, round: seq<string>)
    requires Respects(edges, before) && forall k :: k in round ==> Satisfied(edges, k, SetOf(before))
    ensures Respects(edges, before + round)
  {
    var list := before + round;
    forall i, e | 0 <= i < |list| && e in edges && e.dependent == list[i] ensures e.dependency in list[..i] {
      if i < |before| {
        assert list[..i] == before[..i];
      } else {
        assert round[i - |before|] in round;
        assert list[..i] == before + round[..i - |before|];
      }
    }
  }

  /** Wave after wave, the keys come in an order that respects every dependency, each exactly once. */
  lemma {:induction false} GreedyOrder(keys: set<string>, edges: seq<Edge>, names: map<string, string>, size: int,
                                       rounds: seq<seq<string>>)
    requires keys <= names.Keys && GreedyRounds(keys, edges, names, size, rounds)
    ensures Distinct(FlattenKeys(rounds)) && SetOf(FlattenKeys(rounds)) == Done(rounds)
    ensures Respects(edges, FlattenKeys(rounds))
    decreases |rounds|
  {
    if rounds != [] {
      var n := |rounds| - 1;
      var before, round := FlattenKeys(rounds[..n]), rounds[n];
      GreedyOrder(keys, edges, names, size, rounds[..n]);
      RoundShape(keys, edges, names, size, rounds, n);
      RoundSatisfied(keys, edges, names, size, rounds, n);
      SetOfSize(round);
      assert forall k :: k in before ==> k in SetOf(before);
      assert forall k :: k in round ==> k in SetOf(round);
      DistinctConcat(before, round);
      DoneUnfold(rounds);
      assert SetOf(before + round) == SetOf(before) + SetOf(round);
      RespectsAppend(edges, before, round);
    }
  }

  lemma {:induction false} RoundSatisfied(keys: set<string>, edges: seq<Edge>, names: map<string, string>, size: int,
                                          rounds: seq<seq<string>>, n: nat)
    requires keys <= names.Keys && GreedyRounds(keys, edges, names, size, rounds) && n < |rounds|
    ensures forall k :: k in rounds[n] ==> Satisfied(edges, k, Done(rounds[..n]))
  {
    RoundAt(keys, edges, names, size, rounds, n);
    assert forall k :: k in rounds[n] ==> k in SetOf(rounds[n]);
  }

  function PlanKeys(plan: Plan): seq<string> {
    FlattenKeys(Rounds(plan.waves))
  }

  function Reordered(ws: seq<Workload>, plan: Plan): seq<Workload> {
    if ws == [] || plan.waves == [] then ws else Rearranged(KeyOf, ws, PlanKeys(plan))
  }

  // ---------- reorderWorkloadsByPlan ----------

  method IndexByKey<T>(key: T -> string, ws: seq<T>) returns (index: map<string, T>)
    ensures index == ByKey(key, ws)
  {
    index := map[];
    for i := 0 to |ws|
      invariant index == ByKey(key, ws[..i])
    {
      assert ws[..i + 1][..i] == ws[..i];
      index := index[key(ws[i]) := ws[i]];
    }
    assert ws[..|ws|] == ws;
  }

  /** plan.go:355-365 for one wave. */
  method PlaceWave<T>(wave: Wave, index: map<string, T>, ordered0: seq<T>, seen0: set<string>,
                      ghost items: seq<string>)
    returns (ordered: seq<T>, seen: set<string>)
    requires ordered0 == InItemOrder(items, index)
    requires SeenItems(seen0, items, index)
    ensures ordered == InItemOrder(items + KeyList(wave.workloads), index)
    ensures SeenItems(seen, items + KeyList(wave.workloads), index)
  {
    ordered, seen := ordered0, seen0;
    ghost var sofar := items;
    ghost var keys := KeyList(wave.workloads);
    for j := 0 to |wave.workloads|
      invariant sofar == items + keys[..j]
      invariant ordered == InItemOrder(sofar, index)
      invariant SeenItems(seen, sofar, index)
    {
      var key := wave.workloads[j].vmId;
      assert items + keys[..j + 1] == sofar + [key];
      ordered, seen := PlaceItem(key, index, ordered, seen, sofar);
      sofar := sofar + [key];
    }
    assert keys[..|keys|] == keys;
  }

  /** One item of a wave: placed unless it names nothing or was placed before. */
  method PlaceItem<T>(key: string, index: map<string, T>, ordered0: seq<T>, seen0: set<string>,
                      ghost items: seq<string>)
    returns (ordered: seq<T>, seen: set<string>)
    requires ordered0 == InItemOrder(items, index) && SeenItems(seen0, items, index)
    ensures ordered == InItemOrder(items + [key], index) && SeenItems(seen, items + [key], index)
  {
    ItemOrderAppend(items, key, index);
    ordered, seen := ordered0, seen0;
    if key in index && key !in seen {
      seen := seen + {key};
      ordered := ordered + [index[key]];
    }
  }

  ghost predicate SeenItems<T>(seen: set<string>, items: seq<string>, index: map<string, T>) {
    forall k :: k in seen <==> k in items && k in index
  }

  method ReorderWorkloadsByPlan(ws: seq<Workload>, plan: Plan) returns (ordered: seq<Workload>)
    ensures ordered == Reordered(ws, plan)
  {
    if |ws| == 0 || |plan.waves| == 0 {
      return ws;
    }
    var index := IndexByKey(KeyOf, ws);
    ByKeyDomain(KeyOf, ws);
    ordered := [];
    var seen: set<string> := {};
    ghost var rounds := Rounds(plan.waves);
    ghost var items: seq<string> := [];
    for i := 0 to |plan.waves|
      invariant items == FlattenKeys(rounds[..i])
      invariant ordered == InItemOrder(items, index)
      invariant SeenItems(seen, items, index)
    {
      ordered, seen := PlaceWave(plan.waves[i], index, ordered, seen, items);
      assert rounds[..i + 1][..i] == rounds[..i];
      items := items + rounds[i];
    }
    assert rounds[..|plan.waves|] == rounds;
    var rest := AppendUnseen(KeyOf, ws, seen, items);
    ordered := ordered + rest;
  }

  /** plan.go:367-373. */
  method AppendUnseen<T>(key: T -> string, ws: seq<T>, seen: set<string>, ghost items: seq<string>)
    returns (rest: seq<T>)
    requires SeenItems(seen, items, ByKey(key, ws))
    ensures rest == Unnamed(key, ws, items)
  {
    ByKeyDomain(key, ws);
    rest := [];
    for i := 0 to |ws|
      invariant rest == Unnamed(key, ws[..i], items)
    {
      assert ws[..i + 1][..i] == ws[..i];
      assert KeysOf(key, ws)[i] in SetOf(KeysOf(key, ws));
      if key(ws[i]) !in seen {
        rest := rest + [ws[i]];
      }
    }
    assert ws[..|ws|] == ws;
  }
}
