/** buildDependencyAwareWaves: Kahn's algorithm in bounded, name-ordered batches. */
module WavePlanner {
  import opened Text
  import opened Collections
  import opened DependencyGraph
  import opened GreedySchedule
  import opened Sorting
  import opened MigrationTypes

  // ---------- The planning problem, as the workload list states it ----------

  function Keys(ws: seq<PlannedWorkload>): set<string> {
    set w | w in ws :: w.vmId
  }

  function KeyList(ws: seq<PlannedWorkload>): (r: seq<string>)
    ensures |r| == |ws| && forall i :: 0 <= i < |r| ==> r[i] == ws[i].vmId
  {
    seq(|ws|, i requires 0 <= i < |ws| => ws[i].vmId)
  }

  /** Workloads by key; a later workload replaces an earlier one with the same key. */
  function Nodes(ws: seq<PlannedWorkload>): (r: map<string, PlannedWorkload>)
    ensures r.Keys == Keys(ws)
    ensures forall k :: k in r ==> r[k] in ws && r[k].vmId == k
  {
    if ws == [] then map[]
    else
      var init, w := ws[..|ws| - 1], ws[|ws| - 1];
      assert ws == init + [w];
      Nodes(init)[w.vmId := w]
  }

  /** Lower-cased identifiers and names to keys; later entries win. */
  function NameIndex(lower: string -> string, ws: seq<PlannedWorkload>): (r: map<string, string>)
    ensures forall n :: n in r ==> r[n] in Keys(ws)
  {
    if ws == [] then map[]
    else
      var init, w := ws[..|ws| - 1], ws[|ws| - 1];
      assert ws == init + [w];
      NameIndex(lower, init)[lower(w.vmId) := w.vmId][lower(w.name) := w.vmId]
  }

  /** A lower-cased text names a workload: it is its identifier or its name. */
  ghost predicate Names(lower: string -> string, w: PlannedWorkload, n: string) {
    lower(w.vmId) == n || lower(w.name) == n
  }

  /** ws[i] is the last workload that a text names. */
  ghost predicate LastNamed(lower: string -> string, ws: seq<PlannedWorkload>, n: string, i: int) {
    0 <= i < |ws| && Names(lower, ws[i], n) && forall j :: i < j < |ws| ==> !Names(lower, ws[j], n)
  }

  /** A text is resolved exactly if it names a workload by identifier or name, and then to the last one it names. */
  lemma {:induction false} NameIndexMeans(lower: string -> string, ws: seq<PlannedWorkload>, n: string)
    ensures n in NameIndex(lower, ws) <==> exists w :: w in ws && Names(lower, w, n)
    ensures n in NameIndex(lower, ws) ==>
              exists i :: LastNamed(lower, ws, n, i) && NameIndex(lower, ws)[n] == ws[i].vmId
  {
    if ws != [] {
      var k := |ws| - 1;
      var init, w := ws[..k], ws[k];
      NameIndexMeans(lower, init, n);
      assert ws == init + [w] && w in ws;
      if Names(lower, w, n) {
        assert LastNamed(lower, ws, n, k);
      } else if n in NameIndex(lower, init) {
        var i :| LastNamed(lower, init, n, i) && NameIndex(lower, init)[n] == init[i].vmId;
        assert LastNamed(lower, ws, n, i);
      }
    }
  }

  /** No text names two workloads of the list. */
  ghost predicate Unambiguous(lower: string -> string, ws: seq<PlannedWorkload>) {
    forall i, j, n :: 0 <= i < j < |ws| && Names(lower, ws[i], n) ==> !Names(lower, ws[j], n)
  }

  /** Every dependency, trimmed and lower-cased, is the identifier or name of another workload. */
  ghost predicate AllNameOthers(lower: string -> string, ws: seq<PlannedWorkload>) {
    forall i, d :: 0 <= i < |ws| && d in ws[i].dependencies ==> NamesAnother(lower, ws, i, lower(TrimSpace(d)))
  }

  ghost predicate NamesAnother(lower: string -> string, ws: seq<PlannedWorkload>, i: int, n: string) {
    exists j :: 0 <= j < |ws| && j != i && Names(lower, ws[j], n)
  }

  /** The sort key of each workload. */
  function SortNames(lower: string -> string, ws: seq<PlannedWorkload>): (r: map<string, string>)
    ensures r.Keys == Keys(ws)
  {
    var nodes := Nodes(ws);
    map k | k in nodes :: lower(nodes[k].name)
  }

  /** What, if anything, is wrong with one dependency of one workload. */
  function Fault(lower: string -> string, index: map<string, string>, w: PlannedWorkload, dependency: string)
    : Option<PlanError>
  {
    var name := lower(TrimSpace(dependency));
    if name !in index then Some(UnknownDependency(w.name, dependency))
    else if index[name] == w.vmId then Some(SelfDependency(w.name))
    else None
  }

  /** The dependencies of one workload all name another workload. */
  ghost predicate Resolves(lower: string -> string, index: map<string, string>, w: PlannedWorkload, deps: seq<string>) {
    deps == [] ||
    (Resolves(lower, index, w, deps[..|deps| - 1]) && Fault(lower, index, w, deps[|deps| - 1]) == None)
  }

  ghost predicate FaultFree(lower: string -> string, index: map<string, string>, ws: seq<PlannedWorkload>) {
    ws == [] ||
    var w := ws[|ws| - 1];
    FaultFree(lower, index, ws[..|ws| - 1]) && Resolves(lower, index, w, w.dependencies)
  }

  /** `error` is the fault of the first faulty dependency, in list order. */
  ghost predicate FirstFault(lower: string -> string, index: map<string, string>, ws: seq<PlannedWorkload>,
                             error: PlanError)
  {
    exists i, j ::
      && 0 <= i < |ws| && 0 <= j < |ws[i].dependencies|
      && FaultFree(lower, index, ws[..i]) && Resolves(lower, index, ws[i], ws[i].dependencies[..j])
      && Fault(lower, index, ws[i], ws[i].dependencies[j]) == Some(error)
  }

  lemma {:induction false} ResolvesMeans(lower: string -> string, index: map<string, string>, w: PlannedWorkload,
                                         deps: seq<string>)
    ensures Resolves(lower, index, w, deps) <==> forall d :: d in deps ==> Fault(lower, index, w, d) == None
  {
    if deps != [] {
      var init, last := deps[..|deps| - 1], deps[|deps| - 1];
      ResolvesMeans(lower, index, w, init);
      assert deps == init + [last];
      assert last in deps;
    }
  }

  /** A workload list is fault-free exactly when every dependency names some other workload. */
  lemma {:induction false} FaultFreeMeans(lower: string -> string, index: map<string, string>,
                                          ws: seq<PlannedWorkload>)
    ensures FaultFree(lower, index, ws) <==>
            forall w, d :: w in ws && d in w.dependencies ==> Fault(lower, index, w, d) == None
  {
    if ws != [] {
      var init, last := ws[..|ws| - 1], ws[|ws| - 1];
      FaultFreeMeans(lower, index, init);
      ResolvesMeans(lower, index, last, last.dependencies);
      assert ws == init + [last];
      assert last in ws;
    }
  }

  /**
   * A dependency is unknown exactly if it names nothing, and refers to its own workload exactly if the
   * last one it names has its key.
   */
  lemma {:induction false} FaultMeans(lower: string -> string, ws: seq<PlannedWorkload>, w: PlannedWorkload, d: string)
    ensures var n, fault := lower(TrimSpace(d)), Fault(lower, NameIndex(lower, ws), w, d);
            && (fault == Some(UnknownDependency(w.name, d)) <==> forall v :: v in ws ==> !Names(lower, v, n))
            && (fault == Some(SelfDependency(w.name)) <==>
                exists i :: LastNamed(lower, ws, n, i) && ws[i].vmId == w.vmId)
  {
    var n := lower(TrimSpace(d));
    NameIndexMeans(lower, ws, n);
    assert forall i, j :: LastNamed(lower, ws, n, i) && LastNamed(lower, ws, n, j) ==> i == j;
    assert forall i :: LastNamed(lower, ws, n, i) ==> ws[i] in ws;
  }

  /** When no text names two workloads, nothing is faulty exactly if every dependency names another workload. */
  lemma {:induction false} FaultFreeByName(lower: string -> string, ws: seq<PlannedWorkload>)
    requires Unambiguous(lower, ws)
    ensures FaultFree(lower, NameIndex(lower, ws), ws) <==> AllNameOthers(lower, ws)
    ensures Distinct(KeyList(ws))
  {
    var index := NameIndex(lower, ws);
    forall i, j | 0 <= i < j < |ws| ensures ws[i].vmId != ws[j].vmId {
      assert Names(lower, ws[i], lower(ws[i].vmId));
      assert !Names(lower, ws[j], lower(ws[i].vmId));
    }
    FaultFreeMeans(lower, index, ws);
    forall i, d | 0 <= i < |ws| && d in ws[i].dependencies
      ensures Fault(lower, index, ws[i], d) == None <==> NamesAnother(lower, ws, i, lower(TrimSpace(d)))
    {
      FaultByName(lower, ws, i, d);
    }
    if AllNameOthers(lower, ws) {
      forall w, d | w in ws && d in w.dependencies ensures Fault(lower, index, w, d) == None {
        var i :| 0 <= i < |ws| && ws[i] == w;
      }
    } else {
      var i, d :| 0 <= i < |ws| && d in ws[i].dependencies && !NamesAnother(lower, ws, i, lower(TrimSpace(d)));
      assert ws[i] in ws;
    }
  }

  lemma {:induction false} FaultByName(lower: string -> string, ws: seq<PlannedWorkload>, i: nat, d: string)
    requires Unambiguous(lower, ws) && i < |ws|
    requires forall a, b :: 0 <= a < b < |ws| ==> ws[a].vmId != ws[b].vmId
    ensures Fault(lower, NameIndex(lower, ws), ws[i], d) == None <==> NamesAnother(lower, ws, i, lower(TrimSpace(d)))
  {
    var n, index := lower(TrimSpace(d)), NameIndex(lower, ws);
    NameIndexMeans(lower, ws, n);
    if n in index {
      var k :| LastNamed(lower, ws, n, k) && index[n] == ws[k].vmId;
      assert k != i ==> NamesAnother(lower, ws, i, n);
      assert k != i ==> ws[k].vmId != ws[i].vmId;
    } else {
      assert forall j :: 0 <= j < |ws| ==> ws[j] in ws;
    }
  }

  /** One edge per resolved dependency, duplicates included. */
  ghost function EdgesFor(lower: string -> string, index: map<string, string>, key: string, deps: seq<string>)
    : seq<Edge>
  {
    if deps == [] then []
    else
      var name := lower(TrimSpace(deps[|deps| - 1]));
      EdgesFor(lower, index, key, deps[..|deps| - 1]) + if name in index then [Edge(index[name], key)] else []
  }

  ghost function EdgesOf(lower: string -> string, index: map<string, string>, ws: seq<PlannedWorkload>): seq<Edge> {
    if ws == [] then []
    else
      var w := ws[|ws| - 1];
      EdgesOf(lower, index, ws[..|ws| - 1]) + EdgesFor(lower, index, w.vmId, w.dependencies)
  }

  /** The resolved dependency graph of a workload list. */
  ghost function Graph(lower: string -> string, ws: seq<PlannedWorkload>): seq<Edge> {
    EdgesOf(lower, NameIndex(lower, ws), ws)
  }

  lemma {:induction false} EdgesForMembers(lower: string -> string, index: map<string, string>, key: string,
                                           deps: seq<string>, e: Edge)
    ensures e in EdgesFor(lower, index, key, deps) <==>
            e.dependent == key &&
            exists d :: d in deps && lower(TrimSpace(d)) in index && e.dependency == index[lower(TrimSpace(d))]
  {
    if deps != [] {
      var init, d := deps[..|deps| - 1], deps[|deps| - 1];
      EdgesForMembers(lower, index, key, init, e);
      assert deps == init + [d];
    }
  }

  /** The edges are exactly the resolved (dependency, workload) pairs. */
  lemma {:induction false} EdgesOfMembers(lower: string -> string, index: map<string, string>,
                                          ws: seq<PlannedWorkload>, e: Edge)
    ensures e in EdgesOf(lower, index, ws) <==>
            exists w, d :: w in ws && d in w.dependencies && lower(TrimSpace(d)) in index &&
                           e == Edge(index[lower(TrimSpace(d))], w.vmId)
  {
    if ws != [] {
      var init, w := ws[..|ws| - 1], ws[|ws| - 1];
      EdgesOfMembers(lower, index, init, e);
      EdgesForMembers(lower, index, w.vmId, w.dependencies, e);
      assert ws == init + [w];
    }
  }

  lemma {:induction false} GraphWithin(lower: string -> string, ws: seq<PlannedWorkload>)
    ensures Within(Graph(lower, ws), Keys(ws))
  {
    forall e | e in Graph(lower, ws) ensures e.dependency in Keys(ws) && e.dependent in Keys(ws) {
      EdgesOfMembers(lower, NameIndex(lower, ws), ws, e);
    }
  }

  // ---------- Sorting and indexing ----------

  /** sort.Slice by name: some permutation in non-decreasing name order. */
  method SortByName(names: map<string, string>, items: seq<string>) returns (sorted: seq<string>)
    requires forall k :: k in items ==> k in names
    ensures multiset(sorted) == multiset(items)
    ensures forall k :: k in sorted ==> k in names
    ensures SortedBy(names, sorted)
  {
    sorted := SortOn(k => if k in names then names[k] else "", items);
    forall k | k in sorted ensures k in names {
      assert k in multiset(items);
    }
  }

  /** plan.go:148-153. */
  method IndexWorkloads(lower: string -> string, ws: seq<PlannedWorkload>)
    returns (nodes: map<string, PlannedWorkload>, index: map<string, string>)
    ensures nodes == Nodes(ws) && index == NameIndex(lower, ws)
  {
    nodes, index := map[], map[];
    for i := 0 to |ws|
      invariant nodes == Nodes(ws[..i]) && index == NameIndex(lower, ws[..i])
    {
      assert ws[..i + 1][..i] == ws[..i];
      nodes := nodes[ws[i].vmId := ws[i]];
      index := index[lower(ws[i].vmId) := ws[i].vmId][lower(ws[i].name) := ws[i].vmId];
    }
    assert ws[..|ws|] == ws;
  }

  // ---------- Linking: in-degrees and reverse edges ----------

  function Lookup(reverse: map<string, seq<string>>, key: string): seq<string> {
    if key in reverse then reverse[key] else []
  }

  ghost predicate Counts(indegree: map<string, int>, keys: set<string>, edges: seq<Edge>, done: set<string>) {
    indegree.Keys == keys && forall k :: k in keys ==> indegree[k] == InDegree(edges, k, done)
  }

  ghost predicate Reverses(reverse: map<string, seq<string>>, edges: seq<Edge>) {
    forall k :: Lookup(reverse, k) == Dependents(edges, k)
  }

  lemma {:induction false} AppendEdge(edges: seq<Edge>, e: Edge, keys: set<string>, indegree: map<string, int>,
                                      reverse: map<string, seq<string>>)
    requires Counts(indegree, keys, edges, {}) && Reverses(reverse, edges) && e.dependent in keys
    ensures Counts(indegree[e.dependent := indegree[e.dependent] + 1], keys, edges + [e], {})
    ensures Reverses(reverse[e.dependency := Lookup(reverse, e.dependency) + [e.dependent]], edges + [e])
  {
    var edges', reverse' := edges + [e], reverse[e.dependency := Lookup(reverse, e.dependency) + [e.dependent]];
    assert edges'[..|edges|] == edges;
    forall k ensures Lookup(reverse', k) == Dependents(edges', k) {
      assert Lookup(reverse, k) == Dependents(edges, k);
    }
  }

  /** In-degrees and reverse edges are those of the edges. */
  ghost predicate Linked(indegree: map<string, int>, reverse: map<string, seq<string>>, keys: set<string>,
                         edges: seq<Edge>)
  {
    Counts(indegree, keys, edges, {}) && Reverses(reverse, edges)
  }

  lemma {:induction false} NextDependency(lower: string -> string, index: map<string, string>, w: PlannedWorkload,
                                          deps: seq<string>, j: nat)
    requires j < |deps| && Resolves(lower, index, w, deps[..j]) && Fault(lower, index, w, deps[j]) == None
    ensures Resolves(lower, index, w, deps[..j + 1])
    ensures EdgesFor(lower, index, w.vmId, deps[..j + 1])
         == EdgesFor(lower, index, w.vmId, deps[..j]) + [Edge(index[lower(TrimSpace(deps[j]))], w.vmId)]
  {
    assert deps[..j + 1][..j] == deps[..j];
  }

  /** The dependencies of one workload (plan.go:156-166). */
  method LinkWorkload(lower: string -> string, w: PlannedWorkload, index: map<string, string>,
                      indegree0: map<string, int>, reverse0: map<string, seq<string>>, ghost keys: set<string>,
                      ghost before: seq<Edge>)
    returns (fault: Option<PlanError>, indegree: map<string, int>, reverse: map<string, seq<string>>)
    requires w.vmId in keys && Linked(indegree0, reverse0, keys, before)
    ensures fault.None? ==> Resolves(lower, index, w, w.dependencies)
    ensures fault.None? ==> Linked(indegree, reverse, keys, before + EdgesFor(lower, index, w.vmId, w.dependencies))
    ensures fault.Some? ==> exists j ::
                && 0 <= j < |w.dependencies| && Resolves(lower, index, w, w.dependencies[..j])
                && Fault(lower, index, w, w.dependencies[j]) == fault
  {
    fault, indegree, reverse := None, indegree0, reverse0;
    var deps := w.dependencies;
    ghost var own: seq<Edge> := [];
    assert before + own == before;
    for j := 0 to |deps|
      invariant fault == None && Resolves(lower, index, w, deps[..j])
      invariant own == EdgesFor(lower, index, w.vmId, deps[..j])
      invariant Linked(indegree, reverse, keys, before + own)
    {
      fault := Fault(lower, index, w, deps[j]);
      if fault.Some? {
        return;
      }
      NextDependency(lower, index, w, deps, j);
      var key := index[lower(TrimSpace(deps[j]))];
      indegree, reverse := AddEdge(key, w.vmId, indegree, reverse, keys, before + own);
      assert before + own + [Edge(key, w.vmId)] == before + (own + [Edge(key, w.vmId)]);
      own := own + [Edge(key, w.vmId)];
    }
    assert deps[..|deps|] == deps;
  }

  method AddEdge(dependency: string, dependent: string, indegree0: map<string, int>,
                 reverse0: map<string, seq<string>>, ghost keys: set<string>, ghost edges: seq<Edge>)
    returns (indegree: map<string, int>, reverse: map<string, seq<string>>)
    requires dependent in keys && Linked(indegree0, reverse0, keys, edges)
    ensures Linked(indegree, reverse, keys, edges + [Edge(dependency, dependent)])
  {
    AppendEdge(edges, Edge(dependency, dependent), keys, indegree0, reverse0);
    indegree := indegree0[dependent := indegree0[dependent] + 1];
    reverse := reverse0[dependency := Lookup(reverse0, dependency) + [dependent]];
  }

  /** plan.go:155-167: resolves every dependency, stopping at the first that names nothing or itself. */
  method Link(lower: string -> string, ws: seq<PlannedWorkload>, index: map<string, string>)
    returns (fault: Option<PlanError>, indegree: map<string, int>, reverse: map<string, seq<string>>)
    ensures fault.Some? ==> FirstFault(lower, index, ws, fault.value)
    ensures fault.None? ==> FaultFree(lower, index, ws)
    ensures fault.None? ==> Linked(indegree, reverse, Keys(ws), EdgesOf(lower, index, ws))
  {
    fault, indegree, reverse := None, map k | k in Keys(ws) :: 0, map[];
    ghost var keys := Keys(ws);
    ghost var sofar: seq<Edge> := [];
    for i := 0 to |ws|
      invariant fault == None && FaultFree(lower, index, ws[..i])
      invariant sofar == EdgesOf(lower, index, ws[..i])
      invariant Linked(indegree, reverse, keys, sofar)
    {
      fault, indegree, reverse := LinkWorkload(lower, ws[i], index, indegree, reverse, keys, sofar);
      if fault.Some? {
        return;
      }
      sofar := sofar + EdgesFor(lower, index, ws[i].vmId, ws[i].dependencies);
      assert ws[..i + 1][..i] == ws[..i] && ws[..i + 1] == ws[..i] + [ws[i]];
    }
    assert ws[..|ws|] == ws;
  }

  // ---------- Releasing dependents ----------

  /** plan.go:205-210 for one finished key: lower its dependents and note those that reach zero. */
  method LowerAll(dependents: seq<string>, indegree0: map<string, int>)
    returns (indegree: map<string, int>, ready: seq<string>)
    requires forall d :: d in dependents ==> d in indegree0
    requires forall k :: k in indegree0 ==> multiset(dependents)[k] <= indegree0[k]
    ensures indegree.Keys == indegree0.Keys
    ensures forall k :: k in indegree0 ==> indegree[k] == indegree0[k] - multiset(dependents)[k]
    ensures Distinct(ready)
    ensures forall k :: k in ready <==> k in indegree0 && indegree0[k] > 0 && indegree[k] == 0
  {
    indegree, ready := indegree0, [];
    for j := 0 to |dependents|
      invariant indegree.Keys == indegree0.Keys
      invariant forall k :: k in indegree0 ==> indegree[k] == indegree0[k] - multiset(dependents[..j])[k]
      invariant Distinct(ready)
      invariant forall k :: k in ready <==> k in indegree0 && indegree0[k] > 0 && indegree[k] == 0
    {
      var d := dependents[j];
      OneMore(dependents, j);
      indegree := indegree[d := indegree[d] - 1];
      if indegree[d] == 0 {
        ready := ready + [d];
      }
    }
    assert dependents[..|dependents|] == dependents;
  }

  lemma {:induction false} OneMore(s: seq<string>, j: nat)
    requires j < |s|
    ensures multiset(s[..j + 1]) == multiset(s[..j]) + multiset{s[j]}
    ensures multiset(s[..j + 1]) <= multiset(s)
  {
    assert s[..j + 1] == s[..j] + [s[j]];
    assert s == s[..j + 1] + s[j + 1..];
  }

  method ReleaseOne(key: string, dependents: seq<string>, indegree0: map<string, int>, ghost keys: set<string>,
                    ghost edges: seq<Edge>, ghost done: set<string>)
    returns (indegree: map<string, int>, ready: seq<string>)
    requires Within(edges, keys) && Counts(indegree0, keys, edges, done)
    requires key !in done && dependents == Dependents(edges, key)
    ensures Counts(indegree, keys, edges, done + {key})
    ensures forall k :: k in keys ==> indegree[k] <= indegree0[k]
    ensures Distinct(ready)
    ensures forall k :: k in ready <==> k in keys && indegree0[k] > 0 && indegree[k] == 0
  {
    forall k | k in keys
      ensures InDegree(edges, k, done + {key}) == indegree0[k] - multiset(dependents)[k]
    {
      InDegreeAfter(edges, k, done, key);
    }
    forall d | d in dependents ensures d in keys {
      DependentsAreEdges(edges, key, d);
    }
    indegree, ready := LowerAll(dependents, indegree0);
  }

  /** plan.go:203-211: releases every key of the current wave, in order. */
  method Release(current: seq<string>, reverse: map<string, seq<string>>, indegree0: map<string, int>,
                 ghost keys: set<string>, ghost edges: seq<Edge>, ghost done: set<string>)
    returns (indegree: map<string, int>, ready: seq<string>)
    requires Within(edges, keys) && Counts(indegree0, keys, edges, done) && Reverses(reverse, edges)
    requires Distinct(current) && SetOf(current) !! done
    ensures Counts(indegree, keys, edges, done + SetOf(current))
    ensures Distinct(ready)
    ensures forall k :: k in ready <==> k in keys && indegree0[k] > 0 && indegree[k] == 0
  {
    indegree, ready := indegree0, [];
    assert done + SetOf(current[..0]) == done;
    for i := 0 to |current|
      invariant Counts(indegree, keys, edges, done + SetOf(current[..i]))
      invariant Distinct(ready)
      invariant forall k :: k in keys ==> indegree[k] <= indegree0[k]
      invariant forall k :: k in ready <==> k in keys && indegree0[k] > 0 && indegree[k] == 0
    {
      ghost var sofar := done + SetOf(current[..i]);
      assert current[..i + 1] == current[..i] + [current[i]];
      assert done + SetOf(current[..i + 1]) == sofar + {current[i]};
      var more;
      indegree, more := ReleaseOne(current[i], Lookup(reverse, current[i]), indegree, keys, edges, sofar);
      DistinctConcat(ready, more);
      ready := ready + more;
    }
    assert current[..|current|] == current;
  }

  // ---------- The waves ----------

  /** The keys of each wave. */
  function Rounds(waves: seq<Wave>): (r: seq<seq<string>>)
    ensures |r| == |waves| && forall i :: 0 <= i < |r| ==> r[i] == KeyList(waves[i].workloads)
  {
    seq(|waves|, i requires 0 <= i < |waves| => KeyList(waves[i].workloads))
  }

  /** Waves numbered from 1, each holding workloads of the list. */
  ghost predicate WellFormedWaves(ws: seq<PlannedWorkload>, waves: seq<Wave>) {
    forall i :: 0 <= i < |waves| ==>
      && waves[i].index == i + 1 && waves[i].reason == "dependency_wave" && waves[i].dependencyAware
      && forall w :: w in waves[i].workloads ==> w in ws
  }

  /** The complete specification of a successful plan. */
  ghost predicate IsWavePlan(lower: string -> string, ws: seq<PlannedWorkload>, size: int, waves: seq<Wave>) {
    && WellFormedWaves(ws, waves)
    && GreedyRounds(Keys(ws), Graph(lower, ws), SortNames(lower, ws), size, Rounds(waves))
    && Done(Rounds(waves)) == Keys(ws)
  }

  function PickNodes(nodes: map<string, PlannedWorkload>, round: seq<string>): (r: seq<PlannedWorkload>)
    requires forall k :: k in round ==> k in nodes
    ensures |r| == |round| && forall j :: 0 <= j < |r| ==> r[j] == nodes[round[j]]
  {
    seq(|round|, j requires 0 <= j < |round| => nodes[round[j]])
  }

  /** The first `count` ready keys form a greedy round. */
  lemma {:induction false} TakeIsGreedy(keys: set<string>, edges: seq<Edge>, names: map<string, string>, size: int,
                                        done: set<string>, available: seq<string>, count: nat)
    requires keys <= names.Keys && 0 < |available| && Distinct(available)
    requires SetOf(available) == Ready(keys, edges, done)
    requires (forall k :: k in available ==> k in names) && SortedBy(names, available)
    requires count == if size <= 0 || size > |available| then |available| else size
    ensures GreedyRound(keys, edges, names, size, done, available[..count])
    ensures available[..count] + available[count..] == available
    ensures available[..count] != [] && forall k :: k in available[..count] ==> k in keys
  {
    SetOfSize(available);
    var round, rest := available[..count], available[count..];
    assert available == round + rest;
    forall k | k in round ensures k in available && k in keys {
      assert k in SetOf(available);
    }
    if size <= 0 || |available| <= size {
      assert round == available;
    }
    forall k, r | k in Ready(keys, edges, done) && k !in round && r in round ensures !Less(names[k], names[r]) {
      assert k in rest;
      var i :| 0 <= i < |rest| && rest[i] == k;
      var j :| 0 <= j < |round| && round[j] == r;
      assert available[count + i] == k && available[j] == r;
    }
  }

  lemma {:induction false} CountsReady(keys: set<string>, edges: seq<Edge>, indegree: map<string, int>,
                                       done: set<string>)
    requires Counts(indegree, keys, edges, done)
    ensures forall k :: k in keys ==> indegree[k] >= 0 && (indegree[k] == 0 <==> Satisfied(edges, k, done))
  {
    forall k | k in keys ensures indegree[k] == 0 <==> Satisfied(edges, k, done) {
      InDegreeZero(edges, k, done);
    }
  }

  /** plan.go:169-174: the keys without dependencies, in whatever order the map yields them. */
  method InitiallyAvailable(indegree: map<string, int>) returns (available: seq<string>)
    ensures Distinct(available)
    ensures forall k :: k in available <==> k in indegree && indegree[k] == 0
  {
    available := [];
    var rest := indegree.Keys;
    while rest != {}
      invariant rest <= indegree.Keys && Distinct(available)
      invariant forall k :: k in available <==> k in indegree.Keys - rest && indegree[k] == 0
    {
      var k :| k in rest;
      if indegree[k] == 0 {
        available := available + [k];
      }
      rest := rest - {k};
    }
  }

  /** The loop's state between waves: exact in-degrees, and the ready keys in name order. */
  ghost predicate Frontier(keys: set<string>, edges: seq<Edge>, names: map<string, string>, done: set<string>,
                           indegree: map<string, int>, available: seq<string>)
  {
    && Counts(indegree, keys, edges, done)
    && Distinct(available) && SetOf(available) == Ready(keys, edges, done)
    && (forall k :: k in available ==> k in names) && SortedBy(names, available)
  }

  method Start(names: map<string, string>, indegree: map<string, int>, ghost keys: set<string>, ghost edges: seq<Edge>)
    returns (available: seq<string>)
    requires keys <= names.Keys && Counts(indegree, keys, edges, {})
    ensures Frontier(keys, edges, names, {}, indegree, available)
  {
    CountsReady(keys, edges, indegree, {});
    var unsorted := InitiallyAvailable(indegree);
    available := SortByName(names, unsorted);
    MultisetDistinct(unsorted, available);
    assert SetOf(unsorted) == Ready(keys, edges, {});
  }

  /** plan.go:203-218: release the current wave's dependents and merge them into what is left. */
  method Advance(names: map<string, string>, reverse: map<string, seq<string>>, current: seq<string>,
                 rest: seq<string>, indegree0: map<string, int>, ghost keys: set<string>, ghost edges: seq<Edge>,
                 ghost done: set<string>)
    returns (indegree: map<string, int>, available: seq<string>)
    requires Within(edges, keys) && Reverses(reverse, edges) && keys <= names.Keys
    requires forall k :: k in done ==> Satisfied(edges, k, done)
    requires Frontier(keys, edges, names, done, indegree0, current + rest)
    ensures Frontier(keys, edges, names, done + SetOf(current), indegree, available)
  {
    Halves(current, rest);
    var released;
    indegree, released := Release(current, reverse, indegree0, keys, edges, done);
    CountsReady(keys, edges, indegree0, done);
    CountsReady(keys, edges, indegree, done + SetOf(current));
    assert forall k :: k in released ==> k in SetOf(released);

    var sortedReleased := SortByName(names, released);
    MultisetDistinct(released, sortedReleased);
    assert forall k :: k in sortedReleased ==> k in SetOf(released);
    assert forall k :: k in rest ==> k in SetOf(current + rest);
    DistinctConcat(rest, sortedReleased);
    var merged := rest + sortedReleased;
    available := SortByName(names, merged);
    MultisetDistinct(merged, available);
    assert SetOf(merged) == SetOf(rest) + SetOf(released);
  }

  lemma {:induction false} Halves(current: seq<string>, rest: seq<string>)
    requires Distinct(current + rest)
    ensures Distinct(current) && Distinct(rest) && SetOf(current) !! SetOf(rest)
    ensures SetOf(current + rest) == SetOf(current) + SetOf(rest)
  {
    var all := current + rest;
    forall i, j | 0 <= i < j < |current| ensures current[i] != current[j] {
      assert all[i] == current[i] && all[j] == current[j];
    }
    forall i, j | 0 <= i < j < |rest| ensures rest[i] != rest[j] {
      assert all[|current| + i] == rest[i] && all[|current| + j] == rest[j];
    }
    forall k | k in current ensures k !in rest {
      var i :| 0 <= i < |current| && current[i] == k;
      assert all[i] == k;
      assert forall j :: 0 <= j < |rest| ==> all[|current| + j] == rest[j];
    }
  }

  lemma {:induction false} RoundProgress(keys: set<string>, done: set<string>, round: seq<string>)
    requires round != [] && Distinct(round) && SetOf(round) <= keys - done
    ensures |done + SetOf(round)| == |done| + |round|
    ensures |keys - (done + SetOf(round))| < |keys - done|
  {
    SetOfSize(round);
    var before, after := keys - done, keys - (done + SetOf(round));
    assert before == after + SetOf(round);
  }

  /** A greedy schedule of `done`, which counts `processed` keys. */
  ghost predicate Scheduled(keys: set<string>, edges: seq<Edge>, names: map<string, string>, size: int,
                            rounds: seq<seq<string>>, done: set<string>, processed: int)
    requires keys <= names.Keys
  {
    && GreedyRounds(keys, edges, names, size, rounds) && done == Done(rounds)
    && processed == |done| && done <= keys
  }

  /** Taking the next wave keeps the schedule greedy and makes progress. */
  lemma {:induction false} WaveStep(keys: set<string>, edges: seq<Edge>, names: map<string, string>, size: int,
                                    rounds: seq<seq<string>>, done: set<string>, processed: int,
                                    indegree: map<string, int>, available: seq<string>, current: seq<string>,
                                    rest: seq<string>)
    requires keys <= names.Keys && Scheduled(keys, edges, names, size, rounds, done, processed)
    requires Frontier(keys, edges, names, done, indegree, available) && 0 < |available|
    requires available == current + rest
    requires |current| == if size <= 0 || size > |available| then |available| else size
    ensures forall k :: k in current ==> k in keys
    ensures forall k :: k in done ==> Satisfied(edges, k, done)
    ensures Scheduled(keys, edges, names, size, rounds + [current], done + SetOf(current), processed + |current|)
    ensures |keys - (done + SetOf(current))| < |keys - done|
  {
    TakeFirst(keys, edges, names, size, done, available, current, rest);
    DoneIsClosed(keys, edges, names, size, rounds);
    DoneStep(rounds, current);
    RoundProgress(keys, done, current);
  }

  lemma {:induction false} TakeFirst(keys: set<string>, edges: seq<Edge>, names: map<string, string>, size: int,
                                     done: set<string>, available: seq<string>, current: seq<string>,
                                     rest: seq<string>)
    requires keys <= names.Keys && 0 < |available| && Distinct(available)
    requires SetOf(available) == Ready(keys, edges, done)
    requires (forall k :: k in available ==> k in names) && SortedBy(names, available)
    requires available == current + rest
    requires |current| == if size <= 0 || size > |available| then |available| else size
    ensures GreedyRound(keys, edges, names, size, done, current)
    ensures current != [] && Distinct(current) && SetOf(current) <= keys - done
    ensures forall k :: k in current ==> k in keys
  {
    assert available[..|current|] == current && available[|current|..] == rest;
    TakeIsGreedy(keys, edges, names, size, done, available, |current|);
    Halves(current, rest);
    assert forall k :: k in current ==> k in SetOf(current);
  }

  /** plan.go:179-219: waves until nothing is ready. */
  method PlanWaves(ws: seq<PlannedWorkload>, nodes: map<string, PlannedWorkload>, names: map<string, string>,
                   waveSize: int, indegree0: map<string, int>, reverse: map<string, seq<string>>,
                   ghost keys: set<string>, ghost edges: seq<Edge>)
    returns (waves: seq<Wave>, processed: nat)
    requires NodesOf(ws, nodes) && keys <= nodes.Keys
    requires keys <= names.Keys && Within(edges, keys) && Linked(indegree0, reverse, keys, edges)
    ensures WellFormedWaves(ws, waves) && GreedyRounds(keys, edges, names, waveSize, Rounds(waves))
    ensures Done(Rounds(waves)) <= keys && processed == |Done(Rounds(waves))|
    ensures Ready(keys, edges, Done(Rounds(waves))) == {}
  {
    var indegree := indegree0;
    var available := Start(names, indegree, keys, edges);
    waves, processed := [], 0;
    ghost var rounds: seq<seq<string>>, done: set<string> := [], {};
    while |available| > 0
      invariant Rounds(waves) == rounds && WellFormedWaves(ws, waves)
      invariant Scheduled(keys, edges, names, waveSize, rounds, done, processed)
      invariant Frontier(keys, edges, names, done, indegree, available)
      decreases |keys - done|
    {
      var count := waveSize;
      if count <= 0 || count > |available| {
        count := |available|;
      }
      var current, rest := available[..count], available[count..];
      SplitAt(available, count);
      WaveStep(keys, edges, names, waveSize, rounds, done, processed, indegree, available, current, rest);
      waves, processed := AppendWave(nodes, ws, waves, current), processed + |current|;
      indegree, available := Advance(names, reverse, current, rest, indegree, keys, edges, done);
      rounds, done := rounds + [current], done + SetOf(current);
    }
  }

  /**
   * Wave planning as a whole.  A faulty dependency is reported first.  Otherwise planning succeeds
   * exactly when the keys are distinct and the resolved graph has no cycle, and fails as a cycle.
   */
  method BuildDependencyAwareWaves(lower: string -> string, ws: seq<PlannedWorkload>, waveSize: int)
    returns (r: Result<seq<Wave>, PlanError>)
    ensures !FaultFree(lower, NameIndex(lower, ws), ws) ==>
              r.Failure? && FirstFault(lower, NameIndex(lower, ws), ws, r.error)
    ensures FaultFree(lower, NameIndex(lower, ws), ws) ==>
              (r.Success? <==> Distinct(KeyList(ws)) && !Cyclic(Graph(lower, ws)))
    ensures FaultFree(lower, NameIndex(lower, ws), ws) && r.Failure? ==> r.error == DependencyCycle
    ensures r.Success? ==> IsWavePlan(lower, ws, waveSize, r.value)
    ensures Unambiguous(lower, ws) ==> (r.Success? <==> AllNameOthers(lower, ws) && !Cyclic(Graph(lower, ws)))
    ensures Unambiguous(lower, ws) && AllNameOthers(lower, ws) && r.Failure? ==> r.error == DependencyCycle
  {
    if Unambiguous(lower, ws) {
      FaultFreeByName(lower, ws);
    }
    var nodes, index := IndexWorkloads(lower, ws);
    var names := SortNames(lower, ws);
    ghost var keys, edges := Keys(ws), Graph(lower, ws);
    GraphWithin(lower, ws);

    var fault, indegree, reverse := Link(lower, ws, index);
    if fault.Some? {
      FirstFaultIsFault(lower, index, ws, fault.value);
      return Failure(fault.value);
    }

    var waves, processed := PlanWaves(ws, nodes, names, waveSize, indegree, reverse, keys, edges);
    ProcessedAllMeansSound(ws, edges, names, waveSize, Rounds(waves));
    if processed != |ws| {
      return Failure(DependencyCycle);
    }
    return Success(waves);
  }

  /** The loop has scheduled as many keys as there are workloads exactly when keys are distinct and acyclic. */
  lemma {:induction false} ProcessedAllMeansSound(ws: seq<PlannedWorkload>, edges: seq<Edge>,
      names: map<string, string>, size: int, rounds: seq<seq<string>>)
    requires Keys(ws) <= names.Keys && Within(edges, Keys(ws))
    requires GreedyRounds(Keys(ws), edges, names, size, rounds)
    requires Done(rounds) <= Keys(ws) && Ready(Keys(ws), edges, Done(rounds)) == {}
    ensures |Done(rounds)| == |ws| <==> Distinct(KeyList(ws)) && !Cyclic(edges)
    ensures |Done(rounds)| == |ws| ==> Done(rounds) == Keys(ws)
  {
    SetOfSize(KeyList(ws));
    KeyListSet(ws);
    SubsetSize(Done(rounds), Keys(ws));
    if Done(rounds) != Keys(ws) {
      StuckMeansCyclic(Keys(ws), edges, Done(rounds));
    } else {
      GreedyIsValid(Keys(ws), edges, names, size, rounds);
      ScheduledMeansAcyclic(Keys(ws), edges, rounds);
    }
  }

  lemma {:induction false} KeyListSet(ws: seq<PlannedWorkload>)
    ensures SetOf(KeyList(ws)) == Keys(ws)
  {
    forall k ensures k in KeyList(ws) <==> k in Keys(ws) {
      if k in Keys(ws) {
        var i :| 0 <= i < |ws| && ws[i].vmId == k;
        assert KeyList(ws)[i] == k;
      }
    }
  }

  lemma {:induction false} FirstFaultIsFault(lower: string -> string, index: map<string, string>,
                                             ws: seq<PlannedWorkload>, error: PlanError)
    requires FirstFault(lower, index, ws, error)
    ensures !FaultFree(lower, index, ws)
  {
    var i, j :| 0 <= i < |ws| && 0 <= j < |ws[i].dependencies| &&
                Fault(lower, index, ws[i], ws[i].dependencies[j]) == Some(error);
    FaultFreeMeans(lower, index, ws);
    assert ws[i] in ws && ws[i].dependencies[j] in ws[i].dependencies;
  }

  ghost predicate NodesOf(ws: seq<PlannedWorkload>, nodes: map<string, PlannedWorkload>) {
    forall k :: k in nodes ==> nodes[k] in ws && nodes[k].vmId == k
  }

  /** plan.go:191-201: the next wave, numbered after the last. */
  function AppendWave(nodes: map<string, PlannedWorkload>, ghost ws: seq<PlannedWorkload>, waves: seq<Wave>,
                      current: seq<string>) : (r: seq<Wave>)
    requires (forall k :: k in current ==> k in nodes) && NodesOf(ws, nodes) && WellFormedWaves(ws, waves)
    ensures WellFormedWaves(ws, r) && Rounds(r) == Rounds(waves) + [current]
  {
    var picked := PickNodes(nodes, current);
    assert KeyList(picked) == current;
    var r := waves + [Wave(|waves| + 1, "dependency_wave", picked, true)];
    assert Rounds(r) == Rounds(waves) + [current];
    r
  }
}
