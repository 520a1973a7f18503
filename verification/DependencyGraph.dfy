/**
 * The dependency graph behind wave planning.  Edges carry multiplicity: a workload that names
 * the same dependency twice contributes two edges, both to its in-degree and to the reverse list.
 */
module DependencyGraph {
  import opened Collections

  /** `dependent` may only be migrated after `dependency`. */
  datatype Edge = Edge(dependency: string, dependent: string)

  ghost predicate Within(edges: seq<Edge>, keys: set<string>) {
    forall e :: e in edges ==> e.dependency in keys && e.dependent in keys
  }

  /** The number of edges into `key` whose dependency is not in `done`. */
  ghost function InDegree(edges: seq<Edge>, key: string, done: set<string>): nat {
    if edges == [] then 0
    else
      var e := edges[|edges| - 1];
      InDegree(edges[..|edges| - 1], key, done) +
      if e.dependent == key && e.dependency !in done then 1 else 0
  }

  /** The dependents of `key`, once per edge. */
  ghost function Dependents(edges: seq<Edge>, key: string): seq<string> {
    if edges == [] then []
    else
      var e := edges[|edges| - 1];
      Dependents(edges[..|edges| - 1], key) + if e.dependency == key then [e.dependent] else []
  }

  ghost predicate Satisfied(edges: seq<Edge>, key: string, done: set<string>) {
    forall e :: e in edges && e.dependent == key ==> e.dependency in done
  }

  /** The keys that may go next: not yet done, every dependency done. */
  ghost function Ready(keys: set<string>, edges: seq<Edge>, done: set<string>): set<string> {
    set k | k in keys && k !in done && Satisfied(edges, k, done)
  }

  /** c[0] depends on c[1], which depends on c[2], and so on. */
  ghost predicate Chain(edges: seq<Edge>, c: seq<string>) {
    && |c| > 0
    && forall i {:trigger c[i]} :: 0 <= i < |c| - 1 ==> Edge(c[i + 1], c[i]) in edges
  }

  ghost predicate Cycle(edges: seq<Edge>, c: seq<string>) {
    |c| >= 2 && Chain(edges, c) && c[0] == c[|c| - 1]
  }

  ghost predicate Cyclic(edges: seq<Edge>) {
    exists c :: Cycle(edges, c)
  }

  lemma {:induction false} InDegreeZero(edges: seq<Edge>, key: string, done: set<string>)
    ensures InDegree(edges, key, done) == 0 <==> Satisfied(edges, key, done)
  {
    if edges != [] {
      var init, e := edges[..|edges| - 1], edges[|edges| - 1];
      InDegreeZero(init, key, done);
      assert edges == init + [e];
    }
  }

  /** Finishing one more key lowers every in-degree by the multiplicity of the edges from that key. */
  lemma {:induction false} InDegreeAfter(edges: seq<Edge>, key: string, done: set<string>, next: string)
    requires next !in done
    ensures InDegree(edges, key, done + {next}) == InDegree(edges, key, done) - multiset(Dependents(edges, next))[key]
  {
    if edges != [] {
      InDegreeAfter(edges[..|edges| - 1], key, done, next);
    }
  }

  lemma {:induction false} DependentsAreEdges(edges: seq<Edge>, key: string, k: string)
    ensures k in Dependents(edges, key) <==> Edge(key, k) in edges
  {
    if edges != [] {
      var init, e := edges[..|edges| - 1], edges[|edges| - 1];
      DependentsAreEdges(init, key, k);
      assert edges == init + [e];
    }
  }

  /**
   * If some key is not done and yet none is ready, the graph has a cycle: walk from any
   * unfinished key to one of its unfinished dependencies until a key repeats.
   */
  lemma {:induction false} StuckMeansCyclic(keys: set<string>, edges: seq<Edge>, done: set<string>)
    requires Within(edges, keys) && done < keys && Ready(keys, edges, done) == {}
    ensures Cyclic(edges)
  {
    assert !(keys <= done);
    var k :| k in keys && k !in done;
    WalkToCycle(keys, edges, done, [k]);
  }

  lemma {:induction false} WalkToCycle(keys: set<string>, edges: seq<Edge>, done: set<string>, walk: seq<string>)
    requires Within(edges, keys) && Ready(keys, edges, done) == {}
    requires Chain(edges, walk) && Distinct(walk) && forall k :: k in walk ==> k in keys - done
    ensures Cyclic(edges)
    decreases |keys| - |walk|
  {
    var last := walk[|walk| - 1];
    assert last in keys - done && last !in Ready(keys, edges, done);
    assert !Satisfied(edges, last, done);
    var e :| e in edges && e.dependent == last && e.dependency !in done;
    var longer := walk + [e.dependency];
    assert e == Edge(longer[|walk|], longer[|walk| - 1]);
    assert Chain(edges, longer);
    if i :| 0 <= i < |walk| && walk[i] == e.dependency {
      var c := longer[i..];
      assert forall j {:trigger c[j]} :: 0 <= j < |c| ==> c[j] == longer[i + j];
      assert Cycle(edges, c);
    } else {
      DistinctBound(longer, keys);
      WalkToCycle(keys, edges, done, longer);
    }
  }
}
