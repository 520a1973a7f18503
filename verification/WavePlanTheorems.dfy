/** What a successful wave plan means for its workloads. */
module WavePlanTheorems {
  import opened Text
  import opened Collections
  import opened DependencyGraph
  import opened GreedySchedule
  import opened MigrationTypes
  import opened WavePlanner

  lemma {:induction false} SameKeySameWorkload(ws: seq<PlannedWorkload>, v: PlannedWorkload, w: PlannedWorkload)
    requires Distinct(KeyList(ws)) && v in ws && w in ws && v.vmId == w.vmId
    ensures v == w
  {
    var i :| 0 <= i < |ws| && ws[i] == v;
    var j :| 0 <= j < |ws| && ws[j] == w;
    assert KeyList(ws)[i] == KeyList(ws)[j];
  }

  /** Waves are non-empty, within the size, and together hold every workload exactly once. */
  lemma {:induction false} PlanCoversOnce(lower: string -> string, ws: seq<PlannedWorkload>, size: int,
                                          waves: seq<Wave>)
    requires IsWavePlan(lower, ws, size, waves) && Distinct(KeyList(ws))
    ensures forall i :: 0 <= i < |waves| ==> 0 < |waves[i].workloads| && (size > 0 ==> |waves[i].workloads| <= size)
    ensures forall w :: w in ws ==> exists i :: 0 <= i < |waves| && w in waves[i].workloads
    ensures forall i, j, w :: 0 <= i < j < |waves| && w in waves[i].workloads ==> w !in waves[j].workloads
  {
    var keys, edges, names, rounds := Keys(ws), Graph(lower, ws), SortNames(lower, ws), Rounds(waves);
    forall i | 0 <= i < |waves| ensures 0 < |waves[i].workloads| && (size > 0 ==> |waves[i].workloads| <= size) {
      RoundAt(keys, edges, names, size, rounds, i);
      SetOfSize(rounds[i]);
    }
    forall w | w in ws ensures exists i :: 0 <= i < |waves| && w in waves[i].workloads {
      assert w.vmId in Done(rounds);
      var i :| 0 <= i < |rounds| && w.vmId in rounds[i];
      var j :| 0 <= j < |rounds[i]| && rounds[i][j] == w.vmId;
      assert waves[i].workloads[j] in waves[i].workloads;
      SameKeySameWorkload(ws, waves[i].workloads[j], w);
    }
    forall i, j, w | 0 <= i < j < |waves| && w in waves[i].workloads ensures w !in waves[j].workloads {
      RoundsDisjoint(keys, edges, names, size, rounds, i, j, w.vmId);
    }
  }

  /** Every dependency, however often and under whatever alias it is named, sits in a strictly earlier wave. */
  lemma {:induction false} DependenciesEarlier(lower: string -> string, ws: seq<PlannedWorkload>, size: int,
                                               waves: seq<Wave>, i: nat, w: PlannedWorkload, d: string)
    requires IsWavePlan(lower, ws, size, waves) && FaultFree(lower, NameIndex(lower, ws), ws)
    requires i < |waves| && w in waves[i].workloads && d in w.dependencies
    ensures exists k :: LastNamed(lower, ws, lower(TrimSpace(d)), k) && KeyBefore(waves, i, ws[k].vmId)
    ensures Distinct(KeyList(ws)) ==>
              exists v :: v in ws && Names(lower, v, lower(TrimSpace(d))) && WorkloadBefore(waves, i, v)
  {
    var n := lower(TrimSpace(d));
    assert w in ws;
    DependencyIsEdge(lower, ws, w, d);
    NameIndexMeans(lower, ws, n);
    var k :| LastNamed(lower, ws, n, k) && NameIndex(lower, ws)[n] == ws[k].vmId;
    DependencyKeyBefore(lower, ws, size, waves, i, w, ws[k].vmId);
    if Distinct(KeyList(ws)) {
      KeyIsWorkload(lower, ws, size, waves, i, ws[k]);
    }
  }

  lemma {:induction false} DependencyKeyBefore(lower: string -> string, ws: seq<PlannedWorkload>, size: int,
                                               waves: seq<Wave>, i: nat, w: PlannedWorkload, key: string)
    requires IsWavePlan(lower, ws, size, waves) && i < |waves| && w in waves[i].workloads
    requires Edge(key, w.vmId) in Graph(lower, ws)
    ensures KeyBefore(waves, i, key)
  {
    EdgeIsEarlier(Keys(ws), Graph(lower, ws), SortNames(lower, ws), size, Rounds(waves), i, Edge(key, w.vmId));
    var j :| 0 <= j < i && key in Rounds(waves)[j];
    assert key in KeyList(waves[j].workloads);
  }

  lemma {:induction false} KeyIsWorkload(lower: string -> string, ws: seq<PlannedWorkload>, size: int,
                                         waves: seq<Wave>, i: nat, v: PlannedWorkload)
    requires IsWavePlan(lower, ws, size, waves) && Distinct(KeyList(ws)) && i < |waves|
    requires v in ws && KeyBefore(waves, i, v.vmId)
    ensures WorkloadBefore(waves, i, v)
  {
    var j :| 0 <= j < i && v.vmId in KeyList(waves[j].workloads);
    var m :| 0 <= m < |waves[j].workloads| && waves[j].workloads[m].vmId == v.vmId;
    assert waves[j].workloads[m] in waves[j].workloads;
    SameKeySameWorkload(ws, waves[j].workloads[m], v);
  }

  /** A key, or a workload, is in a wave before wave i. */
  ghost predicate KeyBefore(waves: seq<Wave>, i: nat, key: string)
    requires i <= |waves|
  {
    exists j :: 0 <= j < i && key in KeyList(waves[j].workloads)
  }

  ghost predicate WorkloadBefore(waves: seq<Wave>, i: nat, v: PlannedWorkload)
    requires i <= |waves|
  {
    exists j :: 0 <= j < i && v in waves[j].workloads
  }

  /** Within a wave the workloads come in the order of their lower-cased names. */
  lemma {:induction false} WavesInNameOrder(lower: string -> string, ws: seq<PlannedWorkload>, size: int,
                                            waves: seq<Wave>, i: nat, a: nat, b: nat)
    requires IsWavePlan(lower, ws, size, waves) && Distinct(KeyList(ws))
    requires i < |waves| && a < b < |waves[i].workloads|
    ensures !Less(lower(waves[i].workloads[b].name), lower(waves[i].workloads[a].name))
  {
    var names, round := SortNames(lower, ws), Rounds(waves)[i];
    RoundAt(Keys(ws), Graph(lower, ws), names, size, Rounds(waves), i);
    SortNameOf(lower, ws, waves[i].workloads[a]);
    SortNameOf(lower, ws, waves[i].workloads[b]);
    assert round[a] == waves[i].workloads[a].vmId && round[b] == waves[i].workloads[b].vmId;
  }

  lemma {:induction false} SortNameOf(lower: string -> string, ws: seq<PlannedWorkload>, w: PlannedWorkload)
    requires Distinct(KeyList(ws)) && w in ws
    ensures w.vmId in SortNames(lower, ws) && SortNames(lower, ws)[w.vmId] == lower(w.name)
  {
    SameKeySameWorkload(ws, Nodes(ws)[w.vmId], w);
  }

  /** A dependency of a fault-free workload is an edge of the graph. */
  lemma {:induction false} DependencyIsEdge(lower: string -> string, ws: seq<PlannedWorkload>, w: PlannedWorkload,
                                            d: string)
    requires FaultFree(lower, NameIndex(lower, ws), ws) && w in ws && d in w.dependencies
    ensures lower(TrimSpace(d)) in NameIndex(lower, ws)
    ensures Edge(NameIndex(lower, ws)[lower(TrimSpace(d))], w.vmId) in Graph(lower, ws)
  {
    var index := NameIndex(lower, ws);
    FaultFreeMeans(lower, index, ws);
    assert Fault(lower, index, w, d) == None;
    EdgesOfMembers(lower, index, ws, Edge(index[lower(TrimSpace(d))], w.vmId));
  }

  lemma {:induction false} EdgeIsEarlier(keys: set<string>, edges: seq<Edge>, names: map<string, string>, size: int,
                                         rounds: seq<seq<string>>, i: nat, e: Edge)
    requires keys <= names.Keys && GreedyRounds(keys, edges, names, size, rounds) && i < |rounds|
    requires e in edges && e.dependent in rounds[i]
    ensures exists j :: 0 <= j < i && e.dependency in rounds[j]
  {
    RoundAt(keys, edges, names, size, rounds, i);
    assert e.dependent in SetOf(rounds[i]);
    assert e.dependency in Done(rounds[..i]);
    var j :| 0 <= j < i && e.dependency in rounds[..i][j];
  }
}
