/** BuildExecutionPlan and the workload list that Execute hands to the phases. */
module ExecutionPlan {
  import opened Text
  import opened Collections
  import opened DependencyGraph
  import opened Keyed
  import opened Matcher
  import opened MigrationTypes
  import opened PlanOrder
  import opened Sorting
  import opened WavePlanner

  function NormalizedStrategy(options: Options): (r: WaveStrategy)
    ensures r.size > 0 && r.dependencyAware == options.waves.dependencyAware
    ensures options.waves.size > 0 ==> r.size == options.waves.size
    ensures options.waves.size <= 0 < options.parallel ==> r.size == options.parallel
    ensures options.waves.size <= 0 && options.parallel <= 0 ==> r.size == 1
  {
    var size := if options.waves.size > 0 then options.waves.size else options.parallel;
    WaveStrategy(if size > 0 then size else 1, options.waves.dependencyAware)
  }

  function PlannedFor(rules: TextRules, spec: Spec, vm: VM): PlannedWorkload {
    var o := Merged(rules, vm, spec.workloads);
    PlannedWorkload(WorkloadKey(vm), vm.name, o.dependencies,
                    if o.targetHost == "" then spec.defaultHost else o.targetHost,
                    if o.targetStorage == "" then spec.defaultStorage else o.targetStorage,
                    o.networkMap)
  }

  /** A value is what the last matching selector that gives one says, or else the default. */
  ghost predicate Placed(rules: TextRules, spec: Spec, vm: VM, field: Overrides -> string, default: string,
                         value: string)
  {
    || (value != "" && LastNonEmpty(rules, vm, spec.workloads, field, value))
    || (value == default && LastNonEmpty(rules, vm, spec.workloads, field, ""))
  }

  /** What is planned for a VM, read off the VM and the selectors that match it. */
  ghost predicate Describes(rules: TextRules, spec: Spec, vm: VM, w: PlannedWorkload) {
    && w.vmId == (if TrimSpace(vm.id) == "" then vm.name else vm.id) && w.name == vm.name
    && (forall d :: d in w.dependencies <==>
          d != "" && exists s :: s in spec.workloads && SelectorMatches(rules, vm, s) && d in s.overrides.dependencies)
    && Placed(rules, spec, vm, HostOf, spec.defaultHost, w.targetHost)
    && Placed(rules, spec, vm, StorageOf, spec.defaultStorage, w.targetStorage)
    && LastMapped(rules, vm, spec.workloads, NetworksOf, w.networkMap)
  }

  lemma {:induction false} PlannedMeans(rules: TextRules, spec: Spec, vm: VM)
    ensures Describes(rules, spec, vm, PlannedFor(rules, spec, vm))
  {
    MergedMeans(rules, vm, spec.workloads);
    MergedDependencies(rules, vm, spec.workloads);
  }

  function PlannedForAll(rules: TextRules, spec: Spec, vms: seq<VM>): (r: seq<PlannedWorkload>)
    ensures |r| == |vms| && forall i :: 0 <= i < |r| ==> r[i] == PlannedFor(rules, spec, vms[i])
  {
    seq(|vms|, i requires 0 <= i < |vms| => PlannedFor(rules, spec, vms[i]))
  }

  predicate HasDependencies(ws: seq<PlannedWorkload>) {
    exists w :: w in ws && w.dependencies != []
  }

  // ---------- chunkWorkloads ----------

  function FlattenBatches(batches: seq<seq<PlannedWorkload>>): seq<PlannedWorkload> {
    if batches == [] then [] else FlattenBatches(batches[..|batches| - 1]) + batches[|batches| - 1]
  }

  /** Consecutive batches, all but the last of exactly the wave size. */
  method ChunkWorkloads(ws: seq<PlannedWorkload>, waveSize: int) returns (batches: seq<seq<PlannedWorkload>>)
    ensures FlattenBatches(batches) == ws && Batched(batches, waveSize)
  {
    var size := if waveSize <= 0 then |ws| else waveSize;
    batches := [];
    var start := 0;
    while start < |ws|
      invariant 0 <= start <= |ws| || size > 0
      invariant FlattenBatches(batches) == ws[..if start <= |ws| then start else |ws|]
      invariant forall i :: 0 <= i < |batches| ==> 0 < |batches[i]| <= size
      invariant forall i :: 0 <= i < |batches| - 1 ==> |batches[i]| == size
      invariant start < |ws| ==> forall i :: 0 <= i < |batches| ==> |batches[i]| == size
      invariant start >= 0
    {
      var end := if start + size > |ws| then |ws| else start + size;
      assert (batches + [ws[start..end]])[..|batches|] == batches;
      assert ws[..end] == ws[..start] + ws[start..end];
      batches := batches + [ws[start..end]];
      start := start + size;
    }
    assert ws[..|ws|] == ws;
  }

  function BatchWaves(batches: seq<seq<PlannedWorkload>>): (r: seq<Wave>)
    ensures |r| == |batches|
    ensures forall i :: 0 <= i < |r| ==> r[i] == Wave(i + 1, "batch_size", batches[i], false)
  {
    seq(|batches|, i requires 0 <= i < |batches| => Wave(i + 1, "batch_size", batches[i], false))
  }

  /** The workloads in consecutive batches of the wave size, all but the last of them full, numbered from 1. */
  ghost predicate IsBatchPlan(order: seq<PlannedWorkload>, size: int, waves: seq<Wave>) {
    exists batches :: waves == BatchWaves(batches) && FlattenBatches(batches) == order && Batched(batches, size)
  }

  ghost predicate Batched(batches: seq<seq<PlannedWorkload>>, size: int) {
    && (forall i :: 0 <= i < |batches| ==> 0 < |batches[i]| && (size > 0 ==> |batches[i]| <= size))
    && (size > 0 ==> forall i :: 0 <= i < |batches| - 1 ==> |batches[i]| == size)
  }

  lemma {:induction false} BatchKeys(batches: seq<seq<PlannedWorkload>>)
    ensures FlattenKeys(Rounds(BatchWaves(batches))) == KeyList(FlattenBatches(batches))
  {
    if batches != [] {
      var init := batches[..|batches| - 1];
      BatchKeys(init);
      var rounds := Rounds(BatchWaves(batches));
      assert rounds[..|batches| - 1] == Rounds(BatchWaves(init));
    }
  }

  // ---------- BuildExecutionPlan ----------

  method CollectWorkloads(rules: TextRules, spec: Spec, vms: seq<VM>) returns (ws: seq<PlannedWorkload>)
    ensures ws == PlannedForAll(rules, spec, Selected(rules, vms, spec.workloads))
    ensures forall i :: 0 <= i < |ws| ==> Describes(rules, spec, Selected(rules, vms, spec.workloads)[i], ws[i])
  {
    var matched := MatchWorkloads(rules, vms, spec.workloads);
    SelectedMeans(rules, vms, spec.workloads);
    ws := [];
    for i := 0 to |matched|
      invariant ws == PlannedForAll(rules, spec, matched[..i])
    {
      var vm := matched[i];
      assert vm in matched;
      var w, ok := PlanOne(rules, spec, vm);
      if ok {
        ws := ws + [w];
      }
    }
    assert matched[..|matched|] == matched;
    forall i | 0 <= i < |ws| ensures Describes(rules, spec, matched[i], ws[i]) {
      PlannedMeans(rules, spec, matched[i]);
    }
  }

  /** One VM's overrides, with the specification's defaults; nothing if no selector matches it. */
  method PlanOne(rules: TextRules, spec: Spec, vm: VM) returns (w: PlannedWorkload, ok: bool)
    ensures ok == MatchesAny(rules, vm, spec.workloads) && w == PlannedFor(rules, spec, vm)
  {
    var o;
    o, ok := MergedOverrides(rules, vm, spec.workloads);
    w := PlannedWorkload(WorkloadKey(vm), vm.name, o.dependencies,
                         if o.targetHost == "" then spec.defaultHost else o.targetHost,
                         if o.targetStorage == "" then spec.defaultStorage else o.targetStorage,
                         o.networkMap);
  }

  ghost predicate PlanHeader(rules: TextRules, spec: Spec, vms: seq<VM>, plan: Plan) {
    var ws := PlannedForAll(rules, spec, Selected(rules, vms, spec.workloads));
    && plan.total == |ws| && plan.window == spec.options.window
    && plan.requiresApproval == spec.options.approval.required
    && plan.approvalSatisfied == spec.options.approval.Approved()
    && plan.strategy.size == NormalizedStrategy(spec.options).size
    && (plan.strategy.dependencyAware <==> spec.options.waves.dependencyAware || HasDependencies(ws))
  }

  /** `order` is the name-sorted list the waves were built from. */
  ghost predicate PlanBody(rules: TextRules, ws: seq<PlannedWorkload>, order: seq<PlannedWorkload>, plan: Plan) {
    && multiset(order) == multiset(ws)
    && SortedOn((w: PlannedWorkload) => rules.lower(w.name), order)
    && (ws == [] ==> plan.waves == [])
    && (ws != [] && plan.strategy.dependencyAware ==>
          FaultFree(rules.lower, NameIndex(rules.lower, order), order) && Distinct(KeyList(order)) &&
          IsWavePlan(rules.lower, order, plan.strategy.size, plan.waves))
    && (ws != [] && !plan.strategy.dependencyAware ==>
          && plan.waves != [] && PlanKeys(plan) == KeyList(order) && !HasDependencies(ws)
          && IsBatchPlan(order, plan.strategy.size, plan.waves))
  }

  /** Every dependency names another workload, keys are distinct, and the graph has no cycle. */
  ghost predicate Plannable(lower: string -> string, ws: seq<PlannedWorkload>) {
    && FaultFree(lower, NameIndex(lower, ws), ws)
    && Distinct(KeyList(ws)) && !Cyclic(Graph(lower, ws))
  }

  /** The error names the first faulty dependency, or else the cycle. */
  ghost predicate Explains(lower: string -> string, ws: seq<PlannedWorkload>, error: PlanError) {
    if FaultFree(lower, NameIndex(lower, ws), ws) then error == DependencyCycle
    else FirstFault(lower, NameIndex(lower, ws), ws, error)
  }

  /** plan.go:106-113: dependency awareness is forced when any workload has a dependency. */
  method EffectiveStrategy(options: Options, ws: seq<PlannedWorkload>) returns (strategy: WaveStrategy)
    ensures strategy.size == NormalizedStrategy(options).size
    ensures strategy.dependencyAware <==> options.waves.dependencyAware || HasDependencies(ws)
  {
    strategy := NormalizedStrategy(options);
    if !strategy.dependencyAware {
      for i := 0 to |ws|
        invariant strategy == NormalizedStrategy(options)
        invariant !HasDependencies(ws[..i])
      {
        if |ws[i].dependencies| > 0 {
          strategy := strategy.(dependencyAware := true);
          assert ws[i] in ws;
          break;
        }
        assert ws[..i + 1] == ws[..i] + [ws[i]];
      }
      assert ws[..|ws|] == ws;
    }
  }

  /** plan.go:118-139: sort, then batch or schedule. */
  method BuildWaves(rules: TextRules, ws: seq<PlannedWorkload>, strategy: WaveStrategy)
    returns (r: Result<seq<Wave>, PlanError>, order: seq<PlannedWorkload>)
    requires ws != []
    ensures multiset(order) == multiset(ws) && SortedOn((w: PlannedWorkload) => rules.lower(w.name), order)
    ensures r.Failure? <==> strategy.dependencyAware && !Plannable(rules.lower, order)
    ensures r.Failure? ==> Explains(rules.lower, order, r.error)
    ensures r.Success? && strategy.dependencyAware ==> IsWavePlan(rules.lower, order, strategy.size, r.value)
    ensures r.Success? && !strategy.dependencyAware ==>
              r.value != [] && FlattenKeys(Rounds(r.value)) == KeyList(order) &&
                  IsBatchPlan(order, strategy.size, r.value)
  {
    order := SortOn((w: PlannedWorkload) => rules.lower(w.name), ws);
    assert |multiset(order)| == |multiset(ws)|;
    if strategy.dependencyAware {
      r := BuildDependencyAwareWaves(rules.lower, order, strategy.size);
    } else {
      var batches := ChunkWorkloads(order, strategy.size);
      BatchKeys(batches);
      r := Success(BatchWaves(batches));
    }
  }

  /** The selection needs a dependency-aware plan and has none; `order` is the name-sorted list. */
  ghost predicate Refused(rules: TextRules, spec: Spec, vms: seq<VM>, order: seq<PlannedWorkload>) {
    var ws := PlannedForAll(rules, spec, Selected(rules, vms, spec.workloads));
    ws != [] && (spec.options.waves.dependencyAware || HasDependencies(ws)) && !Plannable(rules.lower, order)
  }

  method BuildExecutionPlan(rules: TextRules, spec: Spec, vms: seq<VM>)
    returns (r: Result<Plan, PlanError>, ghost order: seq<PlannedWorkload>)
    ensures r.Success? ==> PlanHeader(rules, spec, vms, r.value)
    ensures r.Success? ==>
              PlanBody(rules, PlannedForAll(rules, spec, Selected(rules, vms, spec.workloads)), order, r.value)
    ensures multiset(order) == multiset(PlannedForAll(rules, spec, Selected(rules, vms, spec.workloads)))
    ensures r.Failure? <==> Refused(rules, spec, vms, order)
    ensures r.Failure? ==> Explains(rules.lower, order, r.error)
  {
    var ws := CollectWorkloads(rules, spec, vms);
    var strategy := EffectiveStrategy(spec.options, ws);
    var plan := Plan(|ws|, spec.options.window, spec.options.approval.required, spec.options.approval.Approved(),
                     strategy, []);
    if |ws| == 0 {
      return Success(plan), ws;
    }
    var waves, sorted := BuildWaves(rules, ws, strategy);
    if waves.Failure? {
      return Failure(waves.error), sorted;
    }
    return Success(plan.(waves := waves.value)), sorted;
  }

  // ---------- End to end ----------

  /** The list of workloads the phases iterate over (orchestrator.go:168-177), or why there is none. */
  datatype Planned =
    | Ordered(plan: Plan, workloads: seq<Workload>)
    | Rejected(error: PlanError)
    | NothingMatched(plan: Plan)

  function SelectedKeys(vms: seq<VM>): (r: seq<string>)
    ensures |r| == |vms| && forall i :: 0 <= i < |r| ==> r[i] == WorkloadKey(vms[i])
  {
    seq(|vms|, i requires 0 <= i < |vms| => WorkloadKey(vms[i]))
  }

  lemma {:induction false} SameKeys(rules: TextRules, spec: Spec, vms: seq<VM>)
    ensures KeyList(PlannedForAll(rules, spec, vms)) == SelectedKeys(vms)
    ensures KeysOf(KeyOf, NewWorkloads(rules, vms, spec.workloads)) == SelectedKeys(vms)
  {
  }

  lemma {:induction false} PermutedKeys(ws: seq<PlannedWorkload>, order: seq<PlannedWorkload>)
    requires multiset(order) == multiset(ws)
    ensures SetOf(KeyList(order)) == SetOf(KeyList(ws))
    ensures HasDependencies(order) <==> HasDependencies(ws)
  {
    KeyListSet(order);
    KeyListSet(ws);
    forall w ensures w in order <==> w in ws {
      assert w in order <==> w in multiset(order);
      assert w in ws <==> w in multiset(ws);
    }
  }

  lemma {:induction false} NoDependenciesNoEdges(lower: string -> string, index: map<string, string>,
      ws: seq<PlannedWorkload>)
    requires !HasDependencies(ws)
    ensures EdgesOf(lower, index, ws) == []
  {
    if ws != [] {
      assert ws[|ws| - 1] in ws;
      NoDependenciesNoEdges(lower, index, ws[..|ws| - 1]);
    }
  }

  /** Whatever the strategy, the plan mentions exactly the workloads' keys, dependencies first. */
  lemma {:induction false} PlanKeysRespect(rules: TextRules, ws: seq<PlannedWorkload>, order: seq<PlannedWorkload>,
                                           plan: Plan)
    requires ws != [] && PlanBody(rules, ws, order, plan)
    ensures plan.waves != [] && SetOf(PlanKeys(plan)) == SetOf(KeyList(ws))
    ensures plan.strategy.dependencyAware ==>
              Distinct(KeyList(ws)) && Distinct(PlanKeys(plan)) && Respects(Graph(rules.lower, order), PlanKeys(plan))
    ensures !plan.strategy.dependencyAware ==> Graph(rules.lower, order) == []
  {
    PermutedKeys(ws, order);
    if plan.strategy.dependencyAware {
      GreedyOrder(Keys(order), Graph(rules.lower, order), SortNames(rules.lower, order), plan.strategy.size,
                  Rounds(plan.waves));
      KeyListSet(order);
      assert KeyList(ws)[0] in SetOf(KeyList(ws));
      SetOfSize(KeyList(order));
      SetOfSize(KeyList(ws));
      assert |multiset(order)| == |multiset(ws)|;
    } else {
      NoDependenciesNoEdges(rules.lower, NameIndex(rules.lower, order), order);
    }
  }

  lemma {:induction false} EndToEnd(rules: TextRules, spec: Spec, selected: seq<VM>, plan: Plan,
                                    order: seq<PlannedWorkload>)
    requires selected != [] && PlanBody(rules, PlannedForAll(rules, spec, selected), order, plan)
    ensures var ws := NewWorkloads(rules, selected, spec.workloads);
            && (multiset(Reordered(ws, plan)) == multiset(ws) <==> Distinct(SelectedKeys(selected)))
            && Respects(Graph(rules.lower, order), KeysOf(KeyOf, Reordered(ws, plan)))
            && |Reordered(ws, plan)| == |SetOf(SelectedKeys(selected))| > 0
  {
    var ws, planned := NewWorkloads(rules, selected, spec.workloads), PlannedForAll(rules, spec, selected);
    SameKeys(rules, spec, selected);
    PlanKeysRespect(rules, planned, order, plan);
    RearrangedPermutes(KeyOf, ws, PlanKeys(plan));
    assert SelectedKeys(selected)[0] in SetOf(SelectedKeys(selected));
  }

  /** A dependency-respecting list of all selected VMs; `order` is the name-sorted list the graph is read from. */
  ghost predicate PlannedRoster(rules: TextRules, spec: Spec, vms: seq<VM>, order: seq<PlannedWorkload>,
                                roster: seq<VM>) {
    var selected := Selected(rules, vms, spec.workloads);
    && multiset(order) == multiset(PlannedForAll(rules, spec, selected))
    && (multiset(roster) == multiset(selected) <==> Distinct(SelectedKeys(selected)))
    && Respects(Graph(rules.lower, order), SelectedKeys(roster))
  }

  /** Reordered workloads are permuted workloads exactly when their VMs are permuted VMs. */
  lemma {:induction false} RosterPermutes(rules: TextRules, spec: Spec, selected: seq<VM>, ws: seq<Workload>)
    requires |ws| == |SetOf(SelectedKeys(selected))|
    requires multiset(ws) == multiset(NewWorkloads(rules, selected, spec.workloads)) <==>
              Distinct(SelectedKeys(selected))
    ensures multiset(VMs(ws)) == multiset(selected) <==> Distinct(SelectedKeys(selected))
  {
    SetOfSize(SelectedKeys(selected));
    if Distinct(SelectedKeys(selected)) {
      var fresh' := NewWorkloads(rules, selected, spec.workloads);
      MultisetDistinct(fresh', ws);
      SameVMSets(rules, spec, selected, ws);
      assert Distinct(selected) by {
        assert forall i :: 0 <= i < |selected| ==> SelectedKeys(selected)[i] == WorkloadKey(selected[i]);
      }
      SetOfSize(selected);
      SetOfSize(VMs(ws));
      SameElementsPermutation(VMs(ws), selected);
    } else {
      assert |multiset(VMs(ws))| == |ws| && |multiset(selected)| == |selected|;
    }
  }

  lemma {:induction false} SameVMSets(rules: TextRules, spec: Spec, selected: seq<VM>, ws: seq<Workload>)
    requires SetOf(ws) == SetOf(NewWorkloads(rules, selected, spec.workloads))
    ensures SetOf(VMs(ws)) == SetOf(selected)
  {
    var all := NewWorkloads(rules, selected, spec.workloads);
    forall v ensures v in VMs(ws) <==> v in selected {
      if v in VMs(ws) {
        var i :| 0 <= i < |ws| && ws[i].vm == v;
        assert ws[i] in SetOf(all);
        var j :| 0 <= j < |all| && all[j] == ws[i];
        assert selected[j] == v;
      }
      if v in selected {
        var j :| 0 <= j < |selected| && selected[j] == v;
        assert all[j] in SetOf(ws);
        var i :| 0 <= i < |ws| && ws[i] == all[j];
        assert VMs(ws)[i] == v;
      }
    }
  }

  lemma {:induction false} RosterOfPlan(rules: TextRules, spec: Spec, vms: seq<VM>, plan: Plan,
                                        order: seq<PlannedWorkload>)
    requires Selected(rules, vms, spec.workloads) != []
    requires PlanBody(rules, PlannedForAll(rules, spec, Selected(rules, vms, spec.workloads)), order, plan)
    ensures var ws := Reordered(NewWorkloads(rules, Selected(rules, vms, spec.workloads), spec.workloads), plan);
            ws != [] && PlannedRoster(rules, spec, vms, order, VMs(ws))
  {
    var selected := Selected(rules, vms, spec.workloads);
    var ws := Reordered(NewWorkloads(rules, selected, spec.workloads), plan);
    EndToEnd(rules, spec, selected, plan, order);
    RosterFrom(rules, spec, vms, order, ws);
  }

  lemma {:induction false} RosterFrom(rules: TextRules, spec: Spec, vms: seq<VM>, order: seq<PlannedWorkload>,
                                      ws: seq<Workload>)
    requires var selected := Selected(rules, vms, spec.workloads);
             && multiset(order) == multiset(PlannedForAll(rules, spec, selected))
             && (multiset(ws) == multiset(NewWorkloads(rules, selected, spec.workloads)) <==>
                 Distinct(SelectedKeys(selected)))
             && |ws| == |SetOf(SelectedKeys(selected))|
    requires Respects(Graph(rules.lower, order), KeysOf(KeyOf, ws))
    ensures PlannedRoster(rules, spec, vms, order, VMs(ws))
  {
    RosterPermutes(rules, spec, Selected(rules, vms, spec.workloads), ws);
    assert SelectedKeys(VMs(ws)) == KeysOf(KeyOf, ws);
  }

  /**
   * End to end.  Nothing matched, or the selection cannot be planned, or the phases see a permutation
   * of the selected VMs, exactly when their workload keys are distinct, every workload after all the
   * workloads it depends on, whether or not dependency awareness was asked for.
   */
  method PlanMigration(rules: TextRules, spec: Spec, vms: seq<VM>)
    returns (r: Planned, ghost order: seq<PlannedWorkload>)
    ensures r.NothingMatched? <==> Selected(rules, vms, spec.workloads) == []
    ensures multiset(order) == multiset(PlannedForAll(rules, spec, Selected(rules, vms, spec.workloads)))
    ensures r.Rejected? <==> Refused(rules, spec, vms, order)
    ensures r.Rejected? ==> Explains(rules.lower, order, r.error)
    ensures r.Ordered? ==> PlanHeader(rules, spec, vms, r.plan) && r.workloads != []
    ensures r.Ordered? ==> PlannedRoster(rules, spec, vms, order, VMs(r.workloads))
  {
    var plan;
    plan, order := BuildExecutionPlan(rules, spec, vms);
    if plan.Failure? {
      return Rejected(plan.error), order;
    }
    var unordered := BuildWorkloadMigrations(rules, vms, spec.workloads);
    var workloads := ReorderWorkloadsByPlan(unordered, plan.value);
    ghost var selected := Selected(rules, vms, spec.workloads);
    if selected != [] {
      RosterOfPlan(rules, spec, vms, plan.value, order);
    }
    if |workloads| == 0 {
      return NothingMatched(plan.value), order;
    }
    return Ordered(plan.value, workloads), order;
  }

  predicate BlankId(vm: VM) {
    vm.id != "" && TrimSpace(vm.id) == ""
  }

  /** The keys are distinct, hence nothing is lost, unless a selected VM has a blank but non-empty identifier. */
  lemma {:induction false} BlankIdsAloneCollide(rules: TextRules, vms: seq<VM>, selectors: seq<Selector>)
    requires forall vm :: vm in Selected(rules, vms, selectors) ==> !BlankId(vm)
    ensures Distinct(SelectedKeys(Selected(rules, vms, selectors)))
  {
    SelectedMeans(rules, vms, selectors);
    var selected := Selected(rules, vms, selectors);
    forall i | 0 <= i < |selected| ensures SelectedKeys(selected)[i] == MatchKeyList(selected)[i] {
      assert selected[i] in selected;
    }
    assert SelectedKeys(selected) == MatchKeyList(selected);
  }

  /** Two such VMs, both selected, share one key: one of them never reaches the phases. */
  lemma {:induction false} BlankIdLosesWorkload(rules: TextRules)
    ensures var a, b := VM(" ", "db", "", map[], "on", 1, []), VM("", "db", "", map[], "on", 1, []);
            var all := Selector(Criteria("", map[], "", "", []), NO_OVERRIDES);
            Selected(rules, [a, b], [all]) == [a, b] && !Distinct(SelectedKeys(Selected(rules, [a, b], [all])))
  {
    var a, b := VM(" ", "db", "", map[], "on", 1, []), VM("", "db", "", map[], "on", 1, []);
    var all := Selector(Criteria("", map[], "", "", []), NO_OVERRIDES);
    assert all in [all] && SelectorMatches(rules, a, all) && SelectorMatches(rules, b, all);
    assert [a, b][..1] == [a] && [a][..0] == [];
    assert Selected(rules, [], [all]) == [];
    assert Selected(rules, [a], [all]) == [a];
    assert MatchKeys([a]) == {" "} by { assert MatchKey(a) == " "; }
    assert Selected(rules, [a, b], [all]) == [a, b];
    assert TrimLeft(" ") == TrimLeft(" "[1..]) == "" && TrimLeft("") == "";
    assert SelectedKeys([a, b]) == ["db", "db"];
    assert SelectedKeys([a, b])[0] == SelectedKeys([a, b])[1];
  }
}
