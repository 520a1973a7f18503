/** matcher.go: which VMs a specification selects, and with what overrides. */
module Matcher {
  import opened Collections
  import opened MigrationTypes

  predicate TagsMatch(vmTags: map<string, string>, wanted: map<string, string>) {
    forall k :: k in wanted ==> k in vmTags && vmTags[k] == wanted[k]
  }

  predicate SelectorMatches(rules: TextRules, vm: VM, selector: Selector) {
    var c := selector.criteria;
    && (forall p :: p in c.exclude ==> !rules.matchPattern(vm.name, p))
    && (c.namePattern != "" ==> rules.matchPattern(vm.name, c.namePattern))
    && TagsMatch(vm.tags, c.tags)
    && (c.folder != "" ==> rules.equalFold(vm.folder, c.folder))
    && (c.powerState != "" ==> vm.powerState == c.powerState)
  }

  /** selectorMatches, criterion by criterion. */
  function Accepts(rules: TextRules, vm: VM, selector: Selector): (r: bool)
    ensures r <==> SelectorMatches(rules, vm, selector)
  {
    var c := selector.criteria;
    if exists p :: p in c.exclude && rules.matchPattern(vm.name, p) then false
    else if c.namePattern != "" && !rules.matchPattern(vm.name, c.namePattern) then false
    else if exists k :: k in c.tags && (k !in vm.tags || vm.tags[k] != c.tags[k]) then false
    else if c.folder != "" && !rules.equalFold(vm.folder, c.folder) then false
    else if c.powerState != "" && vm.powerState != c.powerState then false
    else true
  }

  /** matchesAnySelector. */
  method MatchesAnySelector(rules: TextRules, vm: VM, selectors: seq<Selector>) returns (r: bool)
    ensures r <==> MatchesAny(rules, vm, selectors)
  {
    for i := 0 to |selectors|
      invariant !MatchesAny(rules, vm, selectors[..i])
    {
      if Accepts(rules, vm, selectors[i]) {
        assert selectors[i] in selectors;
        return true;
      }
      assert selectors[..i + 1] == selectors[..i] + [selectors[i]];
    }
    assert selectors[..|selectors|] == selectors;
    return false;
  }

  predicate MatchesAny(rules: TextRules, vm: VM, selectors: seq<Selector>) {
    exists s :: s in selectors && SelectorMatches(rules, vm, s)
  }

  const NO_OVERRIDES := Overrides("", "", map[], map[], [])

  /** Appends the dependencies that are neither empty nor already present. */
  function AddDependencies(have: seq<string>, more: seq<string>): seq<string> {
    if more == [] then have
    else
      var r, d := AddDependencies(have, more[..|more| - 1]), more[|more| - 1];
      if d == "" || d in r then r else r + [d]
  }

  function MergeOne(have: Overrides, more: Overrides): Overrides {
    Overrides(
      if more.targetHost != "" then more.targetHost else have.targetHost,
      if more.targetStorage != "" then more.targetStorage else have.targetStorage,
      have.networkMap + more.networkMap,
      have.storageMap + more.storageMap,
      AddDependencies(have.dependencies, more.dependencies))
  }

  /** The overrides of all matching selectors, later ones on top. */
  function Merged(rules: TextRules, vm: VM, selectors: seq<Selector>): Overrides {
    if selectors == [] then NO_OVERRIDES
    else
      var have, s := Merged(rules, vm, selectors[..|selectors| - 1]), selectors[|selectors| - 1];
      if SelectorMatches(rules, vm, s) then MergeOne(have, s.overrides) else have
  }

  method MergedOverrides(rules: TextRules, vm: VM, selectors: seq<Selector>)
    returns (overrides: Overrides, matched: bool)
    ensures overrides == Merged(rules, vm, selectors)
    ensures matched <==> MatchesAny(rules, vm, selectors)
    ensures LastNonEmpty(rules, vm, selectors, HostOf, overrides.targetHost)
    ensures LastNonEmpty(rules, vm, selectors, StorageOf, overrides.targetStorage)
    ensures LastMapped(rules, vm, selectors, NetworksOf, overrides.networkMap)
    ensures LastMapped(rules, vm, selectors, StoragesOf, overrides.storageMap)
  {
    overrides, matched := NO_OVERRIDES, false;
    for i := 0 to |selectors|
      invariant overrides == Merged(rules, vm, selectors[..i])
      invariant matched <==> MatchesAny(rules, vm, selectors[..i])
    {
      var s := selectors[i];
      assert selectors[..i + 1][..i] == selectors[..i] && selectors[..i + 1] == selectors[..i] + [s];
      if Accepts(rules, vm, s) {
        matched := true;
        assert s in selectors[..i + 1];
        overrides := AddOverrides(overrides, s.overrides);
      }
    }
    assert selectors[..|selectors|] == selectors;
    MergedMeans(rules, vm, selectors);
  }

  /** matcher.go:132-151 for one matching selector. */
  method AddOverrides(have: Overrides, more: Overrides) returns (r: Overrides)
    ensures r == MergeOne(have, more)
  {
    r := have;
    if more.targetHost != "" {
      r := r.(targetHost := more.targetHost);
    }
    if more.targetStorage != "" {
      r := r.(targetStorage := more.targetStorage);
    }
    r := r.(networkMap := r.networkMap + more.networkMap, storageMap := r.storageMap + more.storageMap);
    for j := 0 to |more.dependencies|
      invariant r == MergeOne(have, more).(dependencies := AddDependencies(have.dependencies, more.dependencies[..j]))
    {
      var d := more.dependencies[j];
      assert more.dependencies[..j + 1][..j] == more.dependencies[..j];
      if d != "" && d !in r.dependencies {
        r := r.(dependencies := r.dependencies + [d]);
      }
    }
    assert more.dependencies[..|more.dependencies|] == more.dependencies;
  }

  // ---------- What merging means ----------

  function HostOf(o: Overrides): string {
    o.targetHost
  }

  function StorageOf(o: Overrides): string {
    o.targetStorage
  }

  function NetworksOf(o: Overrides): map<string, string> {
    o.networkMap
  }

  function StoragesOf(o: Overrides): map<string, string> {
    o.storageMap
  }

  /** The value of the last matching selector that gives one, or "" if none does. */
  ghost predicate LastNonEmpty(rules: TextRules, vm: VM, selectors: seq<Selector>, field: Overrides -> string,
                               value: string)
  {
    || (value == "" && NoneAfter(rules, vm, selectors, field, -1))
    || exists i ::
         && 0 <= i < |selectors| && SelectorMatches(rules, vm, selectors[i])
         && field(selectors[i].overrides) == value != "" && NoneAfter(rules, vm, selectors, field, i)
  }

  ghost predicate NoneAfter(rules: TextRules, vm: VM, selectors: seq<Selector>, field: Overrides -> string, i: int) {
    forall j :: 0 <= j < |selectors| && i < j && SelectorMatches(rules, vm, selectors[j]) ==>
      field(selectors[j].overrides) == ""
  }

  /** A key is mapped exactly if some matching selector maps it, to what the last such selector says. */
  ghost predicate LastMapped(rules: TextRules, vm: VM, selectors: seq<Selector>,
                             field: Overrides -> map<string, string>, merged: map<string, string>)
  {
    && (forall s, k :: s in selectors && SelectorMatches(rules, vm, s) && k in field(s.overrides) ==> k in merged)
    && (forall k :: k in merged ==> MappedLast(rules, vm, selectors, field, k, merged[k]))
  }

  ghost predicate MappedLast(rules: TextRules, vm: VM, selectors: seq<Selector>,
                             field: Overrides -> map<string, string>, k: string, value: string)
  {
    exists i ::
      && 0 <= i < |selectors| && SelectorMatches(rules, vm, selectors[i])
      && k in field(selectors[i].overrides) && field(selectors[i].overrides)[k] == value
      && forall j :: i < j < |selectors| && SelectorMatches(rules, vm, selectors[j]) ==>
           k !in field(selectors[j].overrides)
  }

  lemma {:induction false} LastNonEmptyNext(rules: TextRules, vm: VM, selectors: seq<Selector>, s: Selector,
                                            field: Overrides -> string, value: string)
    requires LastNonEmpty(rules, vm, selectors, field, value)
    ensures SelectorMatches(rules, vm, s) && field(s.overrides) != "" ==>
              LastNonEmpty(rules, vm, selectors + [s], field, field(s.overrides))
    ensures !SelectorMatches(rules, vm, s) || field(s.overrides) == "" ==>
              LastNonEmpty(rules, vm, selectors + [s], field, value)
  {
    var all, n := selectors + [s], |selectors|;
    assert all[n] == s && NoneAfter(rules, vm, all, field, n);
    if !SelectorMatches(rules, vm, s) || field(s.overrides) == "" {
      if value != "" {
        var i :| 0 <= i < n && SelectorMatches(rules, vm, selectors[i])
                 && field(selectors[i].overrides) == value && NoneAfter(rules, vm, selectors, field, i);
        assert all[i] == selectors[i] && NoneAfter(rules, vm, all, field, i);
      } else {
        assert NoneAfter(rules, vm, all, field, -1);
      }
    }
  }

  lemma {:induction false} LastMappedNext(rules: TextRules, vm: VM, selectors: seq<Selector>, s: Selector,
                                          field: Overrides -> map<string, string>, merged: map<string, string>)
    requires LastMapped(rules, vm, selectors, field, merged)
    ensures LastMapped(rules, vm, selectors + [s], field,
                       if SelectorMatches(rules, vm, s) then merged + field(s.overrides) else merged)
  {
    var all, n, matches := selectors + [s], |selectors|, SelectorMatches(rules, vm, s);
    var after := if matches then merged + field(s.overrides) else merged;
    forall k | k in after ensures MappedLast(rules, vm, all, field, k, after[k]) {
      if matches && k in field(s.overrides) {
        assert all[n] == s;
      } else {
        var i :| 0 <= i < n && SelectorMatches(rules, vm, selectors[i])
                 && k in field(selectors[i].overrides) && field(selectors[i].overrides)[k] == merged[k]
                 && forall j :: i < j < n && SelectorMatches(rules, vm, selectors[j]) ==>
                      k !in field(selectors[j].overrides);
        assert all[i] == selectors[i];
      }
    }
  }

  /** Later selectors win, field by field and key by key. */
  lemma {:induction false} MergedMeans(rules: TextRules, vm: VM, selectors: seq<Selector>)
    ensures var m := Merged(rules, vm, selectors);
            && LastNonEmpty(rules, vm, selectors, HostOf, m.targetHost)
            && LastNonEmpty(rules, vm, selectors, StorageOf, m.targetStorage)
            && LastMapped(rules, vm, selectors, NetworksOf, m.networkMap)
            && LastMapped(rules, vm, selectors, StoragesOf, m.storageMap)
  {
    if selectors != [] {
      var init, s := selectors[..|selectors| - 1], selectors[|selectors| - 1];
      MergedMeans(rules, vm, init);
      var m := Merged(rules, vm, init);
      assert init + [s] == selectors;
      LastNonEmptyNext(rules, vm, init, s, HostOf, m.targetHost);
      LastNonEmptyNext(rules, vm, init, s, StorageOf, m.targetStorage);
      LastMappedNext(rules, vm, init, s, NetworksOf, m.networkMap);
      LastMappedNext(rules, vm, init, s, StoragesOf, m.storageMap);
    }
  }

  lemma {:induction false} AddDependenciesMembers(have: seq<string>, more: seq<string>)
    requires Distinct(have) && "" !in have
    ensures Distinct(AddDependencies(have, more)) && "" !in AddDependencies(have, more)
    ensures forall d :: d in AddDependencies(have, more) <==> d in have || (d in more && d != "")
  {
    if more != [] {
      AddDependenciesMembers(have, more[..|more| - 1]);
      assert more == more[..|more| - 1] + [more[|more| - 1]];
    }
  }

  /** A VM depends on exactly the non-empty names its matching selectors list, each once. */
  lemma {:induction false} MergedDependencies(rules: TextRules, vm: VM, selectors: seq<Selector>)
    ensures Distinct(Merged(rules, vm, selectors).dependencies) && "" !in Merged(rules, vm, selectors).dependencies
    ensures forall d :: d in Merged(rules, vm, selectors).dependencies <==>
              d != "" && exists s :: s in selectors && SelectorMatches(rules, vm, s) && d in s.overrides.dependencies
  {
    if selectors != [] {
      var init, s := selectors[..|selectors| - 1], selectors[|selectors| - 1];
      MergedDependencies(rules, vm, init);
      AddDependenciesMembers(Merged(rules, vm, init).dependencies, s.overrides.dependencies);
      assert selectors == init + [s];
    }
  }

  // ---------- Selection ----------

  function MatchKeys(vms: seq<VM>): set<string> {
    set vm | vm in vms :: MatchKey(vm)
  }

  /** The selected VMs in inventory order, the first one of every key. */
  function Selected(rules: TextRules, vms: seq<VM>, selectors: seq<Selector>): (r: seq<VM>) {
    if vms == [] then []
    else
      var r, vm := Selected(rules, vms[..|vms| - 1], selectors), vms[|vms| - 1];
      if MatchesAny(rules, vm, selectors) && MatchKey(vm) !in MatchKeys(r) then r + [vm] else r
  }

  function MatchKeyList(vms: seq<VM>): (r: seq<string>)
    ensures |r| == |vms| && forall i :: 0 <= i < |r| ==> r[i] == MatchKey(vms[i])
  {
    seq(|vms|, i requires 0 <= i < |vms| => MatchKey(vms[i]))
  }

  method MatchWorkloads(rules: TextRules, vms: seq<VM>, selectors: seq<Selector>) returns (matched: seq<VM>)
    ensures matched == Selected(rules, vms, selectors)
  {
    matched := [];
    var seen: set<string> := {};
    for i := 0 to |vms|
      invariant matched == Selected(rules, vms[..i], selectors) && seen == MatchKeys(matched)
    {
      assert vms[..i + 1][..i] == vms[..i];
      var matches := MatchesAnySelector(rules, vms[i], selectors);
      if matches && MatchKey(vms[i]) !in seen {
        seen := seen + {MatchKey(vms[i])};
        matched := matched + [vms[i]];
      }
    }
    assert vms[..|vms|] == vms;
  }

  /** Selection keeps one VM for every key that some matching VM has, and only matching VMs. */
  lemma {:induction false} SelectedMeans(rules: TextRules, vms: seq<VM>, selectors: seq<Selector>)
    ensures Distinct(MatchKeyList(Selected(rules, vms, selectors)))
    ensures forall vm :: vm in Selected(rules, vms, selectors) ==> vm in vms && MatchesAny(rules, vm, selectors)
    ensures forall vm :: vm in vms && MatchesAny(rules, vm, selectors) ==>
                           MatchKey(vm) in MatchKeys(Selected(rules, vms, selectors))
  {
    if vms != [] {
      var init, vm := vms[..|vms| - 1], vms[|vms| - 1];
      SelectedMeans(rules, init, selectors);
      assert vms == init + [vm];
    }
  }

  /** VM p is selected: it matches, and no earlier VM with its key does. */
  ghost predicate IsFirst(rules: TextRules, vms: seq<VM>, selectors: seq<Selector>, p: nat)
    requires p < |vms|
  {
    && MatchesAny(rules, vms[p], selectors)
    && forall q :: 0 <= q < p && MatchKey(vms[q]) == MatchKey(vms[p]) ==> !MatchesAny(rules, vms[q], selectors)
  }

  /** The VMs at the positions up to n that are selected. */
  ghost function Firsts(rules: TextRules, vms: seq<VM>, selectors: seq<Selector>, n: nat): seq<VM>
    requires n <= |vms|
  {
    if n == 0 then []
    else Firsts(rules, vms, selectors, n - 1) + if IsFirst(rules, vms, selectors, n - 1) then [vms[n - 1]] else []
  }

  /** Selection keeps exactly the first matching VM of every key, in inventory order. */
  lemma {:induction false} SelectedAreFirsts(rules: TextRules, vms: seq<VM>, selectors: seq<Selector>, n: nat)
    requires n <= |vms|
    ensures Selected(rules, vms[..n], selectors) == Firsts(rules, vms, selectors, n)
  {
    if n > 0 {
      var init, vm := vms[..n - 1], vms[n - 1];
      SelectedAreFirsts(rules, vms, selectors, n - 1);
      SelectedMeans(rules, init, selectors);
      assert vms[..n][..n - 1] == init;
      assert forall q :: 0 <= q < n - 1 ==> init[q] == vms[q] && init[q] in init;
      assert MatchKey(vm) in MatchKeys(Selected(rules, init, selectors)) <==>
             exists q :: 0 <= q < n - 1 && MatchKey(vms[q]) == MatchKey(vm) && MatchesAny(rules, vms[q], selectors);
    }
  }

  function NewWorkload(rules: TextRules, vm: VM, selectors: seq<Selector>): Workload {
    Workload(vm, PlanPhase, [], [], "", Merged(rules, vm, selectors).networkMap, "")
  }

  function NewWorkloads(rules: TextRules, vms: seq<VM>, selectors: seq<Selector>): (r: seq<Workload>)
    ensures |r| == |vms| && forall i :: 0 <= i < |r| ==> r[i] == NewWorkload(rules, vms[i], selectors)
  {
    seq(|vms|, i requires 0 <= i < |vms| => NewWorkload(rules, vms[i], selectors))
  }

  /** Builds migrations for the same VMs, in the same order, as MatchWorkloads selects. */
  method BuildWorkloadMigrations(rules: TextRules, vms: seq<VM>, selectors: seq<Selector>)
    returns (planned: seq<Workload>)
    ensures planned == NewWorkloads(rules, Selected(rules, vms, selectors), selectors)
    ensures forall i :: 0 <= i < |planned| ==>
              LastMapped(rules, planned[i].vm, selectors, NetworksOf, planned[i].networkMap)
  {
    planned := [];
    var seen: set<string> := {};
    ghost var picked: seq<VM> := [];
    for i := 0 to |vms|
      invariant picked == Selected(rules, vms[..i], selectors) && seen == MatchKeys(picked)
      invariant planned == NewWorkloads(rules, picked, selectors)
    {
      var vm := vms[i];
      assert vms[..i + 1][..i] == vms[..i];
      var overrides, ok := MergedOverrides(rules, vm, selectors);
      if ok && MatchKey(vm) !in seen {
        seen := seen + {MatchKey(vm)};
        planned := planned + [Workload(vm, PlanPhase, [], [], "", overrides.networkMap, "")];
        picked := picked + [vm];
      }
    }
    assert vms[..|vms|] == vms;
    forall i | 0 <= i < |planned|
      ensures LastMapped(rules, planned[i].vm, selectors, NetworksOf, planned[i].networkMap)
    {
      MergedMeans(rules, planned[i].vm, selectors);
    }
  }
}
