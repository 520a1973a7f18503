/** What each phase does to the outside world for each workload, and what it leaves alone in the record. */
module Effects {
  import opened MigrationTypes
  import opened Checkpoints
  import opened ExecutionPlan
  import opened NetworkMap
  import opened RunTrace

  /** Which optional interfaces the connectors implement. */
  datatype Capabilities = Capabilities(
    snapshotter: bool, sourcePower: bool, exporter: bool, importer: bool, configurer: bool, targetPower: bool,
    verifier: bool, remover: bool)

  /** What a run works with: the connectors, the specification and the target's networks. */
  datatype Env = Env(caps: Capabilities, rules: TextRules, spec: Spec, networks: seq<Network>)

  // ---------- Effects ----------

  /** The effects of a run so far. */
  function DeedsOf(t: Trace): seq<Event> {
    match t
    case Start => []
    case Then(before, e) => if e.Effect? then DeedsOf(before) + [e] else DeedsOf(before)
  }

  /** Exactly the effects among the events. */
  lemma {:induction false} DeedsAreEvents(t: Trace, e: Event)
    ensures e in DeedsOf(t) <==> e in EventsOf(t) && e.Effect?
  {
    match t
    case Start =>
    case Then(before, _) => DeedsAreEvents(before, e);
  }

  function Success(i: nat, d: Deed): Event {
    Effect(i, d, true)
  }

  function If(condition: bool, e: Event): seq<Event> {
    if condition then [e] else []
  }

  function Conversions(paths: seq<string>): (r: seq<Event>)
    ensures |r| == |paths| && forall d :: 0 <= d < |r| ==> r[d] == Success(1, ConvertDisk(paths[d]))
  {
    seq(|paths|, d requires 0 <= d < |paths| => Success(1, ConvertDisk(paths[d])))
  }

  predicate PowersOff(env: Env, w: Workload) {
    env.spec.options.shutdownSource && env.caps.sourcePower && w.vm.powerState == "on"
  }

  /** The overrides of the selectors that match the VM, with the specification's defaults. */
  function PlacementOf(env: Env, w: Workload): PlannedWorkload {
    PlannedFor(env.rules, env.spec, w.vm)
  }

  predicate Mappable(env: Env, w: Workload) {
    AllMapped(PlacementOf(env, w).networkMap, env.networks, w.vm.nics)
  }

  function TargetNetworks(env: Env, w: Workload): seq<Network> {
    if Mappable(env, w) then NetworksFor(PlacementOf(env, w).networkMap, env.networks, w.vm.nics) else []
  }

  function ExportEffects(env: Env, w: Workload): seq<Event> {
    If(PowersOff(env, w), Success(0, PowerOff(w.vm.id))) + If(env.caps.exporter, Success(0, ExportDisks(w.vm.id)))
  }

  function ImportEffects(env: Env, w: Workload): seq<Event> {
    var p := PlacementOf(env, w);
    If(env.caps.importer, Success(2, CreateTarget(w.vm.id, w.convertedPaths, p.targetHost, p.targetStorage)))
  }

  function ConfigureEffects(env: Env, w: Workload): seq<Event> {
    If(env.caps.configurer, Success(3, ConfigureNetworks(w.targetId, TargetNetworks(env, w))))
  }

  function VerifyEffects(env: Env, w: Workload): seq<Event> {
    If(env.spec.options.verifyBoot && env.caps.targetPower, Success(4, PowerOn(w.targetId))) +
    If(env.spec.options.verifyBoot && env.caps.verifier, Success(4, CheckBoot(w.targetId)))
  }

  /** Everything phase i does for a workload when nothing fails. */
  function WorkloadEffects(env: Env, i: nat, w: Workload): seq<Event> {
    match i
    case 0 => ExportEffects(env, w)
    case 1 => Conversions(w.sourcePaths)
    case 2 => ImportEffects(env, w)
    case 3 => ConfigureEffects(env, w)
    case _ => VerifyEffects(env, w)
  }

  /** Workload after workload. */
  function PhaseEffects(env: Env, i: nat, ws: seq<Workload>): seq<Event> {
    if ws == [] then [] else PhaseEffects(env, i, ws[..|ws| - 1]) + WorkloadEffects(env, i, ws[|ws| - 1])
  }

  /** Phase after phase. */
  function RunEffects(env: Env, from: nat, to: nat, ws: seq<Workload>): seq<Event> {
    if to <= from then [] else RunEffects(env, from, to - 1, ws) + PhaseEffects(env, to - 1, ws)
  }

  // ---------- What a completed run has done ----------

  /** A call is due for a workload in a phase: what each phase is for, read off options, connectors and record. */
  ghost predicate Due(env: Env, w: Workload, phase: Phase, d: Deed) {
    match d
    case PowerOff(id) =>
      && phase == Export && id == w.vm.id && w.vm.powerState == "on"
      && env.spec.options.shutdownSource && env.caps.sourcePower
    case ExportDisks(id) => phase == Export && id == w.vm.id && env.caps.exporter
    case ConvertDisk(path) => phase == Convert && path in w.sourcePaths
    case CreateTarget(id, disks, host, storage) =>
      && phase == Import && id == w.vm.id && disks == w.convertedPaths && env.caps.importer
      && host == PlacementOf(env, w).targetHost && storage == PlacementOf(env, w).targetStorage
    case ConfigureNetworks(target, networks) =>
      phase == Configure && target == w.targetId && networks == TargetNetworks(env, w) && env.caps.configurer
    case PowerOn(target) =>
      phase == Verify && target == w.targetId && env.spec.options.verifyBoot && env.caps.targetPower
    case CheckBoot(target) =>
      phase == Verify && target == w.targetId && env.spec.options.verifyBoot && env.caps.verifier
  }

  /** From phase `start` on, exactly the calls due for some workload were made, all of them successful. */
  ghost predicate DoneExactly(env: Env, start: nat, ws: seq<Workload>, deeds: seq<Event>) {
    && (forall i: nat, d :: Effect(i, d, true) in deeds <==> start <= i < |PHASES| && SomeDue(env, ws, PHASES[i], d))
    && forall e :: e in deeds ==> e.Effect? && e.ok
  }

  ghost predicate SomeDue(env: Env, ws: seq<Workload>, phase: Phase, d: Deed) {
    exists w :: w in ws && Due(env, w, phase, d)
  }

  /** A successful call of one of the phases [from, to) that is due for some workload. */
  ghost predicate IsDue(env: Env, from: nat, to: nat, ws: seq<Workload>, e: Event)
    requires to <= |PHASES|
  {
    e.Effect? && e.ok && from <= e.index < to && SomeDue(env, ws, PHASES[e.index], e.deed)
  }

  /** Everything that is due for a workload in phase i. */
  ghost predicate DueFor(env: Env, i: nat, w: Workload, e: Event)
    requires i < |PHASES|
  {
    e.Effect? && e.ok && e.index == i && Due(env, w, PHASES[i], e.deed)
  }

  lemma {:induction false} WorkloadEffectsDue(env: Env, i: nat, w: Workload, e: Event)
    requires i < |PHASES|
    ensures e in WorkloadEffects(env, i, w) <==> DueFor(env, i, w, e)
  {
    match i
    case 0 => ExportDue(env, w, e);
    case 1 => ConversionsDue(w.sourcePaths, e);
    case 2 => ImportDue(env, w, e);
    case 3 => ConfigureDue(env, w, e);
    case 4 => VerifyDue(env, w, e);
  }

  lemma {:induction false} ExportDue(env: Env, w: Workload, e: Event)
    ensures e in ExportEffects(env, w) <==> DueFor(env, 0, w, e)
  {
  }

  lemma {:induction false} ImportDue(env: Env, w: Workload, e: Event)
    ensures e in ImportEffects(env, w) <==> DueFor(env, 2, w, e)
  {
  }

  lemma {:induction false} ConfigureDue(env: Env, w: Workload, e: Event)
    ensures e in ConfigureEffects(env, w) <==> DueFor(env, 3, w, e)
  {
  }

  lemma {:induction false} VerifyDue(env: Env, w: Workload, e: Event)
    ensures e in VerifyEffects(env, w) <==> DueFor(env, 4, w, e)
  {
  }

  lemma {:induction false} ConversionsDue(paths: seq<string>, e: Event)
    ensures e in Conversions(paths) <==>
            e.Effect? && e.ok && e.index == 1 && e.deed.ConvertDisk? && e.deed.path in paths
  {
    if e.Effect? && e.ok && e.index == 1 && e.deed.ConvertDisk? && e.deed.path in paths {
      var k :| 0 <= k < |paths| && paths[k] == e.deed.path;
      assert Conversions(paths)[k] == e;
    }
  }

  lemma {:induction false} SomeDueNext(env: Env, ws: seq<Workload>, w: Workload, phase: Phase, d: Deed)
    ensures SomeDue(env, ws + [w], phase, d) <==> SomeDue(env, ws, phase, d) || Due(env, w, phase, d)
  {
    assert w in ws + [w];
  }

  lemma {:induction false} PhaseEffectsDue(env: Env, i: nat, ws: seq<Workload>, e: Event)
    requires i < |PHASES|
    ensures e in PhaseEffects(env, i, ws) <==> IsDue(env, i, i + 1, ws, e)
  {
    if ws != [] {
      var init, w := ws[..|ws| - 1], ws[|ws| - 1];
      PhaseEffectsDue(env, i, init, e);
      WorkloadEffectsDue(env, i, w, e);
      PhaseAndWorkload(env, i, init, w, e);
      assert ws == init + [w];
    }
  }

  lemma {:induction false} PhaseAndWorkload(env: Env, i: nat, ws: seq<Workload>, w: Workload, e: Event)
    requires i < |PHASES|
    ensures IsDue(env, i, i + 1, ws + [w], e) <==> IsDue(env, i, i + 1, ws, e) || DueFor(env, i, w, e)
  {
    if e.Effect? && e.index == i {
      SomeDueNext(env, ws, w, PHASES[i], e.deed);
    }
  }

  lemma {:induction false} RunEffectsDue(env: Env, from: nat, to: nat, ws: seq<Workload>, e: Event)
    requires to <= |PHASES|
    ensures e in RunEffects(env, from, to, ws) <==> IsDue(env, from, to, ws, e)
  {
    if from < to {
      var last := to - 1;
      RunEffectsDue(env, from, last, ws, e);
      PhaseEffectsDue(env, last, ws, e);
      RunEffectsNext(env, from, last, ws);
    }
  }

  /** The effects of all phases from `start` on are exactly the calls due. */
  lemma {:induction false} RunDoneExactly(env: Env, start: nat, ws: seq<Workload>)
    ensures DoneExactly(env, start, ws, RunEffects(env, start, |PHASES|, ws))
  {
    var deeds := RunEffects(env, start, |PHASES|, ws);
    forall e ensures e in deeds <==> IsDue(env, start, |PHASES|, ws, e) {
      RunEffectsDue(env, start, |PHASES|, ws, e);
    }
  }

  lemma {:induction false} PhaseEffectsNext(env: Env, i: nat, ws: seq<Workload>, k: nat)
    requires k < |ws|
    ensures PhaseEffects(env, i, ws[..k + 1]) == PhaseEffects(env, i, ws[..k]) + WorkloadEffects(env, i, ws[k])
  {
    assert ws[..k + 1][..k] == ws[..k];
  }

  // ---------- What a phase leaves alone ----------

  /** Only export sets source paths, only conversion converted paths, only import the target; no phase the VM. */
  predicate Preserved(i: nat, a: Workload, b: Workload) {
    && b.vm == a.vm && b.networkMap == a.networkMap
    && (i >= 1 ==> b.sourcePaths == a.sourcePaths)
    && (i != 1 ==> b.convertedPaths == a.convertedPaths)
    && (i != 2 ==> b.targetId == a.targetId)
  }

  ghost predicate PreservedAll(i: nat, a: seq<Workload>, b: seq<Workload>) {
    |a| == |b| && forall j :: 0 <= j < |a| ==> Preserved(i, a[j], b[j])
  }

  lemma {:induction false} PreservedVMs(i: nat, a: seq<Workload>, b: seq<Workload>)
    requires PreservedAll(i, a, b)
    ensures VMs(a) == VMs(b)
  {
    forall j | 0 <= j < |a| ensures VMs(a)[j] == VMs(b)[j] {
      assert Preserved(i, a[j], b[j]);
    }
  }

  /** The last phase leaves everything on record as it is. */
  lemma {:induction false} PreservedRecord(a: seq<Workload>, b: seq<Workload>)
    requires PreservedAll(|PHASES| - 1, a, b)
    ensures Recorded(a) == Recorded(b)
  {
    PreservedVMs(|PHASES| - 1, a, b);
    PreservedLists(a, b);
  }

  lemma {:induction false} PreservedLists(a: seq<Workload>, b: seq<Workload>)
    requires PreservedAll(|PHASES| - 1, a, b)
    ensures TargetIds(a) == TargetIds(b) && ConvertedFiles(a) == ConvertedFiles(b)
  {
    if a != [] {
      var n := |a| - 1;
      PreservedLists(a[..n], b[..n]);
      assert Preserved(|PHASES| - 1, a[n], b[n]);
    }
  }

  /** What a successful phase has recorded for a workload. */
  predicate Handled(env: Env, i: nat, w: Workload) {
    && i < |PHASES| && w.phase == PHASES[i]
    && (i == 1 ==> |w.convertedPaths| == |w.sourcePaths|)
    && (i == 2 && !env.caps.importer ==> w.targetId == w.vm.id + "-target")
    && (i == 3 ==> Mappable(env, w))
  }

  lemma {:induction false} WorkloadEffectsSame(env: Env, j: nat, i: nat, a: Workload, b: Workload)
    requires Preserved(i, a, b) && j <= i
    ensures WorkloadEffects(env, j, a) == WorkloadEffects(env, j, b)
  {
  }

  /** A phase does not change what it or an earlier phase was to do. */
  lemma {:induction false} PhaseEffectsSame(env: Env, j: nat, i: nat, a: seq<Workload>, b: seq<Workload>)
    requires PreservedAll(i, a, b) && j <= i
    ensures PhaseEffects(env, j, a) == PhaseEffects(env, j, b)
  {
    if a != [] {
      var n := |a| - 1;
      PhaseEffectsSame(env, j, i, a[..n], b[..n]);
      WorkloadEffectsSame(env, j, i, a[n], b[n]);
    }
  }

  lemma {:induction false} RunEffectsNext(env: Env, from: nat, to: nat, ws: seq<Workload>)
    requires from <= to
    ensures RunEffects(env, from, to + 1, ws) == RunEffects(env, from, to, ws) + PhaseEffects(env, to, ws)
  {
  }

  lemma {:induction false} RunEffectsSame(env: Env, from: nat, to: nat, i: nat, a: seq<Workload>, b: seq<Workload>)
    requires PreservedAll(i, a, b) && to <= i + 1
    ensures RunEffects(env, from, to, a) == RunEffects(env, from, to, b)
  {
    if from < to {
      var last := to - 1;
      RunEffectsSame(env, from, last, i, a, b);
      PhaseEffectsSame(env, last, i, a, b);
      RunEffectsNext(env, from, last, a);
      RunEffectsNext(env, from, last, b);
    }
  }

  // ---------- Progress through a phase and through a run ----------

  /** The first k workloads are through phase i, the others untouched, and this is what was done. */
  ghost predicate Through(env: Env, i: nat, was: seq<Workload>, now: seq<Workload>, k: nat, done: seq<Event>) {
    && PreservedAll(i, was, now) && k <= |was|
    && (forall j :: k <= j < |now| ==> now[j] == was[j])
    && (forall j :: 0 <= j < k ==> Handled(env, i, now[j]))
    && done == PhaseEffects(env, i, was[..k])
  }

  lemma {:induction false} ThroughNext(env: Env, i: nat, was: seq<Workload>, now: seq<Workload>, k: nat,
                                       done: seq<Event>, w: Workload, deeds: seq<Event>) returns (next: seq<Event>)
    requires Through(env, i, was, now, k, done) && k < |was| && Preserved(i, was[k], w)
    ensures PreservedAll(i, was, now[k := w])
    ensures Handled(env, i, w) ==> Through(env, i, was, now[k := w], k + 1, next)
    ensures deeds + done + WorkloadEffects(env, i, was[k]) == deeds + next
  {
    PhaseEffectsNext(env, i, was, k);
    UpdatedNext(env, i, was, now, k, w);
    var more := WorkloadEffects(env, i, was[k]);
    next := done + more;
    Associate(deeds, done, more);
  }

  lemma {:induction false} UpdatedNext(env: Env, i: nat, was: seq<Workload>, now: seq<Workload>, k: nat, w: Workload)
    requires PreservedAll(i, was, now) && k < |was| && Preserved(i, was[k], w)
    requires forall j :: k <= j < |now| ==> now[j] == was[j]
    ensures var after := now[k := w];
            && PreservedAll(i, was, after)
            && (forall j :: k + 1 <= j < |after| ==> after[j] == was[j])
            && ((forall j :: 0 <= j < k ==> Handled(env, i, now[j])) && Handled(env, i, w) ==>
                  forall j :: 0 <= j < k + 1 ==> Handled(env, i, after[j]))
  {
  }

  /** One more phase on the list of what a run has done. */
  lemma {:induction false} PhaseDone(env: Env, start: nat, i: nat, before: seq<Workload>, after: seq<Workload>,
                                     deeds: seq<Event>, done: seq<Event>) returns (next: seq<Event>)
    requires start <= i && PreservedAll(i, before, after) && done == RunEffects(env, start, i, before)
    ensures next == RunEffects(env, start, i + 1, after)
    ensures deeds + done + PhaseEffects(env, i, after) == deeds + next
  {
    RunEffectsSame(env, start, i, i, before, after);
    next := done + PhaseEffects(env, i, after);
    Associate(deeds, done, PhaseEffects(env, i, after));
  }

  lemma {:induction false} Associate(a: seq<Event>, b: seq<Event>, c: seq<Event>)
    ensures a + b + c == a + (b + c)
  {
  }
}
