/**
 * orchestrator.go and rollback.go.  Connector calls, discovery and the store may succeed or fail at
 * any point; a failed save may or may not have taken effect.  Runs on one migration are sequential.
 */
module Orchestrator {
  import opened Text
  import opened Collections
  import opened MigrationTypes
  import opened Checkpoints
  import opened RunTrace
  import opened Effects
  import opened Recovery
  import opened NetworkMap
  import opened ExecutionPlan
  import opened PlanOrder
  import opened Matcher

  /** validateExecutionReadiness. */
  function GateOpen(options: Options, now: int): (r: bool)
    ensures r <==> !Barred(options, now)
  {
    if options.window.notBefore != 0 && now < options.window.notBefore then false
    else if options.window.notAfter != 0 && now > options.window.notAfter then false
    else if options.approval.required && !options.approval.Approved() then false
    else true
  }

  /** Outside the window, or still to be approved. */
  ghost predicate Barred(options: Options, now: int) {
    || (options.window.notBefore != 0 && now < options.window.notBefore)
    || (options.window.notAfter != 0 && now > options.window.notAfter)
    || (options.approval.required && TrimSpace(options.approval.approvedBy) == "")
  }

  // ---------- Good states ----------

  lemma {:induction false} MarkingNeverCompletes(cs: seq<Checkpoint>, phase: Phase)
    ensures forall i :: 0 <= i < |PHASES| && IsCompleted(Mark(cs, phase, Unsuccessful), i) ==> IsCompleted(cs, i)
  {
    forall i | 0 <= i < |PHASES| && IsCompleted(Mark(cs, phase, Unsuccessful), i) ensures IsCompleted(cs, i) {
      MarkReads(cs, phase, Unsuccessful, PHASES[i]);
    }
  }

  lemma {:induction false} FreshIsGood(s: MigrationState)
    requires s.checkpoints == InitialCheckpoints() && s.phase == PlanPhase
    ensures GoodState(s) && CompletedUpTo(s.checkpoints, 0) && !AllCompleted(s)
  {
    forall i | 0 <= i < |PHASES| ensures !IsCompleted(s.checkpoints, i) {
    }
    assert GoodUpTo(s, 0);
    assert !IsCompleted(s.checkpoints, 0);
  }

  /** A state whose current phase is the first one not completed. */
  lemma {:induction false} AtPhaseGood(s: MigrationState, i: nat)
    requires i < |PHASES| && CompletedUpTo(s.checkpoints, i) && s.phase in {PlanPhase, PHASES[i]}
    ensures GoodState(s) && !AllCompleted(s)
  {
    assert GoodUpTo(s, i) && !IsCompleted(s.checkpoints, i);
  }

  /** A state whose current phase is the last one completed. */
  lemma {:induction false} AfterPhaseGood(s: MigrationState, i: nat)
    requires i < |PHASES| && CompletedUpTo(s.checkpoints, i + 1) && s.phase == PHASES[i]
    ensures GoodState(s) && (i + 1 < |PHASES| ==> !AllCompleted(s))
  {
    assert GoodUpTo(s, i + 1);
    assert i + 1 < |PHASES| ==> !IsCompleted(s.checkpoints, i + 1);
  }

  /** Changes outside phase and checkpoints keep a state good. */
  lemma {:induction false} GoodFrame(s: MigrationState, s': MigrationState)
    requires GoodState(s) && s'.phase == s.phase && s'.checkpoints == s.checkpoints
    ensures GoodState(s')
  {
    var k: nat :| GoodUpTo(s, k);
    assert GoodUpTo(s', k);
  }

  /** Marking the workloads complete changes nothing that is recorded or was to be done. */
  lemma {:induction false} SameInTheEnd(env: Env, start: nat, a: seq<Workload>, b: seq<Workload>)
    requires PreservedAll(|PHASES| - 1, a, b)
    ensures VMs(a) == VMs(b) && Recorded(a) == Recorded(b)
    ensures RunEffects(env, start, |PHASES|, a) == RunEffects(env, start, |PHASES|, b)
  {
    PreservedVMs(|PHASES| - 1, a, b);
    PreservedRecord(a, b);
    RunEffectsSame(env, start, |PHASES|, |PHASES| - 1, a, b);
  }

  // ---------- Adoption ----------

  /** The workloads a resumed run works on: those on record, or what discovery matches now. */
  function AdoptedList(rules: TextRules, spec: Spec, vms: seq<VM>, was: MigrationState, plan: Plan): seq<Workload> {
    if was.workloads != [] then was.workloads else Matched(rules, spec, vms, plan)
  }

  /** The workloads that discovery matches, in the order of a plan. */
  function Matched(rules: TextRules, spec: Spec, vms: seq<VM>, plan: Plan): seq<Workload> {
    Reordered(NewWorkloads(rules, Selected(rules, vms, spec.workloads), spec.workloads), plan)
  }

  const NO_PLAN := Plan(0, Window(0, 0), false, false, WaveStrategy(1, false), [])

  /** A Resume adopts workloads into a state that was completed without any. */
  predicate LateAdoption(was: MigrationState, now: seq<Workload>) {
    AllCompleted(was) && was.workloads == [] && now != []
  }

  datatype RollbackResult = RollbackResult(removed: nat, cleaned: nat, restored: nat, failures: nat)

  datatype Command =
    | DoExecute(spec: Spec, found: Inventory, now: int)
    | DoResume(spec: Spec, found: Inventory, now: int)
    | DoRollback

  class Migration {
    const caps: Capabilities
    const rules: TextRules
    var saved: Option<MigrationState>
    var point: Option<RecoveryPoint>
    /** The state the current run works on. */
    var state: MigrationState
    ghost var first: nat
    ghost var roster: seq<VM>
    ghost var trace: Trace
    /** What the last rollback attempted. */
    ghost var undone: seq<UndoAction>
    /** Every state ever persisted. */
    ghost var log: set<MigrationState>
    /** Some Resume adopted workloads into a state completed without any. */
    ghost var late: bool

    /** Every state ever persisted is good, and the one on record is covered by the recovery point. */
    ghost predicate Valid()
      reads this
    {
      && (saved.Some? ==> saved.value in log && Covered(saved.value, point, late))
      && forall s :: s in log ==> GoodState(s)
    }

    ghost function Seen(): Observer
      reads this
    {
      SeenOf(first, roster, trace)
    }

    /** The effects of the current run so far. */
    ghost function Deeds(): seq<Event>
      reads this
    {
      DeedsOf(trace)
    }

    /** Between phases: the first i are completed and the next may begin. */
    ghost predicate Running(i: nat)
      reads this
    {
      && Valid() && CompletedUpTo(state.checkpoints, i)
      && Seen().Ready? && Seen().next == i && VMs(state.workloads) == roster
    }

    /** Between phases of a run from phase `start`: `done` is what the run has done, and the last phase left a point. */
    ghost predicate Progressed(env: Env, start: nat, i: nat, deeds: seq<Event>, done: seq<Event>)
      reads this
    {
      && Running(i) && done == RunEffects(env, start, i, state.workloads) && Deeds() == deeds + done
      && (start < i == |PHASES| ==> point.Some? && Captures(point.value, state.workloads))
    }

    /** The state on record is the old one or one of this run's. */
    ghost predicate Records(was: Option<MigrationState>)
      reads this
    {
      saved == was || (saved.Some? && VMs(saved.value.workloads) == roster)
    }

    /** Since the moment when `was` was on record and `logged` had been persisted. */
    ghost predicate Since(was: Option<MigrationState>, logged: set<MigrationState>)
      reads this
    {
      Records(was) && logged <= log
    }

    /**
     * A run from phase `start` has succeeded: the state on record is complete, its recovery point lists
     * what it has recorded, and the effects were exactly those due.
     */
    ghost predicate Succeeded(env: Env, start: nat, deeds: seq<Event>)
      reads this
    {
      && saved.Some? && saved.value.phase == Complete && VMs(saved.value.workloads) == roster
      && point.Some? && Captures(point.value, saved.value.workloads)
      && Seen().Ready? && Deeds() == deeds + RunEffects(env, start, |PHASES|, saved.value.workloads)
    }

    constructor (caps: Capabilities, rules: TextRules)
      ensures Valid() && saved == None && point == None && log == {} && !late
    {
      this.caps, this.rules := caps, rules;
      saved, point := None, None;
      state := MigrationState(PlanPhase, [], None, [], false, 0);
      first, roster, trace, log, undone, late := 0, [], Start, {}, [], false;
    }

    /** A migration as another process left it in the store. */
    constructor Stored(caps: Capabilities, rules: TextRules, s: MigrationState, p: RecoveryPoint)
      requires GoodState(s) && Covered(s, Some(p), false)
      ensures Valid() && saved == Some(s) && point == Some(p) && log == {s} && !late
      ensures this.caps == caps && this.rules == rules
    {
      this.caps, this.rules := caps, rules;
      saved, point, state := Some(s), Some(p), s;
      first, roster, trace, log, undone, late := 0, [], Start, {s}, [], false;
    }

    ghost method Emit(e: Event)
      modifies this`trace
      ensures trace == Then(old(trace), e) && Seen() == Observe(first, roster, old(Seen()), e)
      ensures Deeds() == if e.Effect? then old(Deeds()) + [e] else old(Deeds())
    {
      trace := Then(trace, e);
    }

    // ---------- Store steps (runtime.go) ----------

    /** Every state that reaches the store is logged, whether or not the caller is told so. */
    method SaveState() returns (ok: bool)
      requires Valid() && GoodState(state) && Covered(state, point, late) && MaySave(Seen())
      modifies this`saved, this`trace, this`log
      ensures Valid() && Seen() == AfterSave(old(Seen()), ok) && Deeds() == old(Deeds())
      ensures saved == Some(state) || saved == old(saved)
      ensures ok ==> saved == Some(state)
      ensures log == old(log) || log == old(log) + {state}
      ensures ok || saved != old(saved) ==> log == old(log) + {state}
    {
      var tookEffect: bool;
      ok, tookEffect := *, *;
      Emit(Saved(state, ok));
      if ok || tookEffect {
        saved := Some(state);
        log := log + {state};
      }
    }

    method SavePoint(p: RecoveryPoint) returns (ok: bool)
      requires Valid() && Seen().Ready? && (saved.Some? ==> !AllCompleted(saved.value))
      modifies this`point, this`trace
      ensures Valid() && Deeds() == old(Deeds())
      ensures Seen() == if ok then Ready(old(Seen()).next, Some(p)) else Halted
      ensures ok ==> point == Some(p)
    {
      var tookEffect: bool;
      ok, tookEffect := *, *;
      Emit(PointSaved(p, ok));
      if ok || tookEffect {
        point := Some(p);
      }
    }

    // ---------- CreateRecoveryPoint ----------

    method CreateRecoveryPoint() returns (ok: bool)
      requires Valid() && Seen().Ready? && (saved.Some? ==> !AllCompleted(saved.value))
      modifies this`point, this`trace
      ensures Valid() && Deeds() == old(Deeds())
      ensures ok ==> point.Some? && Captures(point.value, state.workloads) && Seen() == Ready(old(Seen()).next, point)
      ensures !ok ==> Seen() == Halted
    {
      var ws := state.workloads;
      var sources: seq<SourceRecovery>, targets: seq<string>, files: seq<string> := [], [], [];
      for i := 0 to |ws|
        invariant Valid() && Deeds() == old(Deeds()) && point == old(point)
        invariant Seen().Ready? && Seen().next == old(Seen()).next
        invariant CapturesSources(sources, VMs(ws)[..i])
        invariant targets == TargetIds(ws[..i]) && files == ConvertedFiles(ws[..i])
      {
        var w := ws[i];
        var snapshot := "";
        if caps.snapshotter {
          var taken: bool := *;
          Emit(Snapshot(w.vm.id, taken));
          if !taken {
            return false;
          }
          snapshot := *;
        }
        sources := sources + [SourceRecovery(w.vm, w.vm.powerState, snapshot)];
        if w.targetId != "" {
          targets := targets + [w.targetId];
        }
        files := files + w.convertedPaths;
        CaptureNext(ws, i);
      }
      assert ws[..|ws|] == ws && VMs(ws)[..|ws|] == VMs(ws);
      ok := SavePoint(RecoveryPoint(state.phase, sources, targets, files));
    }

    // ---------- The phases ----------

    /** Powers the source off if asked to, then exports its disks; records only paths or an error. */
    method ExportWorkload(env: Env, w: Workload) returns (ok: bool, r: Workload)
      requires Seen() == Inside(0)
      modifies this`trace
      ensures Preserved(0, w, r) && r.phase == w.phase && Seen() == (if ok then Inside(0) else Halted)
      ensures ok ==> Deeds() == old(Deeds()) + ExportEffects(env, w)
    {
      ok, r := true, w;
      if env.spec.options.shutdownSource && env.caps.sourcePower && w.vm.powerState == "on" {
        ok := *;
        Emit(Effect(0, PowerOff(w.vm.id), ok));
        if !ok {
          return false, w.(error := "power off source");
        }
      }
      if env.caps.exporter {
        ok := *;
        Emit(Effect(0, ExportDisks(w.vm.id), ok));
        if !ok {
          return false, w.(error := "export");
        }
      }
      var paths: seq<string> := *;  // what the exporter returned, or the default artifact paths
      r := w.(sourcePaths := paths);
    }

    /** Converts the disks one after the other; what was converted before a failure stays recorded. */
    method ConvertWorkload(w: Workload) returns (ok: bool, r: Workload)
      requires Seen() == Inside(1)
      modifies this`trace
      ensures Preserved(1, w, r) && r.phase == w.phase && Seen() == (if ok then Inside(1) else Halted)
      ensures ok ==> |r.convertedPaths| == |r.sourcePaths|
      ensures ok ==> Deeds() == old(Deeds()) + Conversions(w.sourcePaths)
    {
      ok, r := true, w.(convertedPaths := []);
      ghost var all := Conversions(w.sourcePaths);
      for d := 0 to |w.sourcePaths|
        invariant Seen() == Inside(1) && r == w.(convertedPaths := r.convertedPaths) && |r.convertedPaths| == d
        invariant Deeds() == old(Deeds()) + all[..d]
      {
        ok := *;
        Emit(Effect(1, ConvertDisk(w.sourcePaths[d]), ok));
        if !ok {
          return false, r.(error := "convert");
        }
        assert all[..d + 1] == all[..d] + [all[d]];
        var path: string := *;
        r := r.(convertedPaths := r.convertedPaths + [path]);
      }
      assert all[..|all|] == all;
      ok := true;
    }

    /** Creates the target from the converted disks, on the host and storage the overrides or defaults name. */
    method ImportWorkload(env: Env, w: Workload) returns (ok: bool, r: Workload)
      requires Seen() == Inside(2)
      modifies this`trace
      ensures Preserved(2, w, r) && r.phase == w.phase && Seen() == (if ok then Inside(2) else Halted)
      ensures ok && !env.caps.importer ==> r.targetId == w.vm.id + "-target"
      ensures ok ==> Deeds() == old(Deeds()) + ImportEffects(env, w)
      ensures ok && env.caps.importer ==>
                exists host, storage ::
                  && Deeds() == old(Deeds()) + [Effect(2, CreateTarget(w.vm.id, w.convertedPaths, host, storage), true)]
                  && Placed(env.rules, env.spec, w.vm, HostOf, env.spec.defaultHost, host)
                  && Placed(env.rules, env.spec, w.vm, StorageOf, env.spec.defaultStorage, storage)
    {
      ok := true;
      var overrides, _ := MergedOverrides(env.rules, w.vm, env.spec.workloads);
      var host := if overrides.targetHost == "" then env.spec.defaultHost else overrides.targetHost;
      var storage := if overrides.targetStorage == "" then env.spec.defaultStorage else overrides.targetStorage;
      var target := w.vm.id + "-target";
      if env.caps.importer {
        ok := *;
        Emit(Effect(2, CreateTarget(w.vm.id, w.convertedPaths, host, storage), ok));
        if !ok {
          return false, w.(error := "import");
        }
        target := *;
      }
      r := w.(targetId := target);
    }

    /** Maps the interfaces, which fails exactly when one of them has no target network, and configures the target. */
    method ConfigureWorkload(env: Env, w: Workload) returns (ok: bool, r: Workload)
      requires Seen() == Inside(3)
      modifies this`trace
      ensures Preserved(3, w, r) && r.phase == w.phase && Seen() == (if ok then Inside(3) else Halted)
      ensures !Mappable(env, w) ==> !ok && trace == Then(old(trace), MappingFailed(3, w.vm.id))
      ensures Mappable(env, w) && !env.caps.configurer ==> ok
      ensures ok ==> Deeds() == old(Deeds()) + ConfigureEffects(env, w)
    {
      ok, r := true, w;
      var overrides, _ := MergedOverrides(env.rules, w.vm, env.spec.workloads);
      var networks, failures := MapAllNics(overrides.networkMap, env.networks, w.vm.nics);
      if failures > 0 {
        Emit(MappingFailed(3, w.vm.id));
        return false, w.(error := "network mapping");
      }
      if env.caps.configurer {
        ok := *;
        Emit(Effect(3, ConfigureNetworks(w.targetId, networks), ok));
        if !ok {
          r := w.(error := "configure");
        }
      }
    }

    /** Powers on and checks the target, where the connector can, if boot verification is on. */
    method VerifyWorkload(env: Env, w: Workload) returns (ok: bool, r: Workload)
      requires Seen() == Inside(4)
      modifies this`trace
      ensures Preserved(4, w, r) && r.phase == w.phase && Seen() == (if ok then Inside(4) else Halted)
      ensures ok ==> Deeds() == old(Deeds()) + VerifyEffects(env, w)
    {
      ok, r := true, w;
      if env.spec.options.verifyBoot && env.caps.targetPower {
        ok := *;
        Emit(Effect(4, PowerOn(w.targetId), ok));
      }
      if ok && env.spec.options.verifyBoot && env.caps.verifier {
        ok := *;
        Emit(Effect(4, CheckBoot(w.targetId), ok));
      }
      if !ok {
        r := w.(error := "verify");
      }
    }

    /** One workload in phase i. */
    method RunWorkload(env: Env, i: nat, w: Workload) returns (ok: bool, r: Workload)
      requires i < |PHASES| && Seen() == Inside(i)
      modifies this`trace
      ensures Preserved(i, w, r) && Seen() == (if ok then Inside(i) else Halted)
      ensures ok ==> Handled(env, i, r)
      ensures ok ==> Deeds() == old(Deeds()) + WorkloadEffects(env, i, w)
    {
      var started := w.(phase := PHASES[i]);
      WorkloadEffectsSame(env, i, i, w, started);
      match i
      case 0 => ok, r := ExportWorkload(env, started);
      case 1 => ok, r := ConvertWorkload(started);
      case 2 => ok, r := ImportWorkload(env, started);
      case 3 => ok, r := ConfigureWorkload(env, started);
      case 4 => ok, r := VerifyWorkload(env, started);
    }

    /** runExport to runVerify: every workload in order, until one fails. */
    method RunPhase(env: Env, i: nat) returns (ok: bool)
      requires i < |PHASES| && Seen() == Inside(i)
      modifies this`state, this`trace
      ensures state == old(state).(workloads := state.workloads)
      ensures PreservedAll(i, old(state.workloads), state.workloads)
      ensures Seen() == if ok then Inside(i) else Halted
      ensures ok ==> forall j :: 0 <= j < |state.workloads| ==> Handled(env, i, state.workloads[j])
      ensures ok ==> Deeds() == old(Deeds()) + PhaseEffects(env, i, old(state.workloads))
    {
      ghost var was, deeds := state, Deeds();
      ghost var done: seq<Event> := [];
      assert deeds + done == deeds;
      for k := 0 to |state.workloads|
        invariant Seen() == Inside(i) && state == was.(workloads := state.workloads)
        invariant Through(env, i, was.workloads, state.workloads, k, done) && Deeds() == deeds + done
      {
        ok, done := RunNext(env, i, k, was.workloads, deeds, done);
        if !ok {
          return;
        }
      }
      assert was.workloads[..|was.workloads|] == was.workloads;
      ok := true;
    }

    /** One iteration of a phase's loop. */
    method RunNext(env: Env, i: nat, k: nat, ghost was: seq<Workload>, ghost deeds: seq<Event>, ghost done: seq<Event>)
      returns (ok: bool, ghost next: seq<Event>)
      requires i < |PHASES| && Seen() == Inside(i) && k < |state.workloads|
      requires Through(env, i, was, state.workloads, k, done) && Deeds() == deeds + done
      modifies this`state, this`trace
      ensures state == old(state).(workloads := state.workloads) && PreservedAll(i, was, state.workloads)
      ensures Seen() == if ok then Inside(i) else Halted
      ensures ok ==> Through(env, i, was, state.workloads, k + 1, next) && Deeds() == deeds + next
    {
      var w;
      ok, w := RunWorkload(env, i, state.workloads[k]);
      next := ThroughNext(env, i, was, state.workloads, k, done, w, deeds);
      state := state.(workloads := state.workloads[k := w]);
    }

    // ---------- failState, setPhase, runExecution ----------

    /** The failed state is saved if the store lets it; the run is over either way. */
    method FailState(phase: Phase)
      requires Valid() && GoodState(state) && Covered(state, point, late) && (Seen().Quiet? || Seen().Halted?)
      requires phase == state.phase || phase !in PHASES
      modifies this`state, this`saved, this`trace, this`log
      ensures Valid() && state.phase == Failed && state.workloads == old(state.workloads)
      ensures Deeds() == old(Deeds()) && old(log) <= log
      ensures saved == Some(state) || saved == old(saved)
      ensures if old(Seen()).Halted? then Seen() == Ended(true) else Seen().Quiet? || Seen() == Ended(false)
    {
      FailedIsGood(state, phase, state.errors + 1);
      MarkingNeverCompletes(state.checkpoints, phase);
      var checkpoints := UpdateCheckpoint(state.checkpoints, phase, Unsuccessful);
      state := state.(phase := Failed, errors := state.errors + 1, checkpoints := checkpoints);
      var _ := SaveState();
    }

    /** setPhase: a failed save ends the run at once. */
    method SetPhase(i: nat) returns (ok: bool)
      requires i < |PHASES| && Running(i)
      modifies this`state, this`saved, this`trace, this`log
      ensures Valid() && Records(old(saved)) && old(log) <= log && Deeds() == old(Deeds())
      ensures state.workloads == old(state.workloads) && state.phase == PHASES[i]
      ensures CompletedUpTo(state.checkpoints, i) && GoodState(state) && !AllCompleted(state)
      ensures if ok then Seen().Ready? && Seen().next == i && saved == Some(state) else Seen() == Ended(true)
    {
      MarkPrefix(state.checkpoints, i, i, Status.Running);
      var checkpoints := UpdateCheckpoint(state.checkpoints, PHASES[i], Status.Running);
      state := state.(phase := PHASES[i], checkpoints := checkpoints);
      AtPhaseGood(state, i);
      ok := SaveState();
    }

    /** setPhase and the recovery point taken before the phase acts. */
    method BeginPhase(i: nat) returns (ok: bool)
      requires i < |PHASES| && Running(i)
      modifies this`state, this`saved, this`point, this`trace, this`log
      ensures Valid() && Records(old(saved)) && old(log) <= log && Deeds() == old(Deeds())
      ensures ok ==> state.workloads == old(state.workloads) && state.phase == PHASES[i]
      ensures ok ==> CompletedUpTo(state.checkpoints, i)
      ensures ok ==> point.Some? && Captures(point.value, state.workloads) && Seen() == Ready(i, point)
      ensures !ok ==> Seen() == Ended(true)
    {
      ok := SetPhase(i);
      if !ok {
        return;
      }
      ok := CreateRecoveryPoint();
      if !ok {
        FailState(PHASES[i]);
      }
    }

    /** The effects of one phase; the last phase leaves targets and files alone. */
    method PerformPhase(env: Env, i: nat) returns (ok: bool)
      requires i < |PHASES| && VMs(state.workloads) == roster
      requires point.Some? && Captures(point.value, state.workloads) && Seen() == Ready(i, point)
      modifies this`state, this`trace
      ensures state == old(state).(workloads := state.workloads) && VMs(state.workloads) == roster
      ensures Seen() == if ok then Inside(i) else Halted
      ensures i == |PHASES| - 1 ==> Captures(point.value, state.workloads)
      ensures PreservedAll(i, old(state.workloads), state.workloads)
      ensures ok ==> Deeds() == old(Deeds()) + PhaseEffects(env, i, state.workloads)
    {
      Emit(PhaseBegan(i, Recorded(state.workloads)));
      ghost var began := state.workloads;
      ok := RunPhase(env, i);
      PreservedVMs(i, began, state.workloads);
      PhaseEffectsSame(env, i, i, began, state.workloads);
      if i == |PHASES| - 1 {
        PreservedRecord(began, state.workloads);
      }
    }

    /** The phase succeeded: its checkpoint is completed and the state saved. */
    method EndPhase(i: nat) returns (ok: bool)
      requires Valid() && i < |PHASES| && CompletedUpTo(state.checkpoints, i) && state.phase == PHASES[i]
      requires Seen() == Inside(i) && VMs(state.workloads) == roster
      requires i == |PHASES| - 1 ==> point.Some? && Captures(point.value, state.workloads)
      modifies this`state, this`saved, this`trace, this`log
      ensures Valid() && Records(old(saved)) && old(log) <= log && Deeds() == old(Deeds())
      ensures state.workloads == old(state.workloads)
      ensures if ok then Running(i + 1) else Seen() == Ended(true)
    {
      MarkPrefix(state.checkpoints, i, i, Completed);
      var checkpoints := UpdateCheckpoint(state.checkpoints, PHASES[i], Completed);
      state := state.(checkpoints := checkpoints);
      AfterPhaseGood(state, i);
      ok := SaveState();
    }

    /** One iteration of runExecution's loop: it goes on exactly when every step of the phase succeeded. */
    method RunOnePhase(env: Env, i: nat) returns (ok: bool)
      requires i < |PHASES| && Running(i)
      modifies this`state, this`saved, this`point, this`trace, this`log
      ensures Valid() && Records(old(saved)) && old(log) <= log
      ensures if ok then Running(i + 1) else Seen() == Ended(true)
      ensures ok ==> PreservedAll(i, old(state.workloads), state.workloads)
      ensures ok ==> Deeds() == old(Deeds()) + PhaseEffects(env, i, state.workloads)
      ensures ok && i == |PHASES| - 1 ==> point.Some? && Captures(point.value, state.workloads)
    {
      ok := BeginPhase(i);
      if !ok {
        return;
      }
      ok := ActAndEnd(env, i);
    }

    /** The phase proper: a failed effect is recorded as the run's failure. */
    method ActAndEnd(env: Env, i: nat) returns (ok: bool)
      requires Valid() && i < |PHASES| && CompletedUpTo(state.checkpoints, i) && state.phase == PHASES[i]
      requires VMs(state.workloads) == roster
      requires point.Some? && Captures(point.value, state.workloads) && Seen() == Ready(i, point)
      modifies this`state, this`saved, this`trace, this`log
      ensures Valid() && Records(old(saved)) && old(log) <= log
      ensures if ok then Running(i + 1) else Seen() == Ended(true)
      ensures ok ==> PreservedAll(i, old(state.workloads), state.workloads)
      ensures ok ==> Deeds() == old(Deeds()) + PhaseEffects(env, i, state.workloads)
      ensures ok && i == |PHASES| - 1 ==> Captures(point.value, state.workloads)
    {
      ok := PerformPhase(env, i);
      AtPhaseGood(state, i);
      if !ok {
        FailState(PHASES[i]);
        return;
      }
      ok := EndPhase(i);
    }

    /** On the way from phase `start` to phase i, since `was` was on record. */
    ghost predicate Going(env: Env, start: nat, i: nat, deeds: seq<Event>, done: seq<Event>,
                          was: Option<MigrationState>, logged: set<MigrationState>)
      reads this
    {
      start <= i <= |PHASES| && Progressed(env, start, i, deeds, done) && Since(was, logged)
    }

    /** One more phase, and one more on the list of what was done. */
    method RunNextPhase(env: Env, i: nat, ghost start: nat, ghost deeds: seq<Event>, ghost done: seq<Event>,
                        ghost was: Option<MigrationState>, ghost logged: set<MigrationState>)
      returns (ok: bool, ghost next: seq<Event>)
      requires i < |PHASES| && Going(env, start, i, deeds, done, was, logged)
      modifies this`state, this`saved, this`point, this`trace, this`log
      ensures ok ==> Going(env, start, i + 1, deeds, next, was, logged)
      ensures !ok ==> Valid() && Since(was, logged) && Seen() == Ended(true)
    {
      ghost var before := state.workloads;
      next := done;
      ok := RunOnePhase(env, i);
      if ok {
        next := PhaseDone(env, start, i, before, state.workloads, deeds, done);
      }
    }

    /** The loop of runExecution. */
    method RunPhases(env: Env, start: nat, ghost deeds: seq<Event>, ghost was: Option<MigrationState>,
                     ghost logged: set<MigrationState>)
      returns (ok: bool, ghost done: seq<Event>)
      requires start < |PHASES| && Going(env, start, start, deeds, [], was, logged)
      modifies this`state, this`saved, this`point, this`trace, this`log
      ensures ok ==> Going(env, start, |PHASES|, deeds, done, was, logged)
      ensures !ok ==> Valid() && Since(was, logged) && Seen() == Ended(true)
    {
      done := [];
      for i := start to |PHASES|
        invariant Going(env, start, i, deeds, done, was, logged)
      {
        ok, done := RunNextPhase(env, i, start, deeds, done, was, logged);
        if !ok {
          return;
        }
      }
      ok := true;
    }

    /** orchestrator.go:326-328. */
    static method CompleteWorkloads(ws: seq<Workload>) returns (r: seq<Workload>)
      ensures PreservedAll(|PHASES| - 1, ws, r)
      ensures forall i :: 0 <= i < |r| ==> r[i].phase == Complete
    {
      r := ws;
      for i := 0 to |ws|
        invariant PreservedAll(|PHASES| - 1, ws, r)
        invariant forall j :: 0 <= j < i ==> r[j].phase == Complete
      {
        r := r[i := r[i].(phase := Complete)];
      }
    }

    /** The last step of a successful run. */
    method Finish(env: Env, ghost start: nat, ghost deeds: seq<Event>, ghost done: seq<Event>) returns (ok: bool)
      requires start < |PHASES| && Progressed(env, start, |PHASES|, deeds, done)
      modifies this`state, this`saved, this`trace, this`log
      ensures Valid() && Records(old(saved)) && old(log) <= log
      ensures if ok then Succeeded(env, start, deeds) else Seen() == Ended(true)
    {
      var ws := CompleteWorkloads(state.workloads);
      SameInTheEnd(env, start, state.workloads, ws);
      state := state.(phase := Complete, pendingApproval := false, workloads := ws);
      assert GoodUpTo(state, |PHASES|);
      ok := SaveState();
    }

    method RunExecution(env: Env, start: nat) returns (err: bool)
      requires start < |PHASES| && Running(start)
      modifies this`state, this`saved, this`point, this`trace, this`log
      ensures Valid() && Records(old(saved)) && old(log) <= log
      ensures if err then Seen() == Ended(true) else Succeeded(env, start, old(Deeds()))
    {
      ghost var deeds := Deeds();
      assert deeds + [] == deeds;
      var ok, done := RunPhases(env, start, deeds, saved, log);
      if ok {
        ok := Finish(env, start, deeds, done);
      }
      err := !ok;
    }

    // ---------- Execute ----------

    /**
     * Execute.  Every state persisted on the way is good and the events are accepted with the first
     * phase as their start; a dry run never gets past the gate; the list the phases work on is the
     * planned one; and success means that all five phases did what was due, and are covered.
     */
    method Execute(spec: Spec, found: Inventory, now: int)
      returns (err: bool, ghost order: seq<PlannedWorkload>, ghost discovered: bool)
      requires Valid()
      modifies this
      ensures Valid() && !Seen().Broken? && first == 0 && old(log) <= log && late == old(late)
      ensures || spec.options.dryRun || roster == []
              || (spec.options.window.notBefore != 0 && now < spec.options.window.notBefore)
              || (spec.options.window.notAfter != 0 && now > spec.options.window.notAfter)
              || (spec.options.approval.required && TrimSpace(spec.options.approval.approvedBy) == "")
              ==> !HasBegun(Seen())
      ensures !spec.options.dryRun && roster != [] && !Barred(spec.options, now) ==>
                HasBegun(Seen()) || Seen() == Ended(false)
      ensures roster != [] <==>
              discovered && Selected(rules, found.vms, spec.workloads) != [] && !Refused(rules, spec, found.vms, order)
      ensures saved == old(saved) ||
              (saved.Some? && (saved.value.workloads == [] || VMs(saved.value.workloads) == roster))
      ensures roster != [] ==> PlannedRoster(rules, spec, found.vms, order, roster)
      ensures !err && !spec.options.dryRun ==>
                && Succeeded(Env(caps, rules, spec, found.networks), 0, [])
                && DoneExactly(Env(caps, rules, spec, found.networks), 0, saved.value.workloads, Deeds())
    {
      var planned;
      planned, order, discovered := Prepare(spec, found.vms);
      err := Proceed(Env(caps, rules, spec, found.networks), planned, now);
      if !err && !spec.options.dryRun {
        RunDoneExactly(Env(caps, rules, spec, found.networks), 0, saved.value.workloads);
      }
    }

    /** With a plan the gate decides, without one the failure is recorded. */
    method Proceed(env: Env, planned: bool, now: int) returns (err: bool)
      requires Valid() && CompletedUpTo(state.checkpoints, 0) && state.phase == PlanPhase
      requires VMs(state.workloads) == roster && first == 0 && trace == Start && (!planned ==> state.workloads == [])
      modifies this`state, this`saved, this`point, this`trace, this`log
      ensures Valid() && !Seen().Broken? && old(log) <= log
      ensures env.spec.options.dryRun || Barred(env.spec.options, now) || !planned ==> !HasBegun(Seen())
      ensures !env.spec.options.dryRun && !Barred(env.spec.options, now) && planned ==>
                HasBegun(Seen()) || Seen() == Ended(false)
      ensures saved == old(saved) ||
              (saved.Some? && (saved.value.workloads == [] || VMs(saved.value.workloads) == roster))
      ensures !err && !env.spec.options.dryRun ==> Succeeded(env, 0, [])
    {
      if planned {
        err := ExecutePlanned(env, now);
      } else {
        FailPlanning();
        err := true;
      }
    }

    /** Discovery or planning failed: that is all that is recorded. */
    method FailPlanning()
      requires Valid() && CompletedUpTo(state.checkpoints, 0) && state.phase == PlanPhase
      requires trace == Start && state.workloads == []
      modifies this`state, this`saved, this`trace, this`log
      ensures Valid() && old(log) <= log && !HasBegun(Seen()) && !Seen().Broken?
      ensures saved == old(saved) || (saved.Some? && saved.value.workloads == [])
    {
      AtPhaseGood(state, 0);
      FailState(PlanPhase);
    }

    /** orchestrator.go:160-178: a new state, discovery and the plan. */
    method Prepare(spec: Spec, vms: seq<VM>)
      returns (ok: bool, ghost order: seq<PlannedWorkload>, ghost discovered: bool)
      modifies this`state, this`trace, this`first, this`roster
      ensures first == 0 && trace == Start && VMs(state.workloads) == roster
      ensures CompletedUpTo(state.checkpoints, 0) && state.phase == PlanPhase
      ensures if ok then roster != [] && PlannedRoster(rules, spec, vms, order, roster) else state.workloads == []
      ensures ok <==> discovered && Selected(rules, vms, spec.workloads) != [] && !Refused(rules, spec, vms, order)
    {
      state := NewMigrationState(spec);
      first, trace := 0, Start;
      ok, order, discovered := MakePlan(spec, vms);
      roster := VMs(state.workloads);
    }

    static method NewMigrationState(spec: Spec) returns (s: MigrationState)
      ensures s.phase == PlanPhase && s.workloads == [] && s.plan.None?
      ensures CompletedUpTo(s.checkpoints, 0) && GoodState(s) && !AllCompleted(s)
    {
      var needsApproval := spec.options.approval.required && !spec.options.approval.Approved();
      s := MigrationState(PlanPhase, [], None, InitialCheckpoints(), needsApproval, 0);
      FreshIsGood(s);
    }

    /** orchestrator.go:163-178: the workloads in the order the phases will follow, dependencies first. */
    method MakePlan(spec: Spec, vms: seq<VM>)
      returns (ok: bool, ghost order: seq<PlannedWorkload>, ghost discovered: bool)
      requires CompletedUpTo(state.checkpoints, 0) && state.phase == PlanPhase && state.workloads == []
      modifies this`state
      ensures state.phase == PlanPhase && CompletedUpTo(state.checkpoints, 0)
      ensures GoodState(state) && !AllCompleted(state)
      ensures if ok then state.workloads != [] && PlannedRoster(rules, spec, vms, order, VMs(state.workloads))
              else state.workloads == []
      ensures ok <==> discovered && Selected(rules, vms, spec.workloads) != [] && !Refused(rules, spec, vms, order)
    {
      AtPhaseGood(state, 0);
      ok := *;
      discovered := ok;
      if !ok {
        return false, [], false;
      }
      var planned;
      planned, order := PlanMigration(rules, spec, vms);
      ok := planned.Ordered?;
      if planned.NothingMatched? {
        state := state.(plan := Some(planned.plan));
        AtPhaseGood(state, 0);
      } else if planned.Ordered? {
        MarkPlanned(planned.plan, planned.workloads);
      }
    }

    method MarkPlanned(plan: Plan, ws: seq<Workload>)
      requires CompletedUpTo(state.checkpoints, 0) && state.phase == PlanPhase
      modifies this`state
      ensures CompletedUpTo(state.checkpoints, 0) && state.phase == PlanPhase && state.workloads == ws
      ensures GoodState(state) && !AllCompleted(state)
    {
      MarkOther(state.checkpoints, 0, PlanPhase, Completed);
      var checkpoints := UpdateCheckpoint(state.checkpoints, PlanPhase, Completed);
      state := state.(plan := Some(plan), workloads := ws, checkpoints := checkpoints);
      AtPhaseGood(state, 0);
    }

    /** orchestrator.go:180-202: the planned state is saved, then the gate decides. */
    method ExecutePlanned(env: Env, now: int) returns (err: bool)
      requires Valid() && CompletedUpTo(state.checkpoints, 0) && state.phase == PlanPhase
      requires VMs(state.workloads) == roster && first == 0 && trace == Start
      modifies this`state, this`saved, this`point, this`trace, this`log
      ensures Valid() && !Seen().Broken? && Records(old(saved)) && old(log) <= log
      ensures env.spec.options.dryRun || Barred(env.spec.options, now) ==> !HasBegun(Seen())
      ensures !env.spec.options.dryRun && !Barred(env.spec.options, now) ==> HasBegun(Seen()) || Seen() == Ended(false)
      ensures !err && !env.spec.options.dryRun ==> Succeeded(env, 0, [])
    {
      AtPhaseGood(state, 0);
      var ok := SaveState();
      if !ok || env.spec.options.dryRun {
        return !ok;
      }
      if !GateOpen(env.spec.options, now) {
        Block(env.spec.options.approval.required && !env.spec.options.approval.Approved());
        return true;
      }
      err := Launch(env);
    }

    /** The gate let a fresh state pass (orchestrator.go:198-202). */
    method Launch(env: Env) returns (err: bool)
      requires Valid() && saved.Some? && !AllCompleted(saved.value) && first == 0 && Seen().Quiet? && Deeds() == []
      requires CompletedUpTo(state.checkpoints, 0) && state.phase == PlanPhase && VMs(state.workloads) == roster
      modifies this`state, this`saved, this`point, this`trace, this`log
      ensures Valid() && Records(old(saved)) && old(log) <= log
      ensures if err then Seen() == Ended(true) else Succeeded(env, 0, [])
    {
      state := state.(pendingApproval := false);
      AtPhaseGood(state, 0);
      Emit(GatePassed);
      var ok := CreateRecoveryPoint();
      if !ok {
        FailState(PlanPhase);
        return true;
      }
      err := RunExecution(env, 0);
    }

    /** The gate refused: the state is saved with the reason, and nothing else happens. */
    method Block(needsApproval: bool)
      requires Valid() && GoodState(state) && Covered(state, point, late) && Seen().Quiet?
      modifies this`state, this`saved, this`trace, this`log
      ensures Valid() && (Seen().Quiet? || Seen() == Ended(false)) && old(log) <= log
      ensures state.workloads == old(state.workloads) && (saved == Some(state) || saved == old(saved))
    {
      GoodFrame(state, state.(errors := state.errors + 1, pendingApproval := needsApproval));
      state := state.(errors := state.errors + 1, pendingApproval := needsApproval);
      var _ := SaveState();
    }

    // ---------- Resume ----------

    /**
     * Resume.  The run starts at the first phase that the loaded state does not show as completed; a
     * loaded state that is complete or rolled back is left alone; the workloads are those on record,
     * or those adopted from discovery by `plan`; success means a complete state and, past the gate,
     * that the remaining phases did what was due and are covered.
     */
    method Resume(spec: Spec, found: Inventory, now: int)
      returns (err: bool, ghost plan: Plan, ghost order: seq<PlannedWorkload>, ghost reached: bool)
      requires Valid()
      modifies this
      ensures Valid() && !Seen().Broken? && old(log) <= log
      ensures || (spec.options.window.notBefore != 0 && now < spec.options.window.notBefore)
              || (spec.options.window.notAfter != 0 && now > spec.options.window.notAfter)
              || (spec.options.approval.required && TrimSpace(spec.options.approval.approvedBy) == "")
              ==> !HasBegun(Seen())
      ensures reached && old(saved).Some? && old(saved).value.phase !in {Complete, RolledBack} &&
              (old(saved).value.plan.Some? || !Refused(rules, spec, found.vms, order)) && !Barred(spec.options, now) ==>
                if AllCompleted(old(saved).value) then !err || Seen() == Ended(false) else HasBegun(Seen())
      ensures !HasBegun(Seen()) ==> point == old(point)
      ensures old(saved).None? || old(saved).value.phase in {Complete, RolledBack} ==>
                saved == old(saved) && !HasBegun(Seen())
      ensures HasBegun(Seen()) ==>
                old(saved).Some? && first < |PHASES| && CompletedUpTo(old(saved).value.checkpoints, first)
      ensures old(saved).Some? && old(saved).value.plan.Some? ==> plan == old(saved).value.plan.value
      ensures HasBegun(Seen()) ==> roster == VMs(AdoptedList(rules, spec, found.vms, old(saved).value, plan))
      ensures HasBegun(Seen()) && old(saved).value.plan.None? && old(saved).value.workloads == [] && roster != [] ==>
                PlannedRoster(rules, spec, found.vms, order, roster)
      ensures old(saved).Some? && old(saved).value.workloads != [] ==>
                saved.Some? && VMs(saved.value.workloads) == VMs(old(saved).value.workloads)
      ensures !err ==> old(saved).Some? && saved.Some? && saved.value.phase == Complete
      ensures !err && HasBegun(Seen()) ==>
                && Succeeded(Env(caps, rules, spec, found.networks), first, [])
                && DoneExactly(Env(caps, rules, spec, found.networks), first, saved.value.workloads, Deeds())
      ensures !err && !HasBegun(Seen()) && old(saved).value.phase != Complete ==>
                saved.value.workloads == AdoptedList(rules, spec, found.vms, old(saved).value, plan)
      ensures late && !old(late) ==>
                old(saved).Some? &&
                LateAdoption(old(saved).value, AdoptedList(rules, spec, found.vms, old(saved).value, plan))
    {
      first, roster, trace := 0, [], Start;
      plan, order := if saved.Some? && saved.value.plan.Some? then saved.value.plan.value else NO_PLAN, [];
      var loaded: bool := *;
      if !loaded || saved.None? {
        return true, plan, order, false;
      }
      if saved.value.phase == Complete || saved.value.phase == RolledBack {
        return saved.value.phase == RolledBack, plan, order, false;
      }
      err, plan, order, reached := ResumeLoaded(spec, found, now);
    }

    /** The loaded state is neither complete nor rolled back. */
    method ResumeLoaded(spec: Spec, found: Inventory, now: int)
      returns (err: bool, ghost plan: Plan, ghost order: seq<PlannedWorkload>, ghost reached: bool)
      requires Valid() && saved.Some? && trace == Start
      modifies this
      ensures Valid() && !Seen().Broken? && old(log) <= log
      ensures Barred(spec.options, now) ==> !HasBegun(Seen())
      ensures var was := old(saved).value;
              && (reached && (was.plan.Some? || !Refused(rules, spec, found.vms, order)) &&
                  !Barred(spec.options, now) ==>
                    if AllCompleted(was) then !err || Seen() == Ended(false) else HasBegun(Seen()))
              && (HasBegun(Seen()) ==> first < |PHASES| && CompletedUpTo(was.checkpoints, first))
              && (was.plan.Some? ==> plan == was.plan.value)
              && (was.workloads != [] ==> saved.Some? && VMs(saved.value.workloads) == VMs(was.workloads))
      ensures var list := AdoptedList(rules, spec, found.vms, old(saved).value, plan);
              && (HasBegun(Seen()) ==> roster == VMs(list))
              && (!err && !HasBegun(Seen()) ==> saved.Some? && saved.value.workloads == list)
              && (late && !old(late) ==> LateAdoption(old(saved).value, list))
      ensures HasBegun(Seen()) && old(saved).value.plan.None? && old(saved).value.workloads == [] && roster != [] ==>
                PlannedRoster(rules, spec, found.vms, order, roster)
      ensures !HasBegun(Seen()) ==> point == old(point)
      ensures !err ==> saved.Some? && saved.value.phase == Complete
      ensures !err && HasBegun(Seen()) ==>
                && Succeeded(Env(caps, rules, spec, found.networks), first, [])
                && DoneExactly(Env(caps, rules, spec, found.networks), first, saved.value.workloads, Deeds())
    {
      plan := if saved.value.plan.Some? then saved.value.plan.value else NO_PLAN;
      var planned;
      planned, order, reached := Reload(spec, found.vms);
      if !planned {
        return true, plan, order, reached;
      }
      plan := state.plan.value;
      err := ResumePlanned(Env(caps, rules, spec, found.networks), found.vms, now);
      if !err && HasBegun(Seen()) {
        RunDoneExactly(Env(caps, rules, spec, found.networks), first, saved.value.workloads);
      }
    }

    /** orchestrator.go:232-243: discovery and a plan for the loaded state; a failure is recorded and ends the call. */
    method Reload(spec: Spec, vms: seq<VM>)
      returns (ok: bool, ghost order: seq<PlannedWorkload>, ghost reached: bool)
      requires Valid() && saved.Some? && trace == Start
      modifies this`state, this`saved, this`trace, this`log
      ensures Valid() && old(log) <= log && !HasBegun(Seen()) && !Seen().Broken?
      ensures saved.Some? && saved.value.workloads == old(saved).value.workloads
      ensures ok ==> saved == old(saved) && trace == Start && state == old(saved).value.(plan := state.plan)
      ensures ok <==> reached && (old(saved).value.plan.Some? || !Refused(rules, spec, vms, order))
      ensures ok ==> state.plan.Some? && GoodState(state) && Covered(state, point, late)
      ensures ok && old(saved).value.plan.Some? ==> state.plan == old(saved).value.plan
      ensures ok && old(saved).value.plan.None? && Selected(rules, vms, spec.workloads) != [] ==>
                PlannedRoster(rules, spec, vms, order, VMs(Matched(rules, spec, vms, state.plan.value)))
    {
      state, order := saved.value, [];
      ok := *;
      reached := ok;
      if !ok {
        FailState(state.phase);
        return;
      }
      ok, order := EnsurePlan(spec, vms);
      if !ok {
        FailState(PlanPhase);
      }
    }

    /** orchestrator.go:237-243: a plan if the loaded state has none. */
    method EnsurePlan(spec: Spec, vms: seq<VM>) returns (ok: bool, ghost order: seq<PlannedWorkload>)
      requires GoodState(state)
      modifies this`state
      ensures state == old(state).(plan := state.plan) && GoodState(state)
      ensures old(state).plan.Some? ==> state == old(state)
      ensures ok <==> old(state).plan.Some? || !Refused(rules, spec, vms, order)
      ensures if ok then state.plan.Some? else state == old(state)
      ensures ok && old(state).plan.None? && Selected(rules, vms, spec.workloads) != [] ==>
                PlannedRoster(rules, spec, vms, order, VMs(Matched(rules, spec, vms, state.plan.value)))
    {
      ok, order := true, [];
      if state.plan.None? {
        var plan;
        plan, order := BuildExecutionPlan(rules, spec, vms);
        if plan.Failure? {
          return false, order;
        }
        if Selected(rules, vms, spec.workloads) != [] {
          RosterOfPlan(rules, spec, vms, plan.value, order);
        }
        GoodFrame(state, state.(plan := Some(plan.value)));
        state := state.(plan := Some(plan.value));
      }
    }

    /** orchestrator.go:244-250: workloads from discovery if there are none, checkpoints if there are none. */
    method Adopt(spec: Spec, vms: seq<VM>)
      requires GoodState(state) && Covered(state, point, late) && state.plan.Some?
      modifies this`state, this`late
      ensures GoodState(state) && Covered(state, point, late)
      ensures state.phase == old(state).phase && state.plan == old(state).plan
      ensures state.workloads == AdoptedList(rules, spec, vms, old(state), state.plan.value)
      ensures late <==> old(late) || LateAdoption(old(state), state.workloads)
      ensures forall i :: 0 <= i < |PHASES| ==>
                (IsCompleted(state.checkpoints, i) <==> IsCompleted(old(state.checkpoints), i))
    {
      ghost var k: nat :| GoodUpTo(state, k);
      if |state.workloads| == 0 {
        var unordered := BuildWorkloadMigrations(rules, vms, spec.workloads);
        var workloads := ReorderWorkloadsByPlan(unordered, state.plan.value);
        state := state.(workloads := workloads);
      }
      late := late || LateAdoption(old(state), state.workloads);
      if |state.checkpoints| == 0 {
        MarkOther(state.checkpoints, k, PlanPhase, Completed);
        var checkpoints := UpdateCheckpoint([], PlanPhase, Completed);
        state := state.(checkpoints := checkpoints);
      }
      assert GoodUpTo(state, k);
      assert forall i :: 0 <= i < |PHASES| ==>
          (IsCompleted(state.checkpoints, i) <==> IsCompleted(old(state.checkpoints), i));
      assert AllCompleted(state) ==> AllCompleted(old(state));
    }

    /** resume after the plan is known (orchestrator.go:244-273). */
    method ResumePlanned(env: Env, vms: seq<VM>, now: int) returns (err: bool)
      requires Valid() && GoodState(state) && Covered(state, point, late) && state.plan.Some? && trace == Start
      requires saved.Some? && saved.value.workloads == state.workloads && env.rules == rules
      modifies this
      ensures Valid() && !Seen().Broken? && old(log) <= log
      ensures Barred(env.spec.options, now) ==> !HasBegun(Seen())
      ensures !Barred(env.spec.options, now) ==>
                if AllCompleted(old(state)) then !err || Seen() == Ended(false) else HasBegun(Seen())
      ensures HasBegun(Seen()) ==> first < |PHASES| && CompletedUpTo(old(state.checkpoints), first)
      ensures var list := AdoptedList(rules, env.spec, vms, old(state), old(state).plan.value);
              && roster == VMs(list)
              && (!err && !HasBegun(Seen()) ==> saved.Some? && saved.value.workloads == list)
              && (late && !old(late) ==> LateAdoption(old(state), list))
      ensures Records(old(saved)) && (!HasBegun(Seen()) ==> point == old(point))
      ensures !err ==> saved.Some? && saved.value.phase == Complete
      ensures !err && HasBegun(Seen()) ==> Succeeded(env, first, [])
    {
      Adopt(env.spec, vms);
      roster := VMs(state.workloads);
      if !GateOpen(env.spec.options, now) {
        Block(env.spec.options.approval.required && !env.spec.options.approval.Approved());
        return true;
      }
      err := Relaunch(env);
    }

    /** The gate let a loaded state pass (orchestrator.go:261-273). */
    method Relaunch(env: Env) returns (err: bool)
      requires Valid() && GoodState(state) && Covered(state, point, late) && trace == Start
      requires VMs(state.workloads) == roster
      modifies this`state, this`saved, this`point, this`trace, this`log, this`first
      ensures Valid() && !Seen().Broken? && Records(old(saved)) && old(log) <= log
      ensures HasBegun(Seen()) ==> first < |PHASES| && CompletedUpTo(old(state.checkpoints), first)
      ensures !err ==> saved.Some? && saved.value.phase == Complete
      ensures !err && HasBegun(Seen()) ==> Succeeded(env, first, [])
      ensures !err && !HasBegun(Seen()) ==> saved.value.workloads == old(state.workloads)
      ensures if AllCompleted(old(state)) then !err || Seen() == Ended(false) else HasBegun(Seen())
      ensures !HasBegun(Seen()) ==> point == old(point)
    {
      state := state.(pendingApproval := false);
      var start := StartIndex();
      if start < 0 {
        err := Conclude();
      } else {
        err := Continue(env, start);
      }
    }

    /** Nothing is left to do: the state is saved as complete. */
    method Conclude() returns (err: bool)
      requires Valid() && CompletedUpTo(state.checkpoints, |PHASES|) && Covered(state, point, late) && Seen().Quiet?
      modifies this`state, this`saved, this`trace, this`log
      ensures Valid() && (Seen().Quiet? || Seen() == Ended(false)) && old(log) <= log
      ensures state == old(state).(phase := Complete)
      ensures saved == old(saved) || saved == Some(state)
      ensures if err then Seen() == Ended(false) else saved == Some(state)
    {
      state := state.(phase := Complete);
      assert GoodUpTo(state, |PHASES|);
      var ok := SaveState();
      err := !ok;
    }

    method Continue(env: Env, start: nat) returns (err: bool)
      requires Valid() && start < |PHASES| && CompletedUpTo(state.checkpoints, start)
      requires trace == Start && VMs(state.workloads) == roster
      modifies this`state, this`saved, this`point, this`trace, this`log, this`first
      ensures Valid() && first == start && Records(old(saved)) && old(log) <= log
      ensures if err then Seen() == Ended(true) else Succeeded(env, start, [])
    {
      first := start;
      Emit(GatePassed);
      err := RunExecution(env, start);
    }

    /** nextPhaseStartIndex on a good state: the length of its completed prefix. */
    method StartIndex() returns (start: int)
      requires exists k: nat :: CompletedUpTo(state.checkpoints, k)
      ensures -1 <= start < |PHASES| && CompletedUpTo(state.checkpoints, if start < 0 then |PHASES| else start)
      ensures AllCompleted(state) <==> start < 0
    {
      ghost var k: nat :| CompletedUpTo(state.checkpoints, k);
      start := NextPhaseStartIndex(state.checkpoints);
      assert start >= 0 ==> (IsCompleted(state.checkpoints, start) <==> start < k);
      assert k < |PHASES| ==> !IsCompleted(state.checkpoints, k);
    }

    // ---------- Rollback ----------

    /** Attempts the actions in order; a failure is counted and the rest still attempted. */
    method Undo(actions: seq<UndoAction>, mayBeGone: bool) returns (succeeded: nat, failed: nat)
      modifies this`undone
      ensures undone == old(undone) + actions
      ensures succeeded + failed <= |actions| && (!mayBeGone ==> succeeded + failed == |actions|)
    {
      succeeded, failed := 0, 0;
      assert undone == old(undone) + actions[..0];
      for i := 0 to |actions|
        invariant undone == old(undone) + actions[..i]
        invariant succeeded + failed <= i && (!mayBeGone ==> succeeded + failed == i)
      {
        var ok: bool, gone: bool := *, *;
        undone := undone + [actions[i]];
        assert actions[..i + 1] == actions[..i] + [actions[i]];
        if ok {
          succeeded := succeeded + 1;
        } else if !(mayBeGone && gone) {
          failed := failed + 1;
        }
      }
      assert actions[..|actions|] == actions;
    }

    /** A list of undo actions, if the connector supports them. */
    method Attempt(supported: bool, actions: seq<UndoAction>, mayBeGone: bool) returns (succeeded: nat, failed: nat)
      modifies this`undone
      ensures undone == old(undone) + if supported then actions else []
      ensures supported && !mayBeGone && failed == 0 ==> succeeded == |actions|
    {
      succeeded, failed := 0, 0;
      if supported {
        succeeded, failed := Undo(actions, mayBeGone);
      }
    }

    method UndoAll(p: RecoveryPoint) returns (result: RollbackResult)
      requires undone == []
      modifies this`undone
      ensures undone == UndoPlan(caps, p)
      ensures result.failures == 0 && caps.remover ==> result.removed == |p.targets|
      ensures result.failures == 0 && caps.sourcePower ==> result.restored == |p.sources|
    {
      var _, notOff := Attempt(caps.targetPower, PowerOffs(p.targets), false);
      var removed, notRemoved := Attempt(caps.remover, Removals(p.targets), false);
      var cleaned, notCleaned := Attempt(true, Deletions(p.files), true);
      var restored, notRestored := Attempt(caps.sourcePower, Restorations(p.sources), false);
      result := RollbackResult(removed, cleaned, restored, notOff + notRemoved + notCleaned + notRestored);
    }

    /**
     * Rollback attempts exactly the actions of the stored recovery point, in order, and marks the
     * migration rolled back if none failed and failed otherwise; the rest of the state is kept.  On
     * connectors that can, rolling back a completed migration addresses every target VM, converted
     * file and source VM of it, exactly if the point lists as many sources as there are workloads;
     * and it does unless workloads were adopted late.
     */
    method Rollback() returns (err: bool, result: RollbackResult)
      requires Valid()
      modifies this
      ensures Valid() && point == old(point) && late == old(late) && old(log) <= log
      ensures saved == old(saved) ||
              (old(saved).Some? && point.Some? && undone == UndoPlan(caps, point.value) &&
               saved == Some(old(saved).value.(
                 phase := if result.failures > 0 then Failed else RolledBack,
                 errors := old(saved).value.errors + result.failures)))
      ensures !err ==>
                && point.Some? && old(saved).Some? && undone == UndoPlan(caps, point.value) && result.failures == 0
                && saved == Some(old(saved).value.(phase := RolledBack))
                && (caps.remover ==> result.removed == |point.value.targets|)
                && (caps.sourcePower ==> result.restored == |point.value.sources|)
      ensures !err && caps.targetPower ==> PowersOffFirst(undone) && PowersOffAll(undone, point.value)
      ensures !err && AllCompleted(old(saved).value) ==> Confined(undone, saved.value.workloads)
      ensures !err && AllCompleted(old(saved).value) && caps.remover && caps.sourcePower ==>
                && (Addresses(undone, saved.value.workloads) <==> |point.value.sources| == |saved.value.workloads|)
                && (!late ==> Addresses(undone, saved.value.workloads))
    {
      undone, result := [], RollbackResult(0, 0, 0, 0);
      var loaded: bool := *;
      if !loaded || point.None? || saved.None? {
        return true, result;
      }
      result := UndoAll(point.value);
      UndoMeans(caps, saved.value, point.value, late);
      err := SaveRolledBack(result.failures);
    }

    /** rollback.go:160-181: the outcome is saved with the state. */
    method SaveRolledBack(failures: nat) returns (err: bool)
      requires Valid() && saved.Some?
      modifies this`state, this`saved, this`trace, this`log, this`first, this`roster
      ensures Valid() && old(log) <= log
      ensures state == old(saved).value.(phase := if failures > 0 then Failed else RolledBack,
                                         errors := old(saved).value.errors + failures)
      ensures saved == old(saved) || saved == Some(state)
      ensures !err ==> saved == Some(state) && failures == 0
    {
      ghost var k: nat :| GoodUpTo(saved.value, k);
      state := saved.value.(phase := if failures > 0 then Failed else RolledBack,
                            errors := saved.value.errors + failures);
      assert GoodUpTo(state, k);
      first, roster, trace := 0, [], Start;
      var ok := SaveState();
      err := !ok || failures > 0;
    }

    // ---------- Sequences of calls ----------

    /**
     * Whatever happened before: an Execute or a Resume that completes, followed by a rollback without
     * errors, addresses every target VM, converted file and source VM of the migration, on connectors
     * that can remove targets and control power; only a Resume that had nothing left to do may have
     * adopted workloads late.
     */
    method CompleteThenUndo(command: Command) returns (completed: bool, rolledBack: bool, ghost begun: bool)
      requires Valid() && !command.DoRollback?
      modifies this
      ensures Valid() && old(log) <= log
      ensures command.DoExecute? && completed ==> begun
      ensures completed && rolledBack && caps.remover && caps.sourcePower && (begun || !late) ==>
                && saved.Some? && saved.value.phase == RolledBack
                && Addresses(undone, saved.value.workloads) && (caps.targetPower ==> PowersOffFirst(undone))
      ensures completed && rolledBack ==> saved.Some? && Confined(undone, saved.value.workloads)
    {
      match command {
        case DoExecute(spec, found, now) =>
          var err, order, discovered := Execute(spec, found, now);
          completed := !err && !spec.options.dryRun;
        case DoResume(spec, found, now) =>
          var err, plan, order, reached := Resume(spec, found, now);
          completed := !err;
      }
      begun, rolledBack := HasBegun(Seen()), false;
      if completed {
        CompleteMeansAll(saved.value);
        var err, result := Rollback();
        rolledBack := !err;
      }
    }

    /** Any number of Execute, Resume and Rollback calls, in any order, with any inputs and outcomes. */
    method Drive(commands: seq<Command>)
      requires Valid()
      modifies this
      ensures Valid() && old(log) <= log
    {
      for i := 0 to |commands|
        invariant Valid() && old(log) <= log
      {
        match commands[i]
        case DoExecute(spec, found, now) => var _, _, _ := Execute(spec, found, now);
        case DoResume(spec, found, now) => var _, _, _, _ := Resume(spec, found, now);
        case DoRollback => var _, _ := Rollback();
      }
    }
  }

  // ---------- Late adoption happens ----------

  function DoneCheckpoints(): seq<Checkpoint> {
    [Checkpoint(PlanPhase, Completed), Checkpoint(Export, Completed), Checkpoint(Convert, Completed),
     Checkpoint(Import, Completed), Checkpoint(Configure, Completed), Checkpoint(Verify, Completed)]
  }

  lemma {:induction false} DoneIsCompleted()
    ensures CompletedUpTo(DoneCheckpoints(), |PHASES|)
  {
    var cs := DoneCheckpoints();
    assert cs[1..][1..] == cs[2..] && cs[2..][1..] == cs[3..] && cs[3..][1..] == cs[4..] && cs[4..][1..] == cs[5..];
  }

  /** A migration that ran through all phases without workloads and stopped before it was marked complete. */
  function CompletedEmpty(): MigrationState {
    MigrationState(Verify, [], Some(NO_PLAN), DoneCheckpoints(), false, 0)
  }

  /**
   * The exception is real: resuming such a migration when the selectors have come to match a VM saves
   * it as complete with a workload that no recovery point lists.
   */
  method LateMatchUncovered(caps: Capabilities, rules: TextRules, vm: VM, spec: Spec, now: int)
    returns (m: Migration, err: bool)
    requires !Barred(spec.options, now) && MatchesAny(rules, vm, spec.workloads)
    ensures !err ==> m.saved.Some? && m.saved.value.phase == Complete && VMs(m.saved.value.workloads) == [vm]
    ensures !err ==> m.point.Some? && !Captures(m.point.value, m.saved.value.workloads)
  {
    var s, p := CompletedEmpty(), RecoveryPoint(Verify, [], [], []);
    EmptyIsGood();
    m := new Migration.Stored(caps, rules, s, p);
    var failed, plan, order, reached := m.Resume(spec, Inventory([vm], []), now);
    err := failed;
    OnlyMatch(rules, vm, spec);
  }

  lemma {:induction false} EmptyIsGood()
    ensures GoodState(CompletedEmpty()) && Covered(CompletedEmpty(), Some(RecoveryPoint(Verify, [], [], [])), false)
    ensures forall k: nat :: k < |PHASES| ==> !CompletedUpTo(CompletedEmpty().checkpoints, k)
  {
    DoneIsCompleted();
    assert VMs([]) == [];
    assert GoodUpTo(CompletedEmpty(), |PHASES|);
    forall k: nat | k < |PHASES| ensures !CompletedUpTo(DoneCheckpoints(), k) {
      assert IsCompleted(DoneCheckpoints(), k);
    }
  }

  lemma {:induction false} OnlyMatch(rules: TextRules, vm: VM, spec: Spec)
    requires MatchesAny(rules, vm, spec.workloads)
    ensures VMs(AdoptedList(rules, spec, [vm], CompletedEmpty(), NO_PLAN)) == [vm]
  {
    assert [vm][..0] == [];
    assert Selected(rules, [], spec.workloads) == [];
    assert Selected(rules, [vm], spec.workloads) == [vm];
  }
}
