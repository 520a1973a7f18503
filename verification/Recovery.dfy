/** Recovery points, what they cover, and what a rollback attempts (rollback.go). */
module Recovery {
  import opened Collections
  import opened MigrationTypes
  import opened Checkpoints
  import opened RunTrace
  import opened Effects

  lemma {:induction false} CaptureNext(ws: seq<Workload>, i: nat)
    requires i < |ws|
    ensures VMs(ws)[..i + 1] == VMs(ws)[..i] + [ws[i].vm]
    ensures TargetIds(ws[..i + 1]) ==
            if ws[i].targetId == "" then TargetIds(ws[..i]) else TargetIds(ws[..i]) + [ws[i].targetId]
    ensures ConvertedFiles(ws[..i + 1]) == ConvertedFiles(ws[..i]) + ws[i].convertedPaths
  {
    assert ws[..i + 1][..i] == ws[..i];
  }

  // ---------- Coverage ----------

  /**
   * The recovery point on record of a fully completed state lists what the state has recorded.
   * `late` says that a Resume has adopted workloads into a state completed without any; only then
   * may the point be the empty one instead.
   */
  ghost predicate Covered(s: MigrationState, point: Option<RecoveryPoint>, late: bool) {
    AllCompleted(s) ==>
      point.Some? && (Captures(point.value, s.workloads) || (late && Captures(point.value, [])))
  }

  /** Which of the two it is shows in the number of sources the point lists. */
  lemma {:induction false} CoveredExactly(s: MigrationState, p: RecoveryPoint, late: bool)
    requires AllCompleted(s) && Covered(s, Some(p), late)
    ensures Captures(p, s.workloads) <==> |p.sources| == |s.workloads|
  {
    if |p.sources| == 0 == |s.workloads| {
      assert s.workloads == [];
    }
  }

  // ---------- Rollback ----------

  datatype UndoAction =
    | PowerOffTarget(id: string)
    | RemoveTarget(id: string)
    | DeleteFile(path: string)
    | RestorePower(vmId: string, power: string)

  function PowerOffs(targets: seq<string>): (r: seq<UndoAction>)
    ensures |r| == |targets| && forall i :: 0 <= i < |r| ==> r[i] == PowerOffTarget(targets[i])
  {
    seq(|targets|, i requires 0 <= i < |targets| => PowerOffTarget(targets[i]))
  }

  function Removals(targets: seq<string>): (r: seq<UndoAction>)
    ensures |r| == |targets| && forall i :: 0 <= i < |r| ==> r[i] == RemoveTarget(targets[i])
  {
    seq(|targets|, i requires 0 <= i < |targets| => RemoveTarget(targets[i]))
  }

  function Deletions(files: seq<string>): (r: seq<UndoAction>)
    ensures |r| == |files| && forall i :: 0 <= i < |r| ==> r[i] == DeleteFile(files[i])
  {
    seq(|files|, i requires 0 <= i < |files| => DeleteFile(files[i]))
  }

  function Restorations(sources: seq<SourceRecovery>): (r: seq<UndoAction>)
    ensures |r| == |sources|
    ensures forall i :: 0 <= i < |r| ==> r[i] == RestorePower(sources[i].vm.id, sources[i].originalPower)
  {
    seq(|sources|, i requires 0 <= i < |sources| => RestorePower(sources[i].vm.id, sources[i].originalPower))
  }

  /** Everything a rollback attempts, in order, whether or not single actions fail. */
  function UndoPlan(caps: Capabilities, p: RecoveryPoint): seq<UndoAction> {
    (if caps.targetPower then PowerOffs(p.targets) else []) +
    (if caps.remover then Removals(p.targets) else []) +
    Deletions(p.files) +
    if caps.sourcePower then Restorations(p.sources) else []
  }

  /** Every target VM, every converted file and every source VM of the workloads is among the actions. */
  ghost predicate Addresses(actions: seq<UndoAction>, ws: seq<Workload>) {
    forall w :: w in ws ==>
      && (w.targetId != "" ==> RemoveTarget(w.targetId) in actions)
      && (forall f :: f in w.convertedPaths ==> DeleteFile(f) in actions)
      && RestorePower(w.vm.id, w.vm.powerState) in actions
  }

  /** Every action concerns a target VM, a converted file or a source VM of the workloads. */
  ghost predicate Confined(actions: seq<UndoAction>, ws: seq<Workload>) {
    forall a :: a in actions ==> Concerns(a, ws)
  }

  ghost predicate Concerns(a: UndoAction, ws: seq<Workload>) {
    match a
    case PowerOffTarget(id) => exists w :: w in ws && w.targetId == id != ""
    case RemoveTarget(id) => exists w :: w in ws && w.targetId == id != ""
    case DeleteFile(path) => exists w :: w in ws && path in w.convertedPaths
    case RestorePower(vmId, power) => exists w :: w in ws && w.vm.id == vmId && w.vm.powerState == power
  }

  /** A target VM is removed only after it was powered off. */
  ghost predicate PowersOffFirst(actions: seq<UndoAction>) {
    forall j :: 0 <= j < |actions| && actions[j].RemoveTarget? ==> OffBefore(actions, j, actions[j].id)
  }

  ghost predicate PowersOffAll(actions: seq<UndoAction>, p: RecoveryPoint) {
    forall id :: id in p.targets ==> PowerOffTarget(id) in actions
  }

  ghost predicate OffBefore(actions: seq<UndoAction>, j: nat, id: string) {
    exists i :: 0 <= i < j && i < |actions| && actions[i] == PowerOffTarget(id)
  }

  lemma {:induction false} OffThenRemoved(caps: Capabilities, p: RecoveryPoint)
    requires caps.targetPower
    ensures PowersOffFirst(UndoPlan(caps, p))
    ensures PowersOffAll(UndoPlan(caps, p), p)
  {
    var plan, offs, n := UndoPlan(caps, p), PowerOffs(p.targets), |p.targets|;
    assert forall i :: 0 <= i < n ==> plan[i] == offs[i] == PowerOffTarget(p.targets[i]);
    forall j | 0 <= j < |plan| && plan[j].RemoveTarget? ensures OffBefore(plan, j, plan[j].id) {
      assert plan[j] == Removals(p.targets)[j - n];
      assert plan[j - n] == PowerOffTarget(plan[j].id);
    }
  }

  /** The target identifiers and files on record are those of the workloads. */
  lemma {:induction false} RecordedMembers(ws: seq<Workload>)
    ensures forall id :: id in TargetIds(ws) <==> exists w :: w in ws && w.targetId == id != ""
    ensures forall f :: f in ConvertedFiles(ws) <==> exists w :: w in ws && f in w.convertedPaths
  {
    if ws != [] {
      var init, last := ws[..|ws| - 1], ws[|ws| - 1];
      RecordedMembers(init);
      assert ws == init + [last];
    }
  }

  /** Rolling back to a capturing point concerns what the workloads have on record and nothing else. */
  lemma {:induction false} CapturedIsConfined(caps: Capabilities, p: RecoveryPoint, ws: seq<Workload>)
    requires Captures(p, ws)
    ensures Confined(UndoPlan(caps, p), ws)
  {
    RecordedMembers(ws);
    forall a | a in UndoPlan(caps, p) ensures Concerns(a, ws) {
      UndoMembers(caps, p, a);
      if a.RestorePower? {
        var i :| 0 <= i < |p.sources| && a == RestorePower(p.sources[i].vm.id, p.sources[i].originalPower);
        assert ws[i] in ws && VMs(ws)[i] == ws[i].vm;
      }
    }
  }

  lemma {:induction false} UndoMembers(caps: Capabilities, p: RecoveryPoint, a: UndoAction)
    requires a in UndoPlan(caps, p)
    ensures a.PowerOffTarget? || a.RemoveTarget? ==> a.id in p.targets
    ensures a.DeleteFile? ==> a.path in p.files
    ensures a.RestorePower? ==>
              exists i :: 0 <= i < |p.sources| && a == RestorePower(p.sources[i].vm.id, p.sources[i].originalPower)
  {
    assert a in PowerOffs(p.targets) || a in Removals(p.targets) || a in Deletions(p.files)
        || a in Restorations(p.sources);
  }

  /** On connectors that can remove targets and control power, rolling back to a capturing point addresses all. */
  lemma {:induction false} CapturedIsAddressed(caps: Capabilities, p: RecoveryPoint, ws: seq<Workload>)
    requires Captures(p, ws) && caps.remover && caps.sourcePower
    ensures Addresses(UndoPlan(caps, p), ws)
  {
    var plan := UndoPlan(caps, p);
    RecordedMembers(ws);
    forall id | id in TargetIds(ws) ensures RemoveTarget(id) in plan {
      var i :| 0 <= i < |p.targets| && p.targets[i] == id;
      assert Removals(p.targets)[i] == RemoveTarget(id);
    }
    forall f | f in ConvertedFiles(ws) ensures DeleteFile(f) in plan {
      var i :| 0 <= i < |p.files| && p.files[i] == f;
      assert Deletions(p.files)[i] == DeleteFile(f);
    }
    forall w | w in ws ensures RestorePower(w.vm.id, w.vm.powerState) in plan {
      var i :| 0 <= i < |ws| && ws[i] == w;
      assert VMs(ws)[i] == w.vm;
      assert Restorations(p.sources)[i] == RestorePower(w.vm.id, w.vm.powerState);
    }
  }

  /** Rolling back a completed state addresses all of it exactly when its point lists as many sources as workloads. */
  lemma {:induction false} AddressedExactly(caps: Capabilities, s: MigrationState, p: RecoveryPoint, late: bool)
    requires AllCompleted(s) && Covered(s, Some(p), late)
    ensures caps.remover && caps.sourcePower ==>
              (Addresses(UndoPlan(caps, p), s.workloads) <==> |p.sources| == |s.workloads|)
    ensures Confined(UndoPlan(caps, p), s.workloads)
  {
    CoveredExactly(s, p, late);
    if Captures(p, s.workloads) {
      CapturedIsConfined(caps, p, s.workloads);
      if caps.remover && caps.sourcePower {
        CapturedIsAddressed(caps, p, s.workloads);
      }
    } else {
      assert p.sources == [] && p.targets == [] && p.files == [];
      assert UndoPlan(caps, p) == [];
      assert s.workloads[0] in s.workloads;
    }
  }

  /** What a rollback of a state to its point amounts to. */
  lemma {:induction false} UndoMeans(caps: Capabilities, s: MigrationState, p: RecoveryPoint, late: bool)
    requires Covered(s, Some(p), late)
    ensures var plan := UndoPlan(caps, p);
            && (caps.targetPower ==> PowersOffFirst(plan) && PowersOffAll(plan, p))
            && (AllCompleted(s) ==> Confined(plan, s.workloads))
            && (AllCompleted(s) && caps.remover && caps.sourcePower ==>
                  && (Addresses(plan, s.workloads) <==> |p.sources| == |s.workloads|)
                  && (!late ==> Addresses(plan, s.workloads)))
  {
    if caps.targetPower {
      OffThenRemoved(caps, p);
    }
    if AllCompleted(s) {
      AddressedExactly(caps, s, p, late);
      CoveredExactly(s, p, late);
    }
  }
}
