/**
 * What one Execute or Resume does to the outside world, as a sequence of events, and an observer
 * that accepts exactly the sequences the orchestrator may produce.
 */
module RunTrace {
  import opened Collections
  import opened MigrationTypes
  import opened Checkpoints

  datatype SourceRecovery = SourceRecovery(vm: VM, originalPower: string, snapshot: string)

  datatype RecoveryPoint = RecoveryPoint(
    phase: Phase, sources: seq<SourceRecovery>, targets: seq<string>, files: seq<string>)

  /** The target VM identifiers recorded in the workloads. */
  function TargetIds(ws: seq<Workload>): seq<string> {
    if ws == [] then []
    else TargetIds(ws[..|ws| - 1]) + if ws[|ws| - 1].targetId == "" then [] else [ws[|ws| - 1].targetId]
  }

  function ConvertedFiles(ws: seq<Workload>): seq<string> {
    if ws == [] then [] else ConvertedFiles(ws[..|ws| - 1]) + ws[|ws| - 1].convertedPaths
  }

  /** The sources are exactly these VMs with the power state they had when they were planned. */
  predicate CapturesSources(sources: seq<SourceRecovery>, vms: seq<VM>) {
    |sources| == |vms| &&
    forall i :: 0 <= i < |vms| ==> sources[i].vm == vms[i] && sources[i].originalPower == vms[i].powerState
  }

  /** What the workloads have on record: their VMs, target VMs and converted files. */
  datatype Record = Record(vms: seq<VM>, targets: seq<string>, files: seq<string>)

  function Recorded(ws: seq<Workload>): Record {
    Record(VMs(ws), TargetIds(ws), ConvertedFiles(ws))
  }

  predicate Lists(p: RecoveryPoint, r: Record) {
    CapturesSources(p.sources, r.vms) && p.targets == r.targets && p.files == r.files
  }

  /** The point lists exactly what the workloads have recorded. */
  predicate Captures(p: RecoveryPoint, ws: seq<Workload>) {
    Lists(p, Recorded(ws))
  }

  // ---------- Events ----------

  /** A call that changes something outside. */
  datatype Deed =
    | PowerOff(vmId: string)
    | ExportDisks(vmId: string)
    | ConvertDisk(path: string)
    | CreateTarget(vmId: string, disks: seq<string>, host: string, storage: string)
    | ConfigureNetworks(target: string, networks: seq<Network>)
    | PowerOn(target: string)
    | CheckBoot(target: string)

  /** Saves and deeds are attempts; `ok` is what the orchestrator was told. */
  datatype Event =
    | Saved(state: MigrationState, ok: bool)
    | PointSaved(point: RecoveryPoint, ok: bool)
    | GatePassed
    | Snapshot(vmId: string, ok: bool)
    | PhaseBegan(index: nat, record: Record)
    | Effect(index: nat, deed: Deed, ok: bool)
    | MappingFailed(index: nat, vmId: string)

  predicate Acts(e: Event) {
    e.PointSaved? || e.Snapshot? || e.PhaseBegan? || e.Effect? || e.MappingFailed?
  }

  predicate Fails(e: Event) {
    match e
    case Saved(_, ok) => !ok
    case PointSaved(_, ok) => !ok
    case Snapshot(_, ok) => !ok
    case Effect(_, _, ok) => !ok
    case MappingFailed(_, _) => true
    case _ => false
  }

  /**
   * Quiet until the gate; then ready for a phase or inside one.  A failure halts the run, which may
   * then save its failed state once; after that, or after a failed save, it has ended.
   */
  datatype Observer =
    | Quiet
    | Ready(next: nat, point: Option<RecoveryPoint>)
    | Inside(index: nat)
    | Halted
    | Ended(begun: bool)
    | Broken

  /** The gate was passed. */
  predicate HasBegun(o: Observer) {
    o.Ready? || o.Inside? || o.Halted? || (o.Ended? && o.begun)
  }

  predicate MaySave(o: Observer) {
    o.Quiet? || o.Ready? || o.Inside? || o.Halted?
  }

  function AfterSave(o: Observer, ok: bool): Observer {
    match o
    case Quiet => if ok then Quiet else Ended(false)
    case Ready(_, _) => if ok then o else Ended(true)
    case Inside(i) => if ok then Ready(i + 1, None) else Ended(true)
    case Halted => Ended(true)
    case _ => Broken
  }

  /** `first` is the phase to start with and `roster` the VMs as they were planned. */
  function Observe(first: nat, roster: seq<VM>, o: Observer, e: Event): Observer {
    match e
    case Saved(_, ok) => AfterSave(o, ok)
    case GatePassed => if o.Quiet? then Ready(first, None) else Broken
    case Snapshot(_, ok) => if !o.Ready? then Broken else if ok then o else Halted
    case PointSaved(p, ok) => if !o.Ready? then Broken else if ok then o.(point := Some(p)) else Halted
    case PhaseBegan(i, record) => if MayBegin(roster, o, i, record) then Inside(i) else Broken
    case Effect(i, _, ok) => if o != Inside(i) then Broken else if ok then o else Halted
    case MappingFailed(i, _) => if o != Inside(i) then Broken else Halted
  }

  predicate MayBegin(roster: seq<VM>, o: Observer, i: nat, record: Record) {
    && o.Ready? && i == o.next && i < |PHASES|
    && record.vms == roster && o.point.Some? && Lists(o.point.value, record)
  }

  function ObserveAll(first: nat, roster: seq<VM>, run: seq<Event>): Observer {
    if run == [] then Quiet else Observe(first, roster, ObserveAll(first, roster, run[..|run| - 1]), run[|run| - 1])
  }

  // ---------- A run as it grows ----------

  datatype Trace = Start | Then(before: Trace, event: Event)

  function EventsOf(t: Trace): seq<Event> {
    match t
    case Start => []
    case Then(before, e) => EventsOf(before) + [e]
  }

  function SeenOf(first: nat, roster: seq<VM>, t: Trace): Observer {
    match t
    case Start => Quiet
    case Then(before, e) => Observe(first, roster, SeenOf(first, roster, before), e)
  }

  /** Observing a run as it grows is observing its events. */
  lemma {:induction false} SeenIsObserved(first: nat, roster: seq<VM>, t: Trace)
    ensures SeenOf(first, roster, t) == ObserveAll(first, roster, EventsOf(t))
  {
    match t
    case Start =>
    case Then(before, e) =>
      SeenIsObserved(first, roster, before);
  }

  // ---------- What acceptance means ----------

  lemma {:induction false} AcceptedPrefix(first: nat, roster: seq<VM>, run: seq<Event>, n: nat)
    requires !ObserveAll(first, roster, run).Broken? && n <= |run|
    ensures !ObserveAll(first, roster, run[..n]).Broken?
    decreases |run|
  {
    if n < |run| {
      var init := run[..|run| - 1];
      AcceptedPrefix(first, roster, init, n);
      assert init[..n] == run[..n];
    } else {
      assert run[..n] == run;
    }
  }

  /** The observer's state just before event t, when the run is accepted. */
  lemma {:induction false} AcceptedStep(first: nat, roster: seq<VM>, run: seq<Event>, t: nat)
    requires !ObserveAll(first, roster, run).Broken? && t < |run|
    ensures var before, after := ObserveAll(first, roster, run[..t]), ObserveAll(first, roster, run[..t + 1]);
            !before.Broken? && !after.Broken? && after == Observe(first, roster, before, run[t])
  {
    AcceptedPrefix(first, roster, run, t);
    AcceptedPrefix(first, roster, run, t + 1);
    assert run[..t + 1] == run[..t] + [run[t]];
  }

  /** A run has begun exactly when the gate event is in it. */
  lemma {:induction false} BegunMeansGate(first: nat, roster: seq<VM>, run: seq<Event>)
    requires !ObserveAll(first, roster, run).Broken?
    ensures HasBegun(ObserveAll(first, roster, run)) <==> exists g :: 0 <= g < |run| && run[g].GatePassed?
  {
    if run != [] {
      var n := |run| - 1;
      AcceptedPrefix(first, roster, run, n);
      BegunMeansGate(first, roster, run[..n]);
      assert forall i :: 0 <= i < n ==> run[..n][i] == run[i];
      StepBegins(first, roster, ObserveAll(first, roster, run[..n]), run[n]);
    }
  }

  lemma {:induction false} StepBegins(first: nat, roster: seq<VM>, o: Observer, e: Event)
    requires !o.Broken? && !Observe(first, roster, o, e).Broken?
    ensures HasBegun(Observe(first, roster, o, e)) <==> HasBegun(o) || e.GatePassed?
    ensures Acts(e) ==> HasBegun(o)
  {
  }

  /** No snapshot, recovery point, phase or effect comes before the approval and window gate has passed. */
  lemma {:induction false} GateComesFirst(first: nat, roster: seq<VM>, run: seq<Event>, t: nat)
    requires !ObserveAll(first, roster, run).Broken? && t < |run| && Acts(run[t])
    ensures exists g :: 0 <= g < t && run[g].GatePassed?
  {
    AcceptedStep(first, roster, run, t);
    StepBegins(first, roster, ObserveAll(first, roster, run[..t]), run[t]);
    BegunMeansGate(first, roster, run[..t]);
    var g :| 0 <= g < t && run[..t][g].GatePassed?;
    assert run[g].GatePassed?;
  }

  /** The phases a run begins, in order. */
  function Begun(run: seq<Event>): seq<nat> {
    if run == [] then []
    else Begun(run[..|run| - 1]) + if run[|run| - 1].PhaseBegan? then [run[|run| - 1].index] else []
  }

  function Consecutive(first: nat, n: nat): seq<nat> {
    if n == 0 then [] else Consecutive(first, n - 1) + [first + n - 1]
  }

  /** How far the observer and the phases begun so far agree. */
  ghost predicate InStep(first: nat, o: Observer, begun: seq<nat>) {
    && begun == Consecutive(first, |begun|)
    && (o.Ready? ==> o.next == first + |begun|)
    && (o.Inside? ==> begun != [] && o.index + 1 == first + |begun| && o.index < |PHASES|)
    && (o.Quiet? ==> begun == [])
  }

  lemma {:induction false} StaysInStep(first: nat, roster: seq<VM>, o: Observer, begun: seq<nat>, e: Event)
    requires InStep(first, o, begun) && !Observe(first, roster, o, e).Broken?
    ensures InStep(first, Observe(first, roster, o, e), begun + if e.PhaseBegan? then [e.index] else [])
  {
    if e.PhaseBegan? {
      assert e.index == first + |begun|;
    } else {
      assert begun + [] == begun;
    }
  }

  /** The phases form one contiguous ordered block that starts at `first`. */
  lemma {:induction false} PhasesAreConsecutive(first: nat, roster: seq<VM>, run: seq<Event>)
    requires !ObserveAll(first, roster, run).Broken?
    ensures InStep(first, ObserveAll(first, roster, run), Begun(run))
  {
    if run != [] {
      var n := |run| - 1;
      AcceptedPrefix(first, roster, run, n);
      PhasesAreConsecutive(first, roster, run[..n]);
      StaysInStep(first, roster, ObserveAll(first, roster, run[..n]), Begun(run[..n]), run[n]);
    }
  }

  lemma {:induction false} ConsecutiveLast(first: nat, n: nat)
    requires n > 0
    ensures |Consecutive(first, n)| == n && Consecutive(first, n)[n - 1] == first + n - 1
  {
    if n > 1 {
      ConsecutiveLast(first, n - 1);
    }
  }

  /** An effect belongs to the phase begun last, which is never before `first`. */
  lemma {:induction false} EffectInCurrentPhase(first: nat, roster: seq<VM>, run: seq<Event>, t: nat)
    requires !ObserveAll(first, roster, run).Broken? && t < |run| && run[t].Effect?
    ensures Begun(run[..t]) != [] && run[t].index == Begun(run[..t])[|Begun(run[..t])| - 1] && first <= run[t].index
  {
    AcceptedStep(first, roster, run, t);
    PhasesAreConsecutive(first, roster, run[..t]);
    ConsecutiveLast(first, |Begun(run[..t])|);
  }

  /** A run never touches a phase that the state it started from shows as completed. */
  lemma {:induction false} CompletedPhasesSpared(first: nat, roster: seq<VM>, run: seq<Event>,
      loaded: seq<Checkpoint>, t: nat)
    requires !ObserveAll(first, roster, run).Broken? && CompletedUpTo(loaded, first)
    requires t < |run| && (run[t].Effect? || run[t].PhaseBegan?)
    ensures run[t].index < |PHASES| && !IsCompleted(loaded, run[t].index)
  {
    AcceptedStep(first, roster, run, t);
    PhasesAreConsecutive(first, roster, run[..t]);
  }

  /**
   * A run stops at its first failure, whatever failed: at most one more event follows, the saving of
   * the failed state, and after a failed save nothing at all.
   */
  lemma {:induction false} FailureStops(first: nat, roster: seq<VM>, run: seq<Event>, t: nat)
    requires !ObserveAll(first, roster, run).Broken? && t < |run| && Fails(run[t])
    ensures |run| <= t + 2
    ensures |run| == t + 2 ==> run[t + 1].Saved? && !run[t].Saved?
  {
    AcceptedStep(first, roster, run, t);
    FailureHalts(first, roster, ObserveAll(first, roster, run[..t]), run[t]);
    if t + 1 < |run| {
      AcceptedStep(first, roster, run, t + 1);
      LastWords(first, roster, ObserveAll(first, roster, run[..t + 1]), run[t + 1]);
      if t + 2 < |run| {
        AcceptedStep(first, roster, run, t + 2);
        EndedIsFinal(first, roster, ObserveAll(first, roster, run[..t + 2]), run[t + 2]);
      }
    }
  }

  lemma {:induction false} FailureHalts(first: nat, roster: seq<VM>, o: Observer, e: Event)
    requires Fails(e) && !Observe(first, roster, o, e).Broken?
    ensures if e.Saved? then Observe(first, roster, o, e).Ended? else Observe(first, roster, o, e) == Halted
  {
  }

  lemma {:induction false} LastWords(first: nat, roster: seq<VM>, o: Observer, e: Event)
    requires (o.Halted? || o.Ended?) && !Observe(first, roster, o, e).Broken?
    ensures o.Halted? && e.Saved? && Observe(first, roster, o, e).Ended?
  {
  }

  lemma {:induction false} EndedIsFinal(first: nat, roster: seq<VM>, o: Observer, e: Event)
    requires o.Ended?
    ensures Observe(first, roster, o, e).Broken?
  {
  }

  /** The recovery point on record: the one saved last. */
  function LastPoint(run: seq<Event>): Option<RecoveryPoint> {
    if run == [] then None
    else if run[|run| - 1].PointSaved? && run[|run| - 1].ok then Some(run[|run| - 1].point)
    else LastPoint(run[..|run| - 1])
  }

  lemma {:induction false} ReadyPointIsLast(first: nat, roster: seq<VM>, run: seq<Event>)
    requires !ObserveAll(first, roster, run).Broken?
    ensures ObserveAll(first, roster, run).Ready? && ObserveAll(first, roster, run).point.Some? ==>
              LastPoint(run) == ObserveAll(first, roster, run).point
  {
    if run != [] {
      AcceptedPrefix(first, roster, run, |run| - 1);
      ReadyPointIsLast(first, roster, run[..|run| - 1]);
    }
  }

  /**
   * When a phase begins, the recovery point saved last lists exactly what is recorded at that
   * moment, and for every source VM the power state it had when it was planned.
   */
  lemma {:induction false} PointIsCurrent(first: nat, roster: seq<VM>, run: seq<Event>, t: nat)
    requires !ObserveAll(first, roster, run).Broken? && t < |run| && run[t].PhaseBegan?
    ensures LastPoint(run[..t]).Some? && Lists(LastPoint(run[..t]).value, run[t].record)
    ensures CapturesSources(LastPoint(run[..t]).value.sources, roster)
  {
    AcceptedStep(first, roster, run, t);
    ReadyPointIsLast(first, roster, run[..t]);
  }
}
