/** Checkpoint bookkeeping (plan.go:245-329) and the persisted migration state. */
module Checkpoints {
  import opened Collections
  import opened MigrationTypes

  datatype Status = Pending | Running | Completed | Unsuccessful

  datatype Checkpoint = Checkpoint(phase: Phase, status: Status)

  /** The phases with effects, in execution order. */
  const PHASES: seq<Phase> := [Export, Convert, Import, Configure, Verify]

  datatype MigrationState = MigrationState(
    phase: Phase, workloads: seq<Workload>, plan: Option<Plan>, checkpoints: seq<Checkpoint>,
    pendingApproval: bool, errors: nat)

  function InitialCheckpoints(): seq<Checkpoint> {
    [Checkpoint(PlanPhase, Pending), Checkpoint(Export, Pending), Checkpoint(Convert, Pending),
     Checkpoint(Import, Pending), Checkpoint(Configure, Pending), Checkpoint(Verify, Pending)]
  }

  /** The status of the first checkpoint of a phase; pending if there is none. */
  function StatusOf(cs: seq<Checkpoint>, phase: Phase): Status {
    if cs == [] then Pending
    else if cs[0].phase == phase then cs[0].status
    else StatusOf(cs[1..], phase)
  }

  /** updateCheckpoint: the first checkpoint of the phase, or a new one at the end. */
  function SetStatus(cs: seq<Checkpoint>, phase: Phase, status: Status): seq<Checkpoint> {
    if cs == [] then [Checkpoint(phase, status)]
    else if cs[0].phase == phase then [Checkpoint(phase, status)] + cs[1..]
    else [cs[0]] + SetStatus(cs[1..], phase, status)
  }

  function Mark(cs: seq<Checkpoint>, phase: Phase, status: Status): seq<Checkpoint> {
    SetStatus(if cs == [] then InitialCheckpoints() else cs, phase, status)
  }

  method UpdateCheckpoint(cs: seq<Checkpoint>, phase: Phase, status: Status) returns (r: seq<Checkpoint>)
    ensures r == Mark(cs, phase, status)
  {
    var start := if |cs| == 0 then InitialCheckpoints() else cs;
    r := start;
    var i := 0;
    while i < |r|
      invariant 0 <= i <= |r| && r == start
      invariant SetStatus(start, phase, status) == start[..i] + SetStatus(start[i..], phase, status)
    {
      SetStatusAt(start, phase, status, i);
      if r[i].phase == phase {
        r := r[i := Checkpoint(phase, status)];
        return;
      }
      i := i + 1;
    }
    r := r + [Checkpoint(phase, status)];
  }

  lemma {:induction false} SetStatusAt(cs: seq<Checkpoint>, phase: Phase, status: Status, i: nat)
    requires i < |cs|
    ensures cs[i].phase == phase ==>
              cs[..i] + SetStatus(cs[i..], phase, status) == cs[i := Checkpoint(phase, status)]
    ensures cs[i].phase != phase ==>
              cs[..i] + SetStatus(cs[i..], phase, status) == cs[..i + 1] + SetStatus(cs[i + 1..], phase, status)
  {
    assert cs[i..][1..] == cs[i + 1..];
    assert cs[..i + 1] == cs[..i] + [cs[i]];
  }

  /** Marking a phase changes that phase's status and no other. */
  lemma {:induction false} SetStatusReads(cs: seq<Checkpoint>, phase: Phase, status: Status, other: Phase)
    ensures StatusOf(SetStatus(cs, phase, status), other) == if other == phase then status else StatusOf(cs, other)
    ensures SetStatus(cs, phase, status) != []
  {
    if cs != [] && cs[0].phase != phase {
      SetStatusReads(cs[1..], phase, status, other);
      assert ([cs[0]] + SetStatus(cs[1..], phase, status))[1..] == SetStatus(cs[1..], phase, status);
    } else if cs != [] {
      assert ([Checkpoint(phase, status)] + cs[1..])[1..] == cs[1..];
    }
  }

  lemma {:induction false} MarkReads(cs: seq<Checkpoint>, phase: Phase, status: Status, other: Phase)
    ensures StatusOf(Mark(cs, phase, status), other) == if other == phase then status else StatusOf(cs, other)
    ensures Mark(cs, phase, status) != []
  {
    SetStatusReads(if cs == [] then InitialCheckpoints() else cs, phase, status, other);
  }

  predicate IsCompleted(cs: seq<Checkpoint>, i: int)
    requires 0 <= i < |PHASES|
  {
    StatusOf(cs, PHASES[i]) == Completed
  }

  /** Exactly the first k phases are completed. */
  predicate CompletedUpTo(cs: seq<Checkpoint>, k: nat) {
    k <= |PHASES| && forall i :: 0 <= i < |PHASES| ==> (IsCompleted(cs, i) <==> i < k)
  }

  /** nextPhaseStartIndex: the first phase not completed, or -1. */
  method NextPhaseStartIndex(cs: seq<Checkpoint>) returns (index: int)
    ensures -1 <= index < |PHASES|
    ensures index >= 0 ==> !IsCompleted(cs, index) && forall i :: 0 <= i < index ==> IsCompleted(cs, i)
    ensures index == -1 ==> forall i :: 0 <= i < |PHASES| ==> IsCompleted(cs, i)
  {
    for i := 0 to |PHASES|
      invariant forall j :: 0 <= j < i ==> IsCompleted(cs, j)
    {
      if StatusOf(cs, PHASES[i]) != Completed {
        return i;
      }
    }
    return -1;
  }

  /**
   * The shape every persisted state has: the completed phases form a prefix; the current phase is
   * not before the last completed one; and `complete` means all five are completed.
   */
  ghost predicate GoodState(s: MigrationState) {
    exists k: nat :: GoodUpTo(s, k)
  }

  ghost predicate GoodUpTo(s: MigrationState, k: nat) {
    && CompletedUpTo(s.checkpoints, k)
    && (s.phase == Complete ==> k == |PHASES|)
    && forall i :: 0 <= i < |PHASES| && s.phase == PHASES[i] ==> k <= i + 1
  }

  predicate AllCompleted(s: MigrationState) {
    forall i :: 0 <= i < |PHASES| ==> IsCompleted(s.checkpoints, i)
  }

  /** Marking phase k completed lengthens the prefix by one; marking it otherwise keeps or cuts it there. */
  lemma {:induction false} MarkPrefix(cs: seq<Checkpoint>, k: nat, i: nat, status: Status)
    requires CompletedUpTo(cs, k) && i < |PHASES| && k <= i + 1
    ensures status == Completed && k == i ==> CompletedUpTo(Mark(cs, PHASES[i], status), i + 1)
    ensures status != Completed ==> CompletedUpTo(Mark(cs, PHASES[i], status), if k <= i then k else i)
  {
    forall j | 0 <= j < |PHASES|
      ensures IsCompleted(Mark(cs, PHASES[i], status), j) <==>
              if j == i then status == Completed else IsCompleted(cs, j)
    {
      MarkReads(cs, PHASES[i], status, PHASES[j]);
    }
  }

  /** Marking anything that is not one of the five phases leaves the prefix alone. */
  lemma {:induction false} MarkOther(cs: seq<Checkpoint>, k: nat, phase: Phase, status: Status)
    requires CompletedUpTo(cs, k) && phase !in PHASES
    ensures CompletedUpTo(Mark(cs, phase, status), k)
  {
    forall j | 0 <= j < |PHASES|
      ensures IsCompleted(Mark(cs, phase, status), j) <==> IsCompleted(cs, j)
    {
      MarkReads(cs, phase, status, PHASES[j]);
    }
  }

  /** Failing a good state in its own phase, or in a phase without effects, leaves a good state. */
  lemma {:induction false} FailedIsGood(s: MigrationState, phase: Phase, errors: nat)
    requires GoodState(s) && (phase == s.phase || phase !in PHASES)
    ensures GoodState(s.(phase := Failed, errors := errors, checkpoints := Mark(s.checkpoints, phase, Unsuccessful)))
  {
    var k: nat :| GoodUpTo(s, k);
    var s' := s.(phase := Failed, errors := errors, checkpoints := Mark(s.checkpoints, phase, Unsuccessful));
    if phase in PHASES {
      var i :| 0 <= i < |PHASES| && PHASES[i] == phase;
      MarkPrefix(s.checkpoints, k, i, Unsuccessful);
      assert GoodUpTo(s', if k <= i then k else i);
    } else {
      MarkOther(s.checkpoints, k, phase, Unsuccessful);
      assert GoodUpTo(s', k);
    }
  }

  /** The prefix shape read off a good state. */
  lemma {:induction false} GoodPrefix(s: MigrationState, i: nat, j: nat)
    requires GoodState(s) && i < j < |PHASES| && IsCompleted(s.checkpoints, j)
    ensures IsCompleted(s.checkpoints, i)
  {
    var k: nat :| GoodUpTo(s, k);
  }

  lemma {:induction false} CompleteMeansAll(s: MigrationState)
    requires GoodState(s) && s.phase == Complete
    ensures AllCompleted(s)
  {
    var k: nat :| GoodUpTo(s, k);
  }
}
