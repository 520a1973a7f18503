/**
 * Shutdown: once the server stops, the executor cannot get stuck, and comes to rest within a number of
 * steps fixed by the state it is in and the calls still to come.
 */
module ExecutorShutdown {
  import opened Collections
  import opened TenantDepths
  import opened ExecutorModel
  import opened ExecutorInvariant
  import opened ExecutorTheorems

  /** A step of a caller, the dispatcher or a worker, other than a new call. */
  predicate Progress(step: Step) {
    step.Outside? ==> step.outside.GiveUp? || step.outside.CallerEnds?
  }

  predicate NewCall(step: Step) {
    step.Outside? && step.outside.Submit?
  }

  // ---------- Never stuck ----------

  /** The step the dispatcher can take, with a caller or alone. */
  function DispatcherMove(c: Config, s: State): Step
    requires !s.dispatcher.Stopped?
  {
    match s.dispatcher
    case Head => Dispatch(if AtSelect(s) then HeadStops else BeginAssign)
    case Assigning(w, _, _) =>
      if w < |s.workers| && s.workers[w].Parked? then Joint(HandOver) else Dispatch(AssignFails)
    case Received(_) => Decide(Classify)
    case Waiting(_) => Decide(if Full(c, s) then WaitStops else WaitOver)
    case Checking(_) => Decide(CheckWait)
    case Admitting(_) => Decide(Admit)
    case Confirming(j) => if CallerOf(s, j).Awaiting? then Joint(ConfirmDelivered) else Decide(ConfirmTimesOut)
    case Answering(j, _, _) => if CallerOf(s, j).Awaiting? then Joint(AnswerDelivered) else Decide(AnswerTimesOut)
    case Abandoning(_) => Decide(Abandon)
    case Rejecting => Dispatch(RejectNext)
    case Draining => Dispatch(DrainEnds)
  }

  /**
   * Before shutdown the dispatcher waits only at its main select or for room in a full queue: never for a
   * caller or a worker.
   */
  lemma {:induction false} DispatcherNeverBlocked(c: Config, states: seq<State>, steps: seq<Step>, k: nat)
    requires Run(c, states, steps) && k < |states| && !states[k].dispatcher.Stopped?
    ensures
      || Enabled(c, states[k], DispatcherMove(c, states[k]))
      || (!states[k].shutdown && (AtSelect(states[k]) || (states[k].dispatcher.Waiting? && Full(c, states[k]))))
  {
    var s := states[k];
    RunKeeps(c, states, steps, k);
    if InHand(s.dispatcher).Some? {
      assert CallerInv(s, InHand(s.dispatcher).value);
    }
  }

  lemma {:induction false} NeverStuck(c: Config, states: seq<State>, steps: seq<Step>, k: nat) returns (step: Step)
    requires Run(c, states, steps) && k < |states| && states[k].shutdown && !Quiet(states[k])
    ensures Progress(step) && Enabled(c, states[k], step)
  {
    var s := states[k];
    if !s.dispatcher.Stopped? {
      DispatcherNeverBlocked(c, states, steps, k);
      step := DispatcherMove(c, s);
    } else if w: nat :| w < |s.workers| && !s.workers[w].Exited? {
      step := Work(match s.workers[w]
                   case Holding(_) => Begins(w)
                   case Running(_) => Ends(w)
                   case _ => Exits(w));
    } else {
      var j :| !CallerOf(s, j).Absent? && !CallerOf(s, j).Finished?;
      step := Outside(if CallerOf(s, j).Returned? then CallerEnds(j) else GiveUp(j, ShuttingDown));
    }
  }

  // ---------- A bound on what is left to do ----------

  function CallerRank(p: Caller): nat {
    match p
    case Offering => 20
    case Awaiting => 2
    case Returned(_) => 1
    case _ => 0
  }

  function Ranked(callers: map<Job, Caller>, rank: nat): set<Job> {
    set j | j in callers && CallerRank(callers[j]) == rank
  }

  function CallerWork(callers: map<Job, Caller>): nat {
    20 * |Ranked(callers, 20)| + 2 * |Ranked(callers, 2)| + |Ranked(callers, 1)|
  }

  function WorkerRank(w: Worker): nat {
    match w
    case Available => 4
    case Parked => 3
    case Holding(_) => 2
    case Running(_) => 1
    case Exited => 0
  }

  function PoolWork(workers: seq<Worker>): nat {
    if workers == [] then 0 else PoolWork(workers[..|workers| - 1]) + WorkerRank(workers[|workers| - 1])
  }

  function DispatcherRank(d: Dispatcher): nat {
    match d
    case Stopped => 0
    case Draining => 1
    case Rejecting => 3
    case Answering(_, _, ToDrain) => 2
    case Answering(_, _, ToReject) => 4
    case Answering(_, _, ToAbandon(_)) => 6
    case Answering(_, _, ToHead) => 7
    case Abandoning(_) => 5
    case Head => 6
    case Assigning(_, _, None) => 7
    case Confirming(_) => 8
    case Admitting(_) => 10
    case Checking(_) => 11
    case Waiting(_) => 12
    case Assigning(_, _, Some(_)) => 13
    case Received(_) => 14
  }

  /** How many steps may still be taken after shutdown if nobody calls again. */
  function WorkLeft(s: State): nat {
    CallerWork(s.callers) + PoolWork(s.workers) + 10 * |s.queue| + DispatcherRank(s.dispatcher)
  }

  lemma {:induction false} PoolUpdate(workers: seq<Worker>, w: nat, next: Worker)
    requires w < |workers|
    ensures PoolWork(workers[w := next]) == PoolWork(workers) - WorkerRank(workers[w]) + WorkerRank(next)
  {
    var last := |workers| - 1;
    if w < last {
      PoolUpdate(workers[..last], w, next);
      assert workers[w := next][..last] == workers[..last][w := next];
    } else {
      assert workers[w := next][..last] == workers[..last];
    }
  }

  lemma {:induction false} Moved(s: State, j: Job, next: Caller, rank: nat)
    requires rank > 0
    ensures |Ranked(s.callers[j := next], rank)| + (if CallerRank(CallerOf(s, j)) == rank then 1 else 0)
         == |Ranked(s.callers, rank)| + (if CallerRank(next) == rank then 1 else 0)
  {
    var before, after := Ranked(s.callers, rank), Ranked(s.callers[j := next], rank);
    assert before - {j} == after - {j};
    assert |before| == |before - {j}| + if j in before then 1 else 0;
    assert |after| == |after - {j}| + if j in after then 1 else 0;
  }

  lemma {:induction false} CallerMoved(s: State, j: Job, next: Caller)
    ensures CallerWork(s.callers[j := next]) + CallerRank(CallerOf(s, j)) == CallerWork(s.callers) + CallerRank(next)
  {
    Moved(s, j, next, 20);
    Moved(s, j, next, 2);
    Moved(s, j, next, 1);
  }

  lemma {:induction false} OutsideWork(s: State, step: OutsideStep)
    requires s.shutdown && OutsideEnabled(s, step)
    ensures WorkLeft(ApplyOutside(s, step)) <= WorkLeft(s) + 20
    ensures !step.Submit? ==> WorkLeft(ApplyOutside(s, step)) <= WorkLeft(s)
    ensures step.GiveUp? || step.CallerEnds? ==> WorkLeft(ApplyOutside(s, step)) < WorkLeft(s)
  {
    match step
    case Submit(j) => CallerMoved(s, j, Offering);
    case GiveUp(j, answer) => CallerMoved(s, j, Returned(answer));
    case CallerEnds(j) => CallerMoved(s, j, Finished(CallerOf(s, j).answer));
    case _ =>
  }

  lemma {:induction false} JointWork(c: Config, s: State, step: JointStep)
    requires s.shutdown && JointEnabled(c, s, step)
    ensures WorkLeft(ApplyJoint(c, s, step)) < WorkLeft(s)
  {
    match step
    case TakeOffer(j) => CallerMoved(s, j, Awaiting);
    case DrainOffer(j) => CallerMoved(s, j, Awaiting);
    case WorkerReady(_) => WorkersWork(c, s, step);
    case HandOver => WorkersWork(c, s, step);
    case ConfirmDelivered => CallerMoved(s, s.dispatcher.job, Returned(Accepted));
    case AnswerDelivered => CallerMoved(s, s.dispatcher.job, Returned(s.dispatcher.answer));
  }

  lemma {:induction false} WorkersWork(c: Config, s: State, step: JointStep)
    requires JointEnabled(c, s, step) && (step.WorkerReady? || step.HandOver?)
    ensures WorkLeft(ApplyJoint(c, s, step)) < WorkLeft(s)
  {
    match step
    case WorkerReady(w) => PoolUpdate(s.workers, w, Parked);
    case HandOver => PoolUpdate(s.workers, s.dispatcher.worker, Holding(s.dispatcher.entry.job));
  }

  lemma {:induction false} DecideWork(c: Config, s: State, step: DecideStep)
    requires s.shutdown && DecideEnabled(c, s, step)
    ensures WorkLeft(ApplyDecide(c, s, step)) < WorkLeft(s)
  {
  }

  lemma {:induction false} DispatchWork(c: Config, s: State, step: QueueStep)
    requires s.shutdown && DispatchEnabled(s, step)
    ensures WorkLeft(ApplyDispatch(c, s, step)) < WorkLeft(s)
  {
  }

  lemma {:induction false} WorkerWork(s: State, step: WorkerStep)
    requires s.shutdown && WorkEnabled(s, step)
    ensures WorkLeft(ApplyWork(s, step)) < WorkLeft(s)
  {
    PoolUpdate(s.workers, step.worker, Exited);
  }

  lemma {:induction false} StepWork(c: Config, states: seq<State>, steps: seq<Step>, i: nat)
    requires Run(c, states, steps) && i < |steps| && states[i].shutdown
    ensures WorkLeft(states[i + 1]) + (if Progress(steps[i]) then 1 else 0)
         <= WorkLeft(states[i]) + (if NewCall(steps[i]) then 20 else 0)
  {
    assert StepAt(c, states, steps, i);
    match steps[i]
    case Outside(o) => OutsideWork(states[i], o);
    case Joint(o) => JointWork(c, states[i], o);
    case Decide(o) => DecideWork(c, states[i], o);
    case Dispatch(o) => DispatchWork(c, states[i], o);
    case Work(o) => WorkerWork(states[i], o);
  }

  // ---------- Whole runs ----------

  function ProgressSteps(steps: seq<Step>): nat {
    if steps == [] then 0
    else ProgressSteps(steps[..|steps| - 1]) + if Progress(steps[|steps| - 1]) then 1 else 0
  }

  function NewCalls(steps: seq<Step>): nat {
    if steps == [] then 0 else NewCalls(steps[..|steps| - 1]) + if NewCall(steps[|steps| - 1]) then 1 else 0
  }

  /** After shutdown, only a bounded number of steps is left, 20 more for each new call. */
  lemma {:induction false} ShutdownIsBounded(c: Config, states: seq<State>, steps: seq<Step>, i: nat, k: nat)
    requires Run(c, states, steps) && i <= k < |states| && states[i].shutdown
    ensures ProgressSteps(steps[i..k]) + WorkLeft(states[k]) <= WorkLeft(states[i]) + 20 * NewCalls(steps[i..k])
  {
    if i < k {
      ShutdownIsBounded(c, states, steps, i, k - 1);
      RunGrows(c, states, steps, i, k - 1);
      StepWork(c, states, steps, k - 1);
      assert steps[i..k][..k - 1 - i] == steps[i..k - 1];
    }
  }

  /** A run that cannot go on after shutdown has released every submitted job exactly once. */
  lemma {:induction false} RestMeansReleased(c: Config, states: seq<State>, steps: seq<Step>, k: nat)
    requires Run(c, states, steps) && k < |states| && states[k].shutdown
    requires forall step :: Progress(step) ==> !Enabled(c, states[k], step)
    ensures Quiet(states[k])
    ensures forall j :: !CallerOf(states[k], j).Absent? ==> states[k].releaseRuns[j] == 1
  {
    if !Quiet(states[k]) {
      var step := NeverStuck(c, states, steps, k);
    }
    forall j | !CallerOf(states[k], j).Absent? ensures states[k].releaseRuns[j] == 1 {
      QuietMeansReleased(c, states, steps, k, j);
    }
  }
}
