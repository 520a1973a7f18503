/** The executor's guarantees over every run. */
module ExecutorTheorems {
  import opened Collections
  import opened TenantDepths
  import opened ExecutorModel
  import opened ExecutorInvariant

  // ---------- The invariant holds throughout ----------

  lemma {:induction false} ContextHolds(c: Config, s: State)
    requires Inv(c, s)
    ensures Context(s)
  {
    if s.dispatcher.Assigning? {
      assert s.admitted[|s.handed|] == s.dispatcher.entry.job;
    }
    if s.dispatcher.Rejecting? && s.queue != [] {
      assert s.admitted[|s.handed| + |s.dropped|] == Jobs(s.queue)[0];
    }
    forall w | 0 <= w < |s.workers| && (s.workers[w].Holding? || s.workers[w].Running?)
      ensures s.workers[w].job in s.admitted
    {
      assert WorkInv(s, s.workers[w].job) && Has(s.workers[w], s.workers[w].job);
    }
  }

  lemma {:induction false} OutsideKeeps(c: Config, s: State, step: OutsideStep)
    requires Inv(c, s) && OutsideEnabled(s, step)
    ensures Inv(c, ApplyOutside(s, step))
  {
    ContextHolds(c, s);
    var s' := ApplyOutside(s, step);
    OutsideLeaves(s, step);
    forall j ensures CallerInv(s', j) && ReleaseInv(s', j) && WorkInv(s', j) {
      CallerAfterOutside(s, step, j);
      ReleaseAfterOutside(s, step, j);
      assert WorkInv(s, j);
    }
  }

  lemma {:induction false} JointKeepsWork(c: Config, s: State, step: JointStep)
    requires WorkersInv(s) && FlowInv(s) && JointEnabled(c, s, step)
    ensures WorkersInv(ApplyJoint(c, s, step))
  {
    forall j ensures WorkInv(ApplyJoint(c, s, step), j) {
      if step.HandOver? {
        AssignedIsNew(s);
        WorkAfterHandOver(c, s, j);
      } else {
        WorkAfterJoint(c, s, step, j);
      }
    }
  }

  lemma {:induction false} JointKeeps(c: Config, s: State, step: JointStep)
    requires Inv(c, s) && JointEnabled(c, s, step)
    ensures Inv(c, ApplyJoint(c, s, step))
  {
    ContextHolds(c, s);
    var s' := ApplyJoint(c, s, step);
    forall j ensures CallerInv(s', j) && ReleaseInv(s', j) {
      CallerAfterJoint(c, s, step, j);
      ReleaseAfterJoint(c, s, step, j);
    }
    JointKeepsWork(c, s, step);
    PoolAfterJoint(c, s, step);
    if step.ConfirmDelivered? {
      assert CallerInv(s, s.dispatcher.job);
      QueueAfterConfirm(c, s);
    } else {
      FlowAfterJoint(c, s, step);
      QueueAfterJoint(c, s, step);
    }
  }

  lemma {:induction false} DecideKeeps(c: Config, s: State, step: DecideStep)
    requires Inv(c, s) && DecideEnabled(c, s, step)
    ensures Inv(c, ApplyDecide(c, s, step))
  {
    ContextHolds(c, s);
    var s' := ApplyDecide(c, s, step);
    DecideLeavesWorkers(c, s, step);
    forall j ensures CallerInv(s', j) && ReleaseInv(s', j) && WorkInv(s', j) {
      CallerAfterDecide(c, s, step, j);
      ReleaseAfterDecide(c, s, step, j);
      assert WorkInv(s, j);
    }
    if step.Admit? && !s.shutdown {
      FlowAfterAdmit(c, s);
    } else {
      FlowAfterDecide(c, s, step);
    }
    PoolAfterDecide(c, s, step);
    QueueAfterDecide(c, s, step);
  }

  lemma {:induction false} DispatchKeeps(c: Config, s: State, step: QueueStep)
    requires Inv(c, s) && DispatchEnabled(s, step)
    ensures Inv(c, ApplyDispatch(c, s, step))
  {
    ContextHolds(c, s);
    var s' := ApplyDispatch(c, s, step);
    forall j ensures CallerInv(s', j) && ReleaseInv(s', j) && WorkInv(s', j) {
      CallerAfterDispatch(c, s, step, j);
      ReleaseAfterDispatch(c, s, step, j);
      WorkAfterDispatch(c, s, step, j);
    }
    if step.RejectNext? {
      FlowAfterReject(c, s);
    } else {
      FlowAfterDispatch(c, s, step);
    }
    PoolAfterDispatch(c, s, step);
    QueueAfterDispatch(c, s, step);
  }

  lemma {:induction false} WorkKeeps(c: Config, s: State, step: WorkerStep)
    requires Inv(c, s) && WorkEnabled(s, step)
    ensures Inv(c, ApplyWork(s, step))
  {
    ContextHolds(c, s);
    var s' := ApplyWork(s, step);
    forall j ensures CallerInv(s', j) && ReleaseInv(s', j) && WorkInv(s', j) {
      CallerAfterWork(s, step, j);
      ReleaseAfterWork(s, step, j);
      WorkAfterWork(s, step, j);
    }
    StartsOnce(s, step);
    PoolAfterWork(s, step);
  }

  lemma {:induction false} StartsOnce(s: State, step: WorkerStep)
    requires WorkersInv(s) && WorkEnabled(s, step)
    ensures Distinct(ApplyWork(s, step).started)
  {
    if step.Begins? {
      var j := s.workers[step.worker].job;
      assert WorkInv(s, j) && Has(s.workers[step.worker], j);
      DistinctConcat(s.started, [j]);
    }
  }

  lemma {:induction false} StepKeeps(c: Config, s: State, step: Step)
    requires Inv(c, s) && Enabled(c, s, step)
    ensures Inv(c, Apply(c, s, step))
  {
    match step
    case Outside(o) => OutsideKeeps(c, s, o);
    case Joint(o) => JointKeeps(c, s, o);
    case Decide(o) => DecideKeeps(c, s, o);
    case Dispatch(o) => DispatchKeeps(c, s, o);
    case Work(o) => WorkKeeps(c, s, o);
  }

  lemma {:induction false} RunKeeps(c: Config, states: seq<State>, steps: seq<Step>, k: nat)
    requires Run(c, states, steps) && k < |states|
    ensures Inv(c, states[k])
  {
    if k == 0 {
      InitialInv(c);
    } else {
      RunKeeps(c, states, steps, k - 1);
      assert StepAt(c, states, steps, k - 1);
      StepKeeps(c, states[k - 1], steps[k - 1]);
    }
  }

  // ---------- What never changes back ----------

  function AnswerOf(s: State, j: Job): Option<Answer> {
    match CallerOf(s, j)
    case Returned(answer) => Some(answer)
    case Finished(answer) => Some(answer)
    case _ => None
  }

  ghost predicate Grown(s: State, s': State) {
    && s.admitted <= s'.admitted && s.handed <= s'.handed && s.started <= s'.started
    && s.releaseRuns <= s'.releaseRuns && |s.workers| == |s'.workers|
    && (s.shutdown ==> s'.shutdown) && s.cancelled <= s'.cancelled && s.expired <= s'.expired
    && forall j :: AnswerOf(s, j).Some? ==> AnswerOf(s', j) == AnswerOf(s, j)
  }

  lemma {:induction false} OutsideGrows(s: State, step: OutsideStep)
    requires OutsideEnabled(s, step)
    ensures Grown(s, ApplyOutside(s, step))
  {
  }

  lemma {:induction false} JointGrows(c: Config, s: State, step: JointStep)
    requires JointEnabled(c, s, step)
    ensures Grown(s, ApplyJoint(c, s, step))
  {
  }

  lemma {:induction false} DecideGrows(c: Config, s: State, step: DecideStep)
    requires DecideEnabled(c, s, step)
    ensures Grown(s, ApplyDecide(c, s, step))
  {
  }

  lemma {:induction false} DispatchGrows(c: Config, s: State, step: QueueStep)
    requires DispatchEnabled(s, step)
    ensures Grown(s, ApplyDispatch(c, s, step))
  {
  }

  lemma {:induction false} WorkGrows(s: State, step: WorkerStep)
    requires WorkEnabled(s, step)
    ensures Grown(s, ApplyWork(s, step))
  {
  }

  lemma {:induction false} StepGrows(c: Config, s: State, step: Step)
    requires Enabled(c, s, step)
    ensures Grown(s, Apply(c, s, step))
  {
    match step
    case Outside(o) => OutsideGrows(s, o);
    case Joint(o) => JointGrows(c, s, o);
    case Decide(o) => DecideGrows(c, s, o);
    case Dispatch(o) => DispatchGrows(c, s, o);
    case Work(o) => WorkGrows(s, o);
  }

  lemma {:induction false} RunGrows(c: Config, states: seq<State>, steps: seq<Step>, i: nat, k: nat)
    requires Run(c, states, steps) && i <= k < |states|
    ensures Grown(states[i], states[k])
  {
    if i < k {
      RunGrows(c, states, steps, i, k - 1);
      GrowsAt(c, states, steps, k - 1);
    }
  }

  lemma {:induction false} GrowsAt(c: Config, states: seq<State>, steps: seq<Step>, i: nat)
    requires Run(c, states, steps) && i < |steps|
    ensures Grown(states[i], states[i + 1])
  {
    assert StepAt(c, states, steps, i);
    StepGrows(c, states[i], steps[i]);
  }

  // ---------- Answers ----------

  /** The dispatcher kept the request: it is queued, or left the queue for a worker or at shutdown. */
  ghost predicate KeptByDispatcher(s: State, j: Job) {
    j in Jobs(Kept(s)) || j in BeingAssigned(s.dispatcher) || j in s.handed || j in s.dropped
  }

  /**
   * Enqueue answers nil exactly when the dispatcher keeps the request, from then on; a request that is
   * answered with an error is never kept, handed over or run, before the answer or after it.
   */
  lemma {:induction false} AnswerDecides(c: Config, states: seq<State>, steps: seq<Step>, i: nat, k: nat, j: Job)
    requires Run(c, states, steps) && i < |states| && k < |states|
    requires AnswerOf(states[i], j).Some?
    ensures AnswerOf(states[i], j) == Some(Accepted) && i <= k ==> KeptByDispatcher(states[k], j)
    ensures AnswerOf(states[i], j) != Some(Accepted) ==>
              !KeptByDispatcher(states[k], j) && j !in states[k].started && j !in states[k].finished
    ensures AnswerOf(states[i], j) != Some(NotAccepting)
  {
    RunKeeps(c, states, steps, i);
    RunKeeps(c, states, steps, k);
    if i <= k {
      RunGrows(c, states, steps, i, k);
    } else {
      RunGrows(c, states, steps, k, i);
    }
    assert CallerInv(states[i], j) && CallerInv(states[k], j) && WorkInv(states[k], j);
  }

  /** A request is kept only once its caller has the answer nil. */
  lemma {:induction false} KeptWasAnswered(c: Config, states: seq<State>, steps: seq<Step>, k: nat, j: Job)
    requires Run(c, states, steps) && k < |states|
    ensures KeptByDispatcher(states[k], j) <==> AnswerOf(states[k], j) == Some(Accepted)
  {
    RunKeeps(c, states, steps, k);
    assert CallerInv(states[k], j);
  }

  // ---------- Order ----------

  ghost predicate OnceAtWorkers(s: State, j: Job) {
    && (j in s.started ==> j in s.handed)
    && forall v, w :: 0 <= v < w < |s.workers| && Has(s.workers[v], j) ==> !Has(s.workers[w], j)
  }

  /** Workers get jobs in admission order, each job once, one worker has it at a time and it starts at most once. */
  lemma {:induction false} FirstInFirstOut(c: Config, states: seq<State>, steps: seq<Step>, k: nat)
    requires Run(c, states, steps) && k < |states|
    ensures states[k].handed <= states[k].admitted
    ensures Distinct(states[k].admitted) && Distinct(states[k].handed) && Distinct(states[k].started)
    ensures forall j :: OnceAtWorkers(states[k], j)
  {
    RunKeeps(c, states, steps, k);
    forall j ensures OnceAtWorkers(states[k], j) {
      assert WorkInv(states[k], j);
    }
  }

  // ---------- Releases ----------

  /** A kept job is released once, and not before it has finished or was rejected at shutdown; no job twice. */
  lemma {:induction false} ReleasedOnce(c: Config, states: seq<State>, steps: seq<Step>, k: nat, j: Job)
    requires Run(c, states, steps) && k < |states|
    ensures states[k].releaseRuns[j] <= 1
    ensures KeptByDispatcher(states[k], j) ==> (states[k].releaseRuns[j] == 1 <==> Ended(states[k], j))
  {
    RunKeeps(c, states, steps, k);
    assert ReleaseInv(states[k], j);
  }

  /** The dispatcher and all workers have stopped and every caller has its answer. */
  ghost predicate Quiet(s: State) {
    && s.dispatcher.Stopped?
    && (forall w :: 0 <= w < |s.workers| ==> s.workers[w].Exited?)
    && (forall j :: CallerOf(s, j).Absent? || CallerOf(s, j).Finished?)
  }

  lemma {:induction false} QuietMeansReleased(c: Config, states: seq<State>, steps: seq<Step>, k: nat, j: Job)
    requires Run(c, states, steps) && k < |states|
    requires Quiet(states[k]) && !CallerOf(states[k], j).Absent?
    ensures states[k].releaseRuns[j] == 1
  {
    var s := states[k];
    RunKeeps(c, states, steps, k);
    assert CallerInv(s, j) && WorkInv(s, j) && ReleaseInv(s, j);
    assert Jobs(Kept(s)) == [];
  }

  // ---------- The loop head ----------

  lemma {:induction false} LoopHead(c: Config, states: seq<State>, steps: seq<Step>, k: nat)
    requires Run(c, states, steps) && k < |states| && states[k].dispatcher.Head?
    ensures |states[k].workers| == if c.concurrency <= 0 then 4 else c.concurrency
    ensures |states[k].queue| <= 2 * (if c.concurrency <= 0 then 4 else c.concurrency)
    ensures Matches(states[k].depths, c.tenantKey, Jobs(states[k].queue))
    ensures forall t :: t != "" ==>
              CountOf(c.tenantKey, Jobs(states[k].queue), t) <= if c.concurrency <= 0 then 4 else c.concurrency
    ensures forall e :: e in states[k].queue ==> e.stamped && !e.live
  {
    RunKeeps(c, states, steps, k);
    RunGrows(c, states, steps, 0, k);
  }
}
