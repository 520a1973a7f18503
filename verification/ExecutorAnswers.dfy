/** Why the executor answers as it does, and that it refuses nobody without a reason, over every run. */
module ExecutorAnswers {
  import opened Collections
  import opened TenantDepths
  import opened ExecutorModel
  import opened ExecutorInvariant
  import opened ExecutorTheorems

  /** A state in which a caller may be refused: its tenant's share is taken, the server stops, or its wait is over. */
  ghost predicate Reason(c: Config, s: State, j: Job, answer: Answer) {
    match answer
    case TenantQueueFull =>
      && s.dispatcher == Received(j) && c.tenantKey(j) != ""
      && CountOf(c.tenantKey, Jobs(s.queue), c.tenantKey(j)) >= if c.concurrency <= 0 then 4 else c.concurrency
    case ShuttingDown => s.shutdown
    case TimedOut => AnswerOf(s, j).None? && j in s.expired
    case Cancelled => AnswerOf(s, j).None? && j in s.cancelled
    case _ => false
  }

  ghost predicate Justified(c: Config, states: seq<State>, k: nat, j: Job, answer: Answer)
    requires k < |states|
  {
    exists i :: 0 <= i <= k && Reason(c, states[i], j, answer)
  }

  /** The dispatcher is about to give an answer to a caller that has none. */
  ghost predicate AboutTo(s: State, j: Job, answer: Answer) {
    s.dispatcher.Answering? && s.dispatcher.job == j && s.dispatcher.answer == answer && AnswerOf(s, j).None?
  }

  // ---------- Errors have reasons ----------

  /** An error is given, or taken in hand, in a state that justifies it. */
  ghost predicate NewWithReason(c: Config, s: State, s': State, j: Job, answer: Answer) {
    && (AnswerOf(s', j) == Some(answer) ==>
          AnswerOf(s, j) == Some(answer) || AboutTo(s, j, answer) || Reason(c, s, j, answer))
    && (AboutTo(s', j, answer) ==> AboutTo(s, j, answer) || Reason(c, s, j, answer))
  }

  lemma {:induction false} OutsideReason(c: Config, s: State, step: OutsideStep, j: Job, answer: Answer)
    requires Context(s) && OutsideEnabled(s, step) && answer != Accepted
    ensures NewWithReason(c, s, ApplyOutside(s, step), j, answer)
  {
  }

  lemma {:induction false} JointReason(c: Config, s: State, step: JointStep, j: Job, answer: Answer)
    requires Context(s) && PoolInv(s) && JointEnabled(c, s, step) && answer != Accepted
    ensures NewWithReason(c, s, ApplyJoint(c, s, step), j, answer)
  {
  }

  lemma {:induction false} DecideReason(c: Config, s: State, step: DecideStep, j: Job, answer: Answer)
    requires PoolInv(s) && Counted(c, s.queue, s.depths) && (AnswerOf(s, j).None? ==> WaitEnded(s, j))
    requires DecideEnabled(c, s, step) && answer != Accepted
    ensures NewWithReason(c, s, ApplyDecide(c, s, step), j, answer)
  {
  }

  lemma {:induction false} DispatchReason(c: Config, s: State, step: QueueStep, j: Job, answer: Answer)
    requires Context(s) && PoolInv(s) && DispatchEnabled(s, step) && answer != Accepted
    ensures NewWithReason(c, s, ApplyDispatch(c, s, step), j, answer)
  {
  }

  lemma {:induction false} WorkReason(c: Config, s: State, step: WorkerStep, j: Job, answer: Answer)
    requires WorkEnabled(s, step)
    ensures NewWithReason(c, s, ApplyWork(s, step), j, answer)
  {
  }

  lemma {:induction false} StepReason(c: Config, s: State, step: Step, j: Job, answer: Answer)
    requires Inv(c, s) && Enabled(c, s, step) && answer != Accepted
    ensures NewWithReason(c, s, Apply(c, s, step), j, answer)
  {
    ContextHolds(c, s);
    assert CallerInv(s, j);
    match step
    case Outside(o) => OutsideReason(c, s, o, j, answer);
    case Joint(o) => JointReason(c, s, o, j, answer);
    case Decide(o) => DecideReason(c, s, o, j, answer);
    case Dispatch(o) => DispatchReason(c, s, o, j, answer);
    case Work(o) => WorkReason(c, s, o, j, answer);
  }

  /**
   * A caller is refused only for a reason that held at some moment of the run: its tenant had its
   * share of the queue when the request was looked at, the server had been stopped, or the caller's
   * wait had timed out or been cancelled while it had no answer.
   */
  lemma {:induction false} ErrorsHaveReasons(c: Config, states: seq<State>, steps: seq<Step>, k: nat, j: Job,
                                             answer: Answer)
    requires Run(c, states, steps) && k < |states| && answer != Accepted
    ensures AnswerOf(states[k], j) == Some(answer) ==> Justified(c, states, k, j, answer)
    ensures AboutTo(states[k], j, answer) ==> Justified(c, states, k, j, answer)
  {
    if k > 0 {
      var s := states[k - 1];
      ErrorsHaveReasons(c, states, steps, k - 1, j, answer);
      RunKeeps(c, states, steps, k - 1);
      assert StepAt(c, states, steps, k - 1);
      StepReason(c, s, steps[k - 1], j, answer);
      if Justified(c, states, k - 1, j, answer) {
        var i :| 0 <= i <= k - 1 && Reason(c, states[i], j, answer);
        assert Reason(c, states[i], j, answer);
      }
    }
  }

  // ---------- Requests without a reason to refuse them are admitted ----------

  /** The tenant of a job has room in its share. */
  ghost predicate BelowShare(c: Config, s: State, j: Job) {
    c.tenantKey(j) != "" ==>
      CountOf(c.tenantKey, Jobs(s.queue), c.tenantKey(j)) < if c.concurrency <= 0 then 4 else c.concurrency
  }

  /** The dispatcher has the request in hand and has not turned it away. */
  ghost predicate OnItsWay(c: Config, s: State, j: Job) {
    && InHand(s.dispatcher) == Some(j) && !s.dispatcher.Answering? && !s.dispatcher.Abandoning?
    && (s.dispatcher.Received? ==> BelowShare(c, s, j))
  }

  /** The server runs, and nothing has ended the caller's wait. */
  ghost predicate Undisturbed(s: State, j: Job) {
    !s.shutdown && j !in s.expired && j !in s.cancelled
  }

  ghost predicate Welcome(c: Config, s: State, j: Job) {
    (OnItsWay(c, s, j) && AnswerOf(s, j).None?) || AnswerOf(s, j) == Some(Accepted)
  }

  lemma {:induction false} OutsideWelcome(c: Config, s: State, step: OutsideStep, j: Job)
    requires CallerInv(s, j) && PoolInv(s) && OutsideEnabled(s, step) && Welcome(c, s, j) && Undisturbed(s, j)
    ensures Welcome(c, ApplyOutside(s, step), j)
  {
  }

  lemma {:induction false} JointWelcome(c: Config, s: State, step: JointStep, j: Job)
    requires CallerInv(s, j) && JointEnabled(c, s, step) && Welcome(c, s, j)
    ensures Welcome(c, ApplyJoint(c, s, step), j)
  {
  }

  lemma {:induction false} DecideWelcome(c: Config, s: State, step: DecideStep, j: Job)
    requires CallerInv(s, j) && Counted(c, s.queue, s.depths)
    requires DecideEnabled(c, s, step) && Welcome(c, s, j) && Undisturbed(s, j)
    ensures Welcome(c, ApplyDecide(c, s, step), j)
  {
  }

  lemma {:induction false} DispatchWelcome(c: Config, s: State, step: QueueStep, j: Job)
    requires PoolInv(s) && DispatchEnabled(s, step) && Welcome(c, s, j) && Undisturbed(s, j)
    ensures Welcome(c, ApplyDispatch(c, s, step), j)
  {
  }

  lemma {:induction false} WorkWelcome(c: Config, s: State, step: WorkerStep, j: Job)
    requires WorkEnabled(s, step) && Welcome(c, s, j)
    ensures Welcome(c, ApplyWork(s, step), j)
  {
  }

  lemma {:induction false} StepWelcome(c: Config, s: State, step: Step, j: Job)
    requires Inv(c, s) && Enabled(c, s, step) && Welcome(c, s, j) && Undisturbed(s, j)
    ensures Welcome(c, Apply(c, s, step), j)
  {
    assert CallerInv(s, j);
    match step
    case Outside(o) => OutsideWelcome(c, s, o, j);
    case Joint(o) => JointWelcome(c, s, o, j);
    case Decide(o) => DecideWelcome(c, s, o, j);
    case Dispatch(o) => DispatchWelcome(c, s, o, j);
    case Work(o) => WorkWelcome(c, s, o, j);
  }

  /**
   * A request that is taken while its tenant is below its share stays with the dispatcher until it is
   * accepted, whatever callers and workers do meanwhile, unless the server stops or its wait ends.
   */
  lemma {:induction false} TakenIsAdmitted(c: Config, states: seq<State>, steps: seq<Step>, i: nat, k: nat, j: Job)
    requires Run(c, states, steps) && i <= k < |states|
    requires states[i].dispatcher == Received(j) && AnswerOf(states[i], j).None? && BelowShare(c, states[i], j)
    requires Undisturbed(states[k], j)
    ensures OnItsWay(c, states[k], j) || AnswerOf(states[k], j) == Some(Accepted)
    ensures Welcome(c, states[k], j)
  {
    if i < k {
      RunGrows(c, states, steps, k - 1, k);
      TakenIsAdmitted(c, states, steps, i, k - 1, j);
      RunKeeps(c, states, steps, k - 1);
      assert StepAt(c, states, steps, k - 1);
      StepWelcome(c, states[k - 1], steps[k - 1], j);
    }
  }

  /** The dispatcher's steps from taking a request to confirming its admission. */
  function AdmissionSteps(j: Job): seq<Step> {
    [Joint(TakeOffer(j)), Decide(Classify), Decide(WaitOver), Decide(CheckWait), Decide(Admit), Joint(ConfirmDelivered)]
  }

  /** The states that steps lead through from a given one. */
  ghost predicate Path(c: Config, states: seq<State>, steps: seq<Step>) {
    |states| == |steps| + 1 && forall i :: 0 <= i < |steps| ==> StepAt(c, states, steps, i)
  }

  lemma {:induction false} RunOn(c: Config, states: seq<State>, steps: seq<Step>, path: seq<State>, more: seq<Step>)
    requires Run(c, states, steps) && Path(c, path, more) && path[0] == states[|steps|]
    ensures Run(c, states + path[1..], steps + more)
  {
    var states', steps' := states + path[1..], steps + more;
    forall i | 0 <= i < |steps'| ensures StepAt(c, states', steps', i) {
      if i < |steps| {
        assert StepAt(c, states, steps, i);
      } else {
        assert StepAt(c, path, more, i - |steps|);
      }
    }
  }

  lemma {:induction false} AdmissionPath(c: Config, s: State, j: Job) returns (path: seq<State>)
    requires Counted(c, s.queue, s.depths) && BelowShare(c, s, j) && |s.queue| < c.Capacity()
    requires AtSelect(s) && CallerOf(s, j).Offering? && !s.shutdown && j !in s.waitDone
    ensures Path(c, path, AdmissionSteps(j)) && path[0] == s
    ensures path[5].dispatcher == Confirming(j) && AnswerOf(path[6], j) == Some(Accepted)
    ensures path[6].queue == s.queue + [Entry(j, false, true)] && path[6].dispatcher == Head
  {
    var s1, s4 := Taken(s, j, Received(j)), Taken(s, j, Admitting(j));
    DecidesToAdmit(c, s, j);
    ConfirmsAdmission(c, s4, j);
    var s5 := ApplyDecide(c, s4, Admit);
    path := [s, s1, Taken(s, j, Waiting(j)), Taken(s, j, Checking(j)), s4, s5, ApplyJoint(c, s5, ConfirmDelivered)];
  }

  /** A caller's request is in the dispatcher's hand. */
  function Taken(s: State, j: Job, d: Dispatcher): State {
    s.(callers := s.callers[j := Awaiting], dispatcher := d)
  }

  ghost predicate Leads(c: Config, s: State, step: Step, s': State) {
    Enabled(c, s, step) && s' == Apply(c, s, step)
  }

  lemma {:induction false} DecidesToAdmit(c: Config, s: State, j: Job)
    requires Counted(c, s.queue, s.depths) && BelowShare(c, s, j) && |s.queue| < c.Capacity()
    requires AtSelect(s) && CallerOf(s, j).Offering? && !s.shutdown && j !in s.waitDone
    ensures Leads(c, s, Joint(TakeOffer(j)), Taken(s, j, Received(j)))
    ensures Leads(c, Taken(s, j, Received(j)), Decide(Classify), Taken(s, j, Waiting(j)))
    ensures Leads(c, Taken(s, j, Waiting(j)), Decide(WaitOver), Taken(s, j, Checking(j)))
    ensures Leads(c, Taken(s, j, Checking(j)), Decide(CheckWait), Taken(s, j, Admitting(j)))
  {
  }

  lemma {:induction false} ConfirmsAdmission(c: Config, s: State, j: Job)
    requires s.dispatcher == Admitting(j) && CallerOf(s, j).Awaiting? && !s.shutdown
    ensures var s' := ApplyDecide(c, s, Admit);
            && s'.dispatcher == Confirming(j) && JointEnabled(c, s', ConfirmDelivered)
            && var s'' := ApplyJoint(c, s', ConfirmDelivered);
               && AnswerOf(s'', j) == Some(Accepted) && s''.dispatcher == Head
               && s''.queue == s.queue + [Entry(j, false, true)]
  {
  }

  /**
   * From its main select, with the server running and room in the queue, the dispatcher can take any
   * offer whose tenant is below its share and whose wait goes on, and its steps lead to admission.
   */
  lemma {:induction false} OfferIsAdmitted(c: Config, states: seq<State>, steps: seq<Step>, j: Job)
    returns (path: seq<State>)
    requires Run(c, states, steps) && AtSelect(states[|steps|]) && CallerOf(states[|steps|], j).Offering?
    requires Undisturbed(states[|steps|], j) && BelowShare(c, states[|steps|], j)
    requires |states[|steps|].queue| < 2 * (if c.concurrency <= 0 then 4 else c.concurrency)
    ensures |path| == 7 && Run(c, states + path[1..], steps + AdmissionSteps(j))
    ensures path[5].dispatcher == Confirming(j) && AnswerOf(path[6], j) == Some(Accepted)
    ensures path[6].queue == states[|steps|].queue + [Entry(j, false, true)]
  {
    RunKeeps(c, states, steps, |steps|);
    assert CallerInv(states[|steps|], j);
    path := AdmissionPath(c, states[|steps|], j);
    RunOn(c, states, steps, path, AdmissionSteps(j));
  }

  // ---------- While the server runs, kept jobs are served ----------

  /** Until shutdown an accepted job is queued, on its way to a worker, with a worker, or has been run to its end. */
  lemma {:induction false} AcceptedIsServed(c: Config, states: seq<State>, steps: seq<Step>, k: nat, j: Job)
    requires Run(c, states, steps) && k < |states| && !states[k].shutdown && AnswerOf(states[k], j) == Some(Accepted)
    ensures || j in Jobs(Kept(states[k])) || j in BeingAssigned(states[k].dispatcher)
            || AtSomeWorker(states[k].workers, j) || (j in states[k].started && j in states[k].finished)
  {
    RunKeeps(c, states, steps, k);
    KeptWasAnswered(c, states, steps, k, j);
    assert WorkInv(states[k], j);
  }

  /** Until shutdown no worker waits for a task while the dispatcher waits at its select with requests queued. */
  lemma {:induction false} NoWorkerLeftIdle(c: Config, states: seq<State>, steps: seq<Step>, k: nat, w: nat)
    requires Run(c, states, steps) && k < |states| && !states[k].shutdown
    requires AtSelect(states[k]) && states[k].queue != [] && w < |states[k].workers|
    ensures states[k].workers[w].Available? || states[k].workers[w].Holding? || states[k].workers[w].Running?
  {
    RunKeeps(c, states, steps, k);
  }
}
