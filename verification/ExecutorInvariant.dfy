/** What every step of the executor keeps. */
module ExecutorInvariant {
  import opened Collections
  import opened TenantDepths
  import opened ExecutorModel

  /** The job whose admission the dispatcher is deciding, if any. */
  function InHand(d: Dispatcher): Option<Job> {
    match d
    case Received(j) => Some(j)
    case Waiting(j) => Some(j)
    case Checking(j) => Some(j)
    case Admitting(j) => Some(j)
    case Confirming(j) => Some(j)
    case Answering(j, _, _) => Some(j)
    case Abandoning(j) => Some(j)
    case Assigning(_, _, pending) => pending
    case _ => None
  }

  /** The queue without the entry whose admission is not confirmed yet. */
  function KeptOf(d: Dispatcher, queue: seq<Entry>): seq<Entry> {
    if d.Confirming? && queue != [] then queue[..|queue| - 1] else queue
  }

  function Kept(s: State): seq<Entry> {
    KeptOf(s.dispatcher, s.queue)
  }

  function BeingAssigned(d: Dispatcher): seq<Job> {
    if d.Assigning? then [d.entry.job] else []
  }

  // ---------- Queue ----------

  ghost predicate Settled(queue: seq<Entry>) {
    forall i :: 0 <= i < |queue| ==> queue[i].stamped && !queue[i].live
  }

  predicate Emptied(d: Dispatcher) {
    d.Draining? || d.Stopped? || (d.Answering? && d.after.ToDrain?)
  }

  /** The tenant of the request in hand still has room in its share. */
  ghost predicate RoomFor(c: Config, queue: seq<Entry>, j: Job) {
    c.tenantKey(j) != "" ==> CountOf(c.tenantKey, Jobs(queue), c.tenantKey(j)) < Share(c.Capacity())
  }

  /** Depths are exact, the queue is within capacity, every tenant within its share. */
  ghost predicate Counted(c: Config, queue: seq<Entry>, depths: Depths) {
    && |queue| <= c.Capacity()
    && Matches(depths, c.tenantKey, Jobs(queue))
    && forall t :: t != "" ==> CountOf(c.tenantKey, Jobs(queue), t) <= Share(c.Capacity())
  }

  ghost predicate InHandInv(c: Config, d: Dispatcher, queue: seq<Entry>) {
    && Settled(KeptOf(d, queue))
    && (d.Confirming? ==> queue != [] && queue[|queue| - 1] == Entry(d.job, true, true))
    && (d.Waiting? || d.Checking? || d.Admitting? ==> RoomFor(c, queue, d.job))
    && (d.Assigning? ==> d.entry.stamped && !d.entry.live && (d.pending.Some? ==> RoomFor(c, queue, d.pending.value)))
    && (d.Checking? || d.Admitting? ==> |queue| < c.Capacity())
    && (d.Answering? ==> Refusal(d))
    && (Emptied(d) ==> queue == [])
  }

  ghost predicate QueueInv(c: Config, s: State) {
    Counted(c, s.queue, s.depths) && InHandInv(c, s.dispatcher, s.queue)
  }

  /** Answers sent by `respond` outside admission are errors. */
  predicate Refusal(d: Dispatcher)
    requires d.Answering?
  {
    d.answer != Accepted && d.answer != NotAccepting && !d.after.ToAbandon?
  }

  // ---------- Callers ----------

  /** What a caller's position says about its job. */
  ghost predicate CallerInv(s: State, j: Job) {
    match CallerOf(s, j)
    case Absent => Untouched(s, j)
    case Offering => Untouched(s, j)
    case Awaiting =>
      && WaitEnded(s, j) && j !in s.admitted
      && (InHand(s.dispatcher) == Some(j) && !s.dispatcher.Answering? ==> j !in s.released)
    case Returned(answer) => Answered(s, j, answer)
    case Finished(answer) => Answered(s, j, answer) && (answer != Accepted ==> j in s.released)
  }

  ghost predicate Untouched(s: State, j: Job) {
    WaitEnded(s, j) && j !in s.admitted && j !in s.released && InHand(s.dispatcher) != Some(j)
  }

  /** An unanswered caller's wait ends by its deadline or with its context. */
  ghost predicate WaitEnded(s: State, j: Job) {
    j in s.waitDone ==> j in s.expired || j in s.cancelled
  }

  /** Accepted exactly when the dispatcher kept the request; the wait context has ended. */
  ghost predicate Answered(s: State, j: Job, answer: Answer) {
    && (answer == Accepted <==> j in s.admitted)
    && (answer == Accepted ==> InHand(s.dispatcher) != Some(j))
    && answer != NotAccepting
    && j in s.waitDone
  }

  ghost predicate CallersInv(s: State) {
    forall j :: CallerInv(s, j)
  }

  // ---------- Flow of admitted jobs ----------

  predicate Stopping(d: Dispatcher) {
    d.Abandoning? || d.Rejecting? || d.Draining? || d.Stopped? || (d.Answering? && !d.after.ToHead?)
  }

  /** Admission order is hand-over order, then what is being assigned, what was dropped, what is still queued. */
  ghost predicate InOrder(d: Dispatcher, queue: seq<Entry>, admitted: seq<Job>, handed: seq<Job>, dropped: seq<Job>) {
    && admitted == handed + BeingAssigned(d) + dropped + Jobs(KeptOf(d, queue))
    && (dropped != [] ==> Stopping(d))
  }

  ghost predicate FlowInv(s: State) {
    InOrder(s.dispatcher, s.queue, s.admitted, s.handed, s.dropped) && Distinct(s.admitted)
  }

  // ---------- Workers ----------

  predicate Has(w: Worker, j: Job) {
    (w.Holding? || w.Running?) && w.job == j
  }

  ghost predicate AtSomeWorker(workers: seq<Worker>, j: Job) {
    exists w :: 0 <= w < |workers| && Has(workers[w], j)
  }

  /** Which workers have the job, and what is recorded about it. */
  ghost predicate WorkRecord(workers: seq<Worker>, handed: seq<Job>, started: seq<Job>, finished: set<Job>,
                             late: set<Job>, j: Job) {
    && (forall w :: 0 <= w < |workers| && Has(workers[w], j) ==>
          j in handed && j !in finished && j !in late && (workers[w].Running? <==> j in started))
    && (forall v, w :: 0 <= v < w < |workers| && Has(workers[v], j) ==> !Has(workers[w], j))
    && (j in handed ==> j in finished || j in late || AtSomeWorker(workers, j))
    && (j in finished || j in late || j in started ==> j in handed)
    && (j in finished ==> j in started)
    && (j in late ==> j !in started)
  }

  ghost predicate WorkInv(s: State, j: Job) {
    WorkRecord(s.workers, s.handed, s.started, s.finished, s.late, j)
  }

  ghost predicate WorkersInv(s: State) {
    (forall j :: WorkInv(s, j)) && Distinct(s.started)
  }

  predicate AtRest(w: Worker) {
    w.Parked? || w.Exited?
  }

  /** Idle workers wait for a task or have gone; nothing stops unless the server does. */
  ghost predicate Pool(d: Dispatcher, idle: seq<nat>, workers: seq<Worker>) {
    && (forall i :: 0 <= i < |idle| ==> idle[i] < |workers| && AtRest(workers[idle[i]]))
    && Distinct(idle)
    && (d.Assigning? ==> d.worker < |workers| && AtRest(workers[d.worker]) && d.worker !in idle)
  }

  ghost predicate PoolInv(s: State) {
    && Pool(s.dispatcher, s.idle, s.workers)
    && (forall w :: 0 <= w < |s.workers| && s.workers[w].Exited? ==> s.shutdown)
    && (Stopping(s.dispatcher) ==> s.shutdown)
    && (!s.shutdown ==> s.late == {} && Serving(s.dispatcher, s.idle, s.workers))
  }

  /** A worker that waits for a task is known to the dispatcher. */
  ghost predicate Serving(d: Dispatcher, idle: seq<nat>, workers: seq<Worker>) {
    forall w :: 0 <= w < |workers| && workers[w].Parked? ==> w in idle || (d.Assigning? && d.worker == w)
  }

  // ---------- Releases ----------

  ghost predicate Ended(s: State, j: Job) {
    j in s.finished || j in s.late || j in s.dropped
  }

  ghost predicate ReleaseInv(s: State, j: Job) {
    && (j in s.admitted ==> (j in s.released <==> Ended(s, j)))
    && (Ended(s, j) ==> j in s.admitted)
    && s.releaseRuns[j] == if j in s.released then 1 else 0
  }

  ghost predicate ReleasesInv(s: State) {
    forall j :: ReleaseInv(s, j)
  }

  ghost predicate Inv(c: Config, s: State) {
    QueueInv(c, s) && CallersInv(s) && FlowInv(s) && WorkersInv(s) && PoolInv(s) && ReleasesInv(s)
  }

  // ---------- Every step keeps it ----------

  lemma {:induction false} InitialInv(c: Config)
    ensures Inv(c, Initial(c))
  {
    var s := Initial(c);
    assert Jobs(s.queue) == [];
    assert forall w :: 0 <= w < |s.workers| ==> s.workers[w] == Available;
    forall j ensures CallerInv(s, j) && WorkInv(s, j) && ReleaseInv(s, j) {
    }
  }

  /** The request in hand is turned away. */
  predicate Refuses(step: DecideStep) {
    step.WaitStops? || step.WaitExpires? || step.Abandon?
  }

  predicate Chooses(step: DecideStep) {
    step.Classify? || step.CheckWait? || step.Admit?
  }

  /** What the invariant says about the jobs a step may move. */
  ghost predicate Context(s: State) {
    && (s.dispatcher.Assigning? ==> s.dispatcher.entry.job in s.admitted && !s.dispatcher.entry.live)
    && (s.dispatcher.Rejecting? && s.queue != [] ==> s.queue[0].job in s.admitted && !s.queue[0].live)
    && (s.dispatcher.Answering? ==> Refusal(s.dispatcher))
    && (s.dispatcher.Stopped? ==> s.shutdown)
    && (forall w :: 0 <= w < |s.workers| && (s.workers[w].Holding? || s.workers[w].Running?) ==>
          s.workers[w].job in s.admitted)
  }

  lemma {:induction false} CallerAfterOutside(s: State, step: OutsideStep, j: Job)
    requires CallerInv(s, j) && Context(s) && OutsideEnabled(s, step)
    ensures CallerInv(ApplyOutside(s, step), j)
  {
  }

  lemma {:induction false} CallerAfterJoint(c: Config, s: State, step: JointStep, j: Job)
    requires CallerInv(s, j) && Context(s) && JointEnabled(c, s, step)
    ensures CallerInv(ApplyJoint(c, s, step), j)
  {
    if step.WorkerReady? || step.HandOver? {
      CallerAfterWorkers(c, s, step, j);
    }
  }

  lemma {:induction false} CallerAfterWorkers(c: Config, s: State, step: JointStep, j: Job)
    requires CallerInv(s, j) && JointEnabled(c, s, step) && (step.WorkerReady? || step.HandOver?)
    ensures CallerInv(ApplyJoint(c, s, step), j)
  {
  }

  lemma {:induction false} CallerAfterDecide(c: Config, s: State, step: DecideStep, j: Job)
    requires CallerInv(s, j) && Context(s) && DecideEnabled(c, s, step)
    ensures CallerInv(ApplyDecide(c, s, step), j)
  {
    match step
    case WaitOver => CallerAfterTurn(c, s, step, j);
    case ConfirmTimesOut => CallerAfterTurn(c, s, step, j);
    case AnswerTimesOut => CallerAfterTurn(c, s, step, j);
    case _ =>
  }

  lemma {:induction false} CallerAfterTurn(c: Config, s: State, step: DecideStep, j: Job)
    requires CallerInv(s, j) && DecideEnabled(c, s, step) && (s.dispatcher.Answering? ==> Refusal(s.dispatcher))
    requires step.WaitOver? || step.ConfirmTimesOut? || step.AnswerTimesOut?
    ensures CallerInv(ApplyDecide(c, s, step), j)
  {
  }

  lemma {:induction false} CallerAfterDispatch(c: Config, s: State, step: QueueStep, j: Job)
    requires CallerInv(s, j) && Context(s) && DispatchEnabled(s, step)
    ensures CallerInv(ApplyDispatch(c, s, step), j)
  {
    if step.AssignFails? || step.RejectNext? {
      CallerAfterDispatchDrop(c, s, step, j);
    }
  }

  lemma {:induction false} CallerAfterDispatchDrop(c: Config, s: State, step: QueueStep, j: Job)
    requires CallerInv(s, j) && Context(s) && DispatchEnabled(s, step)
    requires step.AssignFails? || step.RejectNext?
    ensures CallerInv(ApplyDispatch(c, s, step), j)
  {
  }

  lemma {:induction false} CallerAfterWork(s: State, step: WorkerStep, j: Job)
    requires CallerInv(s, j) && Context(s) && WorkEnabled(s, step)
    ensures CallerInv(ApplyWork(s, step), j)
  {
  }

  lemma {:induction false} ReleaseAfterOutside(s: State, step: OutsideStep, j: Job)
    requires CallerInv(s, j) && ReleaseInv(s, j) && Context(s) && OutsideEnabled(s, step)
    ensures ReleaseInv(ApplyOutside(s, step), j)
  {
  }

  lemma {:induction false} ReleaseAfterJoint(c: Config, s: State, step: JointStep, j: Job)
    requires CallerInv(s, j) && ReleaseInv(s, j) && Context(s) && JointEnabled(c, s, step)
    ensures ReleaseInv(ApplyJoint(c, s, step), j)
  {
  }

  lemma {:induction false} ReleaseAfterDecide(c: Config, s: State, step: DecideStep, j: Job)
    requires CallerInv(s, j) && ReleaseInv(s, j) && Context(s) && DecideEnabled(c, s, step)
    ensures ReleaseInv(ApplyDecide(c, s, step), j)
  {
    if Refuses(step) {
      ReleaseAfterDecideRefusal(c, s, step, j);
    } else if Chooses(step) {
      ReleaseAfterDecideChoice(c, s, step, j);
    }
  }

  lemma {:induction false} ReleaseAfterDecideRefusal(c: Config, s: State, step: DecideStep, j: Job)
    requires CallerInv(s, j) && ReleaseInv(s, j) && Context(s) && DecideEnabled(c, s, step) && Refuses(step)
    ensures ReleaseInv(ApplyDecide(c, s, step), j)
  {
  }

  lemma {:induction false} ReleaseAfterDecideChoice(c: Config, s: State, step: DecideStep, j: Job)
    requires CallerInv(s, j) && ReleaseInv(s, j) && Context(s) && DecideEnabled(c, s, step) && Chooses(step)
    ensures ReleaseInv(ApplyDecide(c, s, step), j)
  {
  }

  lemma {:induction false} ReleaseAfterDispatch(c: Config, s: State, step: QueueStep, j: Job)
    requires CallerInv(s, j) && ReleaseInv(s, j) && Context(s) && DispatchEnabled(s, step)
    ensures ReleaseInv(ApplyDispatch(c, s, step), j)
  {
    if step.AssignFails? || step.RejectNext? {
      ReleaseAfterDispatchDrop(c, s, step, j);
    }
  }

  lemma {:induction false} ReleaseAfterDispatchDrop(c: Config, s: State, step: QueueStep, j: Job)
    requires CallerInv(s, j) && ReleaseInv(s, j) && Context(s) && DispatchEnabled(s, step)
    requires step.AssignFails? || step.RejectNext?
    ensures ReleaseInv(ApplyDispatch(c, s, step), j)
  {
  }

  lemma {:induction false} ReleaseAfterWork(s: State, step: WorkerStep, j: Job)
    requires CallerInv(s, j) && ReleaseInv(s, j) && Context(s) && WorkEnabled(s, step)
    ensures ReleaseInv(ApplyWork(s, step), j)
  {
  }

  lemma {:induction false} WorkAfterDispatch(c: Config, s: State, step: QueueStep, j: Job)
    requires WorkInv(s, j) && DispatchEnabled(s, step)
    ensures WorkInv(ApplyDispatch(c, s, step), j)
  {
  }

  /** The job being assigned has not been handed over before. */
  lemma {:induction false} AssignedIsNew(s: State)
    requires FlowInv(s) && s.dispatcher.Assigning?
    ensures s.dispatcher.entry.job !in s.handed
  {
    assert s.admitted[|s.handed|] == s.dispatcher.entry.job;
    assert forall i :: 0 <= i < |s.handed| ==> s.admitted[i] == s.handed[i];
  }

  lemma {:induction false} WorkAfterHandOver(c: Config, s: State, j: Job)
    requires WorkInv(s, j) && JointEnabled(c, s, HandOver) && s.dispatcher.entry.job !in s.handed
    ensures WorkInv(ApplyJoint(c, s, HandOver), j)
  {
    var s' := ApplyJoint(c, s, HandOver);
    assert s'.workers[s.dispatcher.worker] == Holding(s.dispatcher.entry.job);
    if AtSomeWorker(s.workers, j) {
      var w :| 0 <= w < |s.workers| && Has(s.workers[w], j);
      assert Has(s'.workers[w], j);
    }
  }

  lemma {:induction false} WorkAfterJoint(c: Config, s: State, step: JointStep, j: Job)
    requires WorkInv(s, j) && JointEnabled(c, s, step) && !step.HandOver?
    ensures WorkInv(ApplyJoint(c, s, step), j)
  {
    if AtSomeWorker(s.workers, j) && step.WorkerReady? {
      var w :| 0 <= w < |s.workers| && Has(s.workers[w], j);
      assert Has(ApplyJoint(c, s, step).workers[w], j);
    }
  }

  lemma {:induction false} WorkAfterWork(s: State, step: WorkerStep, j: Job)
    requires WorkInv(s, j) && WorkEnabled(s, step)
    ensures WorkInv(ApplyWork(s, step), j)
  {
    var s' := ApplyWork(s, step);
    if AtSomeWorker(s.workers, j) {
      var w :| 0 <= w < |s.workers| && Has(s.workers[w], j);
      assert w != step.worker ==> Has(s'.workers[w], j);
      assert step.Begins? && !s.shutdown ==> Has(s'.workers[step.worker], s.workers[step.worker].job);
    }
  }

  lemma {:induction false} PoolReady(d: Dispatcher, idle: seq<nat>, workers: seq<Worker>, w: nat)
    requires Pool(d, idle, workers) && w < |workers| && workers[w].Available? && !d.Assigning?
    ensures w !in idle && Pool(d, idle + [w], workers[w := Parked])
    ensures forall after: Dispatcher :: !after.Assigning? || after.worker == w ==>
              Pool(after, idle, workers[w := Parked])
  {
  }

  lemma {:induction false} PoolHandOver(d: Dispatcher, idle: seq<nat>, workers: seq<Worker>, after: Dispatcher,
                                        next: Worker)
    requires Pool(d, idle, workers) && d.Assigning? && !after.Assigning?
    ensures Pool(after, idle, workers[d.worker := next])
  {
  }

  lemma {:induction false} PoolAfterJoint(c: Config, s: State, step: JointStep)
    requires PoolInv(s) && JointEnabled(c, s, step)
    ensures PoolInv(ApplyJoint(c, s, step))
  {
    var s' := ApplyJoint(c, s, step);
    match step
    case WorkerReady(w) => PoolReady(s.dispatcher, s.idle, s.workers, w);
    case HandOver => PoolHandOver(s.dispatcher, s.idle, s.workers, s'.dispatcher, s'.workers[s.dispatcher.worker]);
    case _ => assert s'.workers == s.workers && s'.idle == s.idle;
  }

  lemma {:induction false} PoolAfterDecide(c: Config, s: State, step: DecideStep)
    requires PoolInv(s) && DecideEnabled(c, s, step)
    ensures PoolInv(ApplyDecide(c, s, step))
  {
    DecideLeavesWorkers(c, s, step);
    DecideStops(c, s, step);
  }

  /** What the dispatcher has, and what became of admitted jobs. */
  ghost predicate SameQueue(s: State, s': State) {
    && s'.dispatcher == s.dispatcher && s'.queue == s.queue && s'.depths == s.depths && s'.idle == s.idle
    && s'.admitted == s.admitted && s'.handed == s.handed && s'.dropped == s.dropped
  }

  /** What workers do and have done. */
  ghost predicate SameWork(s: State, s': State) {
    && s'.workers == s.workers && s'.handed == s.handed && s'.started == s.started
    && s'.finished == s.finished && s'.late == s.late
  }

  lemma {:induction false} OutsideLeaves(s: State, step: OutsideStep)
    requires OutsideEnabled(s, step)
    ensures SameQueue(s, ApplyOutside(s, step)) && SameWork(s, ApplyOutside(s, step))
    ensures s.shutdown ==> ApplyOutside(s, step).shutdown
  {
  }

  /** Deciding about a request changes nothing about workers. */
  lemma {:induction false} DecideLeavesWorkers(c: Config, s: State, step: DecideStep)
    requires DecideEnabled(c, s, step)
    ensures var s' := ApplyDecide(c, s, step);
            SameWork(s, s') && s'.idle == s.idle && s'.shutdown == s.shutdown
  {
    var released := Release(s, s.dispatcher.job);
    assert SameWork(s, released) && released.idle == s.idle;
  }

  /** It stops the dispatcher only at shutdown. */
  lemma {:induction false} DecideStops(c: Config, s: State, step: DecideStep)
    requires DecideEnabled(c, s, step)
    ensures var d, d' := s.dispatcher, ApplyDecide(c, s, step).dispatcher;
            !d.Assigning? && !d'.Assigning? && (Stopping(d') ==> s.shutdown || Stopping(d))
  {
  }

  lemma {:induction false} PoolBegin(d: Dispatcher, idle: seq<nat>, workers: seq<Worker>, after: Dispatcher)
    requires Pool(d, idle, workers) && idle != [] && after.Assigning? && after.worker == idle[0]
    ensures Pool(after, idle[1..], workers)
  {
    assert forall i :: 0 <= i < |idle[1..]| ==> idle[1..][i] == idle[i + 1];
  }

  lemma {:induction false} PoolAfterDispatch(c: Config, s: State, step: QueueStep)
    requires PoolInv(s) && DispatchEnabled(s, step)
    ensures PoolInv(ApplyDispatch(c, s, step))
  {
    var s' := ApplyDispatch(c, s, step);
    if step.BeginAssign? {
      PoolBegin(s.dispatcher, s.idle, s.workers, s'.dispatcher);
    } else {
      assert s'.idle == s.idle && !s'.dispatcher.Assigning?;
    }
  }

  lemma {:induction false} PoolAfterWork(s: State, step: WorkerStep)
    requires PoolInv(s) && WorkEnabled(s, step)
    ensures PoolInv(ApplyWork(s, step))
  {
  }

  lemma {:induction false} FlowAfterAssign(c: Config, s: State, w: nat, pending: Option<Job>)
    requires FlowInv(s) && !Stopping(s.dispatcher) && s.queue != []
    requires !s.dispatcher.Assigning? && !s.dispatcher.Confirming?
    ensures FlowInv(Assign(c, s, w, pending))
  {
    PopJobs(s.queue);
    Regroup(s.handed, [], s.queue[0].job, Jobs(s.queue[1..]));
    assert Kept(s) == s.queue && s.dropped == [] && BeingAssigned(s.dispatcher) == [];
  }

  lemma {:induction false} FlowAfterJoint(c: Config, s: State, step: JointStep)
    requires FlowInv(s) && JointEnabled(c, s, step) && !step.ConfirmDelivered?
    ensures FlowInv(ApplyJoint(c, s, step))
  {
    if step.WorkerReady? && s.dispatcher.Waiting? {
      FlowAfterAssign(c, s.(workers := s.workers[step.worker := Parked]), step.worker, Some(s.dispatcher.job));
    }
  }

  lemma {:induction false} FlowAfterAdmit(c: Config, s: State)
    requires FlowInv(s) && s.dispatcher.Admitting? && !s.shutdown
    ensures FlowInv(ApplyDecide(c, s, Admit))
  {
    var s' := ApplyDecide(c, s, Admit);
    assert Kept(s') == s.queue;
  }

  /** Order depends on the dispatcher only through what it assigns, keeps unconfirmed, or has dropped. */
  lemma {:induction false} InOrderFrame(d: Dispatcher, d': Dispatcher, s: State, s': State)
    requires InOrder(d, s.queue, s.admitted, s.handed, s.dropped) && KeptOf(d', s'.queue) == KeptOf(d, s.queue)
    requires !d.Assigning? && !d'.Assigning? && (Stopping(d) ==> Stopping(d'))
    requires s'.admitted == s.admitted && s'.handed == s.handed && s'.dropped == s.dropped
    ensures InOrder(d', s'.queue, s'.admitted, s'.handed, s'.dropped)
  {
  }

  lemma {:induction false} FlowAfterDecide(c: Config, s: State, step: DecideStep)
    requires FlowInv(s) && DecideEnabled(c, s, step) && (step.Admit? ==> s.shutdown)
    ensures FlowInv(ApplyDecide(c, s, step))
  {
    var s' := ApplyDecide(c, s, step);
    InOrderFrame(s.dispatcher, s'.dispatcher, s, s');
  }

  lemma {:induction false} PopJobs(queue: seq<Entry>)
    requires queue != []
    ensures Jobs(queue) == [queue[0].job] + Jobs(queue[1..])
    ensures Jobs(queue)[1..] == Jobs(queue[1..])
  {
  }

  lemma {:induction false} Regroup(a: seq<Job>, b: seq<Job>, x: Job, rest: seq<Job>)
    ensures a + [] + b + ([x] + rest) == a + [] + (b + [x]) + rest
    ensures a + [] + [] + ([x] + rest) == a + [x] + [] + rest
  {
  }

  lemma {:induction false} FlowAfterReject(c: Config, s: State)
    requires FlowInv(s) && s.dispatcher.Rejecting? && (s.queue != [] ==> !s.queue[0].live)
    ensures FlowInv(ApplyDispatch(c, s, RejectNext))
  {
    if s.queue != [] {
      PopJobs(s.queue);
      Regroup(s.handed, s.dropped, s.queue[0].job, Jobs(s.queue[1..]));
    }
  }

  lemma {:induction false} FlowAfterDispatch(c: Config, s: State, step: QueueStep)
    requires FlowInv(s) && DispatchEnabled(s, step) && !step.RejectNext?
    requires s.dispatcher.Assigning? ==> !s.dispatcher.entry.live
    ensures FlowInv(ApplyDispatch(c, s, step))
  {
    if step.BeginAssign? {
      FlowAfterAssign(c, s, s.idle[0], None);
    }
  }

  // ---------- The queue's own invariant ----------

  /** Taking the oldest entry out. */
  lemma {:induction false} AfterPop(c: Config, s: State)
    requires QueueInv(c, s) && s.queue != [] && !s.dispatcher.Confirming?
    ensures Counted(c, s.queue[1..], Unqueue(c, s, s.queue[0]))
    ensures forall j :: RoomFor(c, s.queue, j) ==> RoomFor(c, s.queue[1..], j)
    ensures Settled(s.queue[1..])
  {
    PopJobs(s.queue);
    MatchesPop(s.depths, c.tenantKey, Jobs(s.queue));
  }

  lemma {:induction false} QueueAfterConfirm(c: Config, s: State)
    requires QueueInv(c, s) && JointEnabled(c, s, ConfirmDelivered)
    ensures QueueInv(c, ApplyJoint(c, s, ConfirmDelivered))
  {
    var queue := ApplyJoint(c, s, ConfirmDelivered).queue;
    assert Jobs(queue) == Jobs(s.queue);
    assert queue == Kept(s) + [Entry(s.dispatcher.job, false, true)];
  }

  lemma {:induction false} QueueAfterJoint(c: Config, s: State, step: JointStep)
    requires QueueInv(c, s) && JointEnabled(c, s, step) && !step.ConfirmDelivered?
    ensures QueueInv(c, ApplyJoint(c, s, step))
  {
    if step.WorkerReady? && s.dispatcher.Waiting? {
      AfterPop(c, s);
    }
  }

  lemma {:induction false} QueueAfterReject(c: Config, s: State)
    requires QueueInv(c, s) && s.dispatcher.Rejecting?
    ensures QueueInv(c, ApplyDispatch(c, s, RejectNext))
  {
    if s.queue != [] {
      AfterPop(c, s);
    }
  }

  lemma {:induction false} QueueAfterDispatch(c: Config, s: State, step: QueueStep)
    requires QueueInv(c, s) && DispatchEnabled(s, step)
    ensures QueueInv(c, ApplyDispatch(c, s, step))
  {
    if step.RejectNext? {
      QueueAfterReject(c, s);
    } else if step.BeginAssign? {
      AfterPop(c, s);
    }
  }

  lemma {:induction false} QueueAfterAdmit(c: Config, s: State)
    requires QueueInv(c, s) && s.dispatcher.Admitting? && !s.shutdown
    ensures QueueInv(c, ApplyDecide(c, s, Admit))
  {
    var queue, j := ApplyDecide(c, s, Admit).queue, s.dispatcher.job;
    assert Jobs(queue) == Jobs(s.queue) + [j];
    MatchesAppend(s.depths, c.tenantKey, Jobs(s.queue), j);
    forall t | t != "" ensures CountOf(c.tenantKey, Jobs(queue), t) <= Share(c.Capacity()) {
      CountAppend(c.tenantKey, Jobs(s.queue), j, t);
    }
    assert queue[..|queue| - 1] == s.queue;
  }

  lemma {:induction false} QueueAfterUnconfirmed(c: Config, s: State)
    requires QueueInv(c, s) && DecideEnabled(c, s, ConfirmTimesOut)
    ensures QueueInv(c, ApplyDecide(c, s, ConfirmTimesOut))
  {
    var queue, j := Kept(s), s.dispatcher.job;
    assert Jobs(s.queue) == Jobs(queue) + [j];
    MatchesUnappend(s.depths, c.tenantKey, Jobs(queue), j);
    forall t | t != "" ensures CountOf(c.tenantKey, Jobs(queue), t) <= Share(c.Capacity()) {
      CountAppend(c.tenantKey, Jobs(queue), j, t);
    }
  }

  lemma {:induction false} QueueAfterDecide(c: Config, s: State, step: DecideStep)
    requires QueueInv(c, s) && DecideEnabled(c, s, step)
    ensures QueueInv(c, ApplyDecide(c, s, step))
  {
    match step
    case Classify =>
    case ConfirmTimesOut => QueueAfterUnconfirmed(c, s);
    case Admit =>
      if !s.shutdown {
        QueueAfterAdmit(c, s);
      }
    case _ =>
      if Refuses(step) {
        QueueAfterRefusal(c, s, step);
      } else {
        QueueAfterMove(c, s, step);
      }
  }

  lemma {:induction false} QueueAfterRefusal(c: Config, s: State, step: DecideStep)
    requires QueueInv(c, s) && DecideEnabled(c, s, step) && Refuses(step)
    ensures QueueInv(c, ApplyDecide(c, s, step))
  {
  }

  lemma {:induction false} QueueAfterMove(c: Config, s: State, step: DecideStep)
    requires QueueInv(c, s) && DecideEnabled(c, s, step) && (step.WaitOver? || step.AnswerTimesOut? || step.CheckWait?)
    ensures QueueInv(c, ApplyDecide(c, s, step))
  {
  }
}
