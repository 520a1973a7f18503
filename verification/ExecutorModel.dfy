/**
 * The workspace job executor as a state machine: any number of callers, one dispatcher, a pool of
 * workers.  Each Go select is a choice among enabled steps; each unbuffered channel operation is one
 * joint step of sender and receiver.
 */
module ExecutorModel {
  import opened Collections
  import opened TenantDepths

  /** tenantKey(j) is the trimmed tenant of job j; a queue holds twice as many requests as there are workers. */
  datatype Config = Config(concurrency: int, tenantKey: Job -> string) {
    function Workers(): (r: nat)
      ensures r > 0
    {
      if concurrency <= 0 then 4 else concurrency
    }

    function Capacity(): (r: nat)
      ensures r > 0
    {
      2 * Workers()
    }
  }

  datatype Answer = Accepted | ShuttingDown | TenantQueueFull | TimedOut | Cancelled | NotAccepting

  /** One call of enqueueWorkspaceJob: the two selects of Enqueue, its return, and the release on error. */
  datatype Caller = Absent | Offering | Awaiting | Returned(answer: Answer) | Finished(answer: Answer)

  /** A queue entry: `live` while its result channel is set, `stamped` once enqueuedAt is set. */
  datatype Entry = Entry(job: Job, live: bool, stamped: bool)

  datatype Worker = Available | Parked | Holding(job: Job) | Running(job: Job) | Exited

  /** Where the dispatcher goes after an answer. */
  datatype After = ToHead | ToReject | ToDrain | ToAbandon(job: Job)

  datatype Dispatcher =
    | Head
    | Assigning(worker: nat, entry: Entry, pending: Option<Job>)
    | Received(job: Job)
    | Waiting(job: Job)
    | Checking(job: Job)
    | Admitting(job: Job)
    | Confirming(job: Job)
    | Answering(job: Job, answer: Answer, after: After)
    | Abandoning(job: Job)
    | Rejecting
    | Draining
    | Stopped

  datatype State = State(
    shutdown: bool,
    callers: map<Job, Caller>,
    cancelled: set<Job>,
    /** Wait contexts that have ended, and those of them that ended by their deadline. */
    waitDone: set<Job>,
    expired: set<Job>,
    dispatcher: Dispatcher,
    queue: seq<Entry>,
    idle: seq<nat>,
    depths: Depths,
    workers: seq<Worker>,
    /** onceCancel: the release functions that have been called, and how often each action ran. */
    released: set<Job>,
    releaseRuns: multiset<Job>,
    /** History: admitted and handed over in order, dropped by the dispatcher at shutdown, and what workers did. */
    admitted: seq<Job>,
    handed: seq<Job>,
    dropped: seq<Job>,
    late: set<Job>,
    started: seq<Job>,
    finished: set<Job>)

  function CallerOf(s: State, j: Job): Caller {
    if j in s.callers then s.callers[j] else Absent
  }

  function Jobs(queue: seq<Entry>): (r: seq<Job>)
    ensures |r| == |queue| && forall i :: 0 <= i < |r| ==> r[i] == queue[i].job
  {
    seq(|queue|, i requires 0 <= i < |queue| => queue[i].job)
  }

  function Initial(c: Config): State {
    State(false, map[], {}, {}, {}, Head, [], [], map[], seq(c.Workers(), _ => Available),
          {}, multiset{}, [], [], [], {}, [], {})
  }

  // ---------- Building blocks ----------

  /** task.cleanup through onceCancel. */
  function Release(s: State, j: Job): State {
    if j in s.released then s
    else s.(released := s.released + {j}, releaseRuns := s.releaseRuns + multiset{j})
  }

  function Resumed(after: After): Dispatcher {
    match after
    case ToHead => Head
    case ToReject => Rejecting
    case ToDrain => Draining
    case ToAbandon(j) => Abandoning(j)
  }

  /** respond on a queue entry: at once if its result channel is gone. */
  function RespondTo(e: Entry, answer: Answer, after: After): Dispatcher {
    if e.live then Answering(e.job, answer, after) else Resumed(after)
  }

  function Unqueue(c: Config, s: State, e: Entry): Depths {
    if e.stamped then Adjust(s.depths, c.tenantKey(e.job), -1) else s.depths
  }

  /** The caller takes an answer and returns; the deferred cancel ends its wait context. */
  function Return(s: State, j: Job, answer: Answer): State {
    s.(callers := s.callers[j := Returned(answer)], waitDone := s.waitDone + {j})
  }

  /** Release the job and answer its caller. */
  function Refuse(s: State, j: Job, answer: Answer, after: After): State {
    Release(s, j).(dispatcher := Answering(j, answer, after))
  }

  /** waitErr, for a wait that has ended. */
  function WaitAnswer(s: State, j: Job): Answer {
    if j in s.expired then TimedOut else Cancelled
  }

  // ---------- Steps ----------

  /** Server shutdown, a caller's context, its enqueue timeout; and the callers themselves. */
  datatype OutsideStep =
    | Shutdown
    | CancelCaller(job: Job)
    | EndWait(job: Job, byDeadline: bool)
    | Submit(job: Job)
    | GiveUp(job: Job, answer: Answer)
    | CallerEnds(job: Job)

  /** Joint steps of the dispatcher with a caller or a worker. */
  datatype JointStep =
    | TakeOffer(job: Job)
    | DrainOffer(job: Job)
    | WorkerReady(worker: nat)
    | HandOver
    | ConfirmDelivered
    | AnswerDelivered

  /** The dispatcher alone, deciding about the request in hand. */
  datatype DecideStep =
    | Classify
    | WaitStops
    | WaitExpires
    | WaitOver
    | CheckWait
    | Admit
    | ConfirmTimesOut
    | AnswerTimesOut
    | Abandon

  /** The dispatcher alone, working through its queue. */
  datatype QueueStep = BeginAssign | AssignFails | HeadStops | RejectNext | DrainEnds

  datatype WorkerStep = Exits(worker: nat) | Begins(worker: nat) | Ends(worker: nat)

  datatype Step =
    | Outside(outside: OutsideStep)
    | Joint(joint: JointStep)
    | Decide(decide: DecideStep)
    | Dispatch(dispatch: QueueStep)
    | Work(work: WorkerStep)

  /** The dispatcher is at its main select: no idle worker can be given a queued request. */
  predicate AtSelect(s: State) {
    s.dispatcher.Head? && (s.idle == [] || s.queue == [])
  }

  predicate Full(c: Config, s: State) {
    |s.queue| >= c.Capacity()
  }

  predicate MayGiveUp(s: State, j: Job, answer: Answer) {
    && (CallerOf(s, j).Offering? || CallerOf(s, j).Awaiting?)
    && match answer
       case Cancelled => j in s.cancelled
       case TimedOut => j in s.expired && j !in s.cancelled
       case ShuttingDown => s.dispatcher.Stopped? && s.shutdown
       case NotAccepting => s.dispatcher.Stopped? && !s.shutdown
       case _ => false
  }

  predicate OutsideEnabled(s: State, step: OutsideStep) {
    match step
    case Shutdown => true
    case CancelCaller(j) => true
    case EndWait(j, byDeadline) => !CallerOf(s, j).Absent? && (byDeadline || j in s.cancelled)
    case Submit(j) => CallerOf(s, j).Absent?
    case GiveUp(j, answer) => MayGiveUp(s, j, answer)
    case CallerEnds(j) => CallerOf(s, j).Returned?
  }

  function ApplyOutside(s: State, step: OutsideStep): State
    requires OutsideEnabled(s, step)
  {
    match step
    case Shutdown => s.(shutdown := true)
    case CancelCaller(j) => s.(cancelled := s.cancelled + {j})
    case EndWait(j, byDeadline) =>
      s.(waitDone := s.waitDone + {j}, expired := s.expired + if byDeadline && j !in s.waitDone then {j} else {})
    case Submit(j) => s.(callers := s.callers[j := Offering])
    case GiveUp(j, answer) => Return(s, j, answer)
    case CallerEnds(j) =>
      var answer := CallerOf(s, j).answer;
      var s' := s.(callers := s.callers[j := Finished(answer)]);
      if answer == Accepted then s' else Release(s', j)
  }

  predicate JointEnabled(c: Config, s: State, step: JointStep) {
    var d := s.dispatcher;
    match step
    case TakeOffer(j) => AtSelect(s) && CallerOf(s, j).Offering?
    case DrainOffer(j) => d.Draining? && CallerOf(s, j).Offering?
    case WorkerReady(w) =>
      w < |s.workers| && s.workers[w].Available? && (AtSelect(s) || (d.Waiting? && s.queue != [] && Full(c, s)))
    case HandOver => d.Assigning? && d.worker < |s.workers| && s.workers[d.worker].Parked?
    case ConfirmDelivered => d.Confirming? && CallerOf(s, d.job).Awaiting? && s.queue != []
    case AnswerDelivered => d.Answering? && CallerOf(s, d.job).Awaiting?
  }

  /** Takes the oldest entry out of the queue for worker w. */
  function Assign(c: Config, s: State, w: nat, pending: Option<Job>): State
    requires s.queue != []
  {
    s.(queue := s.queue[1..], depths := Unqueue(c, s, s.queue[0]), dispatcher := Assigning(w, s.queue[0], pending))
  }

  function ApplyJoint(c: Config, s: State, step: JointStep): State
    requires JointEnabled(c, s, step)
  {
    var d := s.dispatcher;
    match step
    case TakeOffer(j) => s.(callers := s.callers[j := Awaiting], dispatcher := Received(j))
    case DrainOffer(j) => Refuse(s.(callers := s.callers[j := Awaiting]), j, ShuttingDown, ToDrain)
    case WorkerReady(w) =>
      var s' := s.(workers := s.workers[w := Parked]);
      if d.Waiting? then Assign(c, s', w, Some(d.job)) else s'.(idle := s.idle + [w])
    case HandOver =>
      s.(workers := s.workers[d.worker := Holding(d.entry.job)], handed := s.handed + [d.entry.job],
         dispatcher := if d.pending.Some? then Waiting(d.pending.value) else Head)
    case ConfirmDelivered =>
      var last := |s.queue| - 1;
      Return(s, d.job, Accepted).(queue := s.queue[last := s.queue[last].(live := false)],
                                  admitted := s.admitted + [d.job], dispatcher := Head)
    case AnswerDelivered => Return(s, d.job, d.answer).(dispatcher := Resumed(d.after))
  }

  predicate DecideEnabled(c: Config, s: State, step: DecideStep) {
    var d := s.dispatcher;
    match step
    case Classify => d.Received?
    case WaitStops => d.Waiting? && Full(c, s) && s.shutdown
    case WaitExpires => d.Waiting? && Full(c, s) && d.job in s.waitDone
    case WaitOver => d.Waiting? && !Full(c, s)
    case CheckWait => d.Checking?
    case Admit => d.Admitting?
    case ConfirmTimesOut => d.Confirming? && d.job in s.waitDone && s.queue != []
    case AnswerTimesOut => d.Answering? && d.job in s.waitDone
    case Abandon => d.Abandoning?
  }

  function ApplyDecide(c: Config, s: State, step: DecideStep): State
    requires DecideEnabled(c, s, step)
  {
    var j := s.dispatcher.job;
    match step
    case Classify =>
      if s.shutdown then s.(dispatcher := Answering(j, ShuttingDown, ToReject))
      else if LimitExceeded(s.depths, c.tenantKey(j), c.Capacity()) then Refuse(s, j, TenantQueueFull, ToHead)
      else s.(dispatcher := Waiting(j))
    case WaitStops => Refuse(s, j, ShuttingDown, ToReject)
    case WaitExpires => Refuse(s, j, WaitAnswer(s, j), ToHead)
    case WaitOver => s.(dispatcher := Checking(j))
    case CheckWait => if j in s.waitDone then Refuse(s, j, WaitAnswer(s, j), ToHead) else s.(dispatcher := Admitting(j))
    case Admit =>
      if s.shutdown then Refuse(s, j, ShuttingDown, ToReject)
      else s.(queue := s.queue + [Entry(j, true, true)], depths := Adjust(s.depths, c.tenantKey(j), 1),
              dispatcher := Confirming(j))
    case ConfirmTimesOut =>
      var last := |s.queue| - 1;
      Release(s, j).(queue := s.queue[..last], depths := Unqueue(c, s, s.queue[last]), dispatcher := Head)
    case AnswerTimesOut => s.(dispatcher := Resumed(s.dispatcher.after))
    case Abandon => Refuse(s, j, ShuttingDown, ToReject)
  }

  predicate DispatchEnabled(s: State, step: QueueStep) {
    var d := s.dispatcher;
    match step
    case BeginAssign => d.Head? && s.idle != [] && s.queue != []
    case AssignFails => d.Assigning? && (s.shutdown || (d.worker < |s.workers| && s.workers[d.worker].Exited?))
    case HeadStops => AtSelect(s) && s.shutdown
    case RejectNext => d.Rejecting?
    case DrainEnds => d.Draining?
  }

  function ApplyDispatch(c: Config, s: State, step: QueueStep): State
    requires DispatchEnabled(s, step)
  {
    match step
    case BeginAssign => Assign(c, s, s.idle[0], None).(idle := s.idle[1..])
    case AssignFails =>
      var d := s.dispatcher;
      var after := if d.pending.Some? then ToAbandon(d.pending.value) else ToReject;
      Release(s, d.entry.job).(dispatcher := RespondTo(d.entry, ShuttingDown, after),
                               dropped := s.dropped + [d.entry.job])
    case HeadStops => s.(dispatcher := Rejecting)
    case RejectNext =>
      if s.queue == [] then s.(depths := map[], dispatcher := Draining)
      else
        var e := s.queue[0];
        Release(s, e.job).(queue := s.queue[1..], depths := Unqueue(c, s, e), dropped := s.dropped + [e.job],
                           dispatcher := RespondTo(e, ShuttingDown, ToReject))
    case DrainEnds => s.(depths := map[], dispatcher := Stopped)
  }

  predicate WorkEnabled(s: State, step: WorkerStep) {
    && step.worker < |s.workers|
    && var w := s.workers[step.worker];
       match step
       case Exits(_) => s.shutdown && (w.Available? || w.Parked?)
       case Begins(_) => w.Holding?
       case Ends(_) => w.Running?
  }

  function ApplyWork(s: State, step: WorkerStep): State
    requires WorkEnabled(s, step)
  {
    var k := step.worker;
    match step
    case Exits(_) => s.(workers := s.workers[k := Exited])
    case Begins(_) =>
      var j := s.workers[k].job;
      if s.shutdown then Release(s, j).(workers := s.workers[k := Exited], late := s.late + {j})
      else s.(workers := s.workers[k := Running(j)], started := s.started + [j])
    case Ends(_) =>
      var j := s.workers[k].job;
      Release(s, j).(workers := s.workers[k := if s.shutdown then Exited else Available], finished := s.finished + {j})
  }

  predicate Enabled(c: Config, s: State, step: Step) {
    match step
    case Outside(o) => OutsideEnabled(s, o)
    case Joint(o) => JointEnabled(c, s, o)
    case Decide(o) => DecideEnabled(c, s, o)
    case Dispatch(o) => DispatchEnabled(s, o)
    case Work(o) => WorkEnabled(s, o)
  }

  function Apply(c: Config, s: State, step: Step): State
    requires Enabled(c, s, step)
  {
    match step
    case Outside(o) => ApplyOutside(s, o)
    case Joint(o) => ApplyJoint(c, s, o)
    case Decide(o) => ApplyDecide(c, s, o)
    case Dispatch(o) => ApplyDispatch(c, s, o)
    case Work(o) => ApplyWork(s, o)
  }

  /** The i-th step is enabled and leads from the i-th state to the next. */
  ghost predicate StepAt(c: Config, states: seq<State>, steps: seq<Step>, i: nat)
    requires i < |steps| && |states| == |steps| + 1
  {
    Enabled(c, states[i], steps[i]) && states[i + 1] == Apply(c, states[i], steps[i])
  }

  /** A run: the states passed through, from the initial one. */
  ghost predicate Run(c: Config, states: seq<State>, steps: seq<Step>) {
    && |states| == |steps| + 1
    && states[0] == Initial(c)
    && forall i :: 0 <= i < |steps| ==> StepAt(c, states, steps, i)
  }
}
