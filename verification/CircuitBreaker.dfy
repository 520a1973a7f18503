/** One endpoint's connector circuit, with the full history of what happened on it (circuit_breaker.go). */
module CircuitBreaker {

  datatype CircuitState = Closed | Open | HalfOpen

  datatype Config = Config(failureThreshold: int, failureWindow: int, openDuration: int)

  const MINUTE := 60_000_000_000

  /** The defaults that replace settings which are not positive. */
  function Normalized(config: Config): (r: Config)
    ensures r.failureThreshold > 0 && r.failureWindow > 0 && r.openDuration > 0
    ensures config.failureThreshold > 0 && config.failureWindow > 0 && config.openDuration > 0 ==> r == config
  {
    Config(if config.failureThreshold <= 0 then 5 else config.failureThreshold,
           if config.failureWindow <= 0 then MINUTE else config.failureWindow,
           if config.openDuration <= 0 then MINUTE else config.openDuration)
  }

  /** What happens on a circuit; Started is a downstream call let through, Checked a prune without a call. */
  datatype Event =
    | Started(call: nat, at: int)
    | Refused(at: int)
    | Failed(call: nat, at: int)
    | Opened(at: int, until: int)
    | Succeeded(call: nat, at: int)
    | Checked(at: int)

  // ---------- What the history says ----------

  /** The failures since the last success, oldest first. */
  function FailuresSinceSuccess(log: seq<Event>): seq<int> {
    if log == [] then []
    else
      match log[|log| - 1]
      case Failed(_, at) => FailuresSinceSuccess(log[..|log| - 1]) + [at]
      case Succeeded(_, _) => []
      case _ => FailuresSinceSuccess(log[..|log| - 1])
  }

  /** When failures were last pruned. */
  function LastPrune(log: seq<Event>): int {
    if log == [] then 0
    else if log[|log| - 1].Succeeded? || log[|log| - 1].Opened? then LastPrune(log[..|log| - 1])
    else log[|log| - 1].at
  }

  /** The times after the cutoff, in order. */
  function After(times: seq<int>, cutoff: int): (r: seq<int>)
    ensures |r| <= |times|
  {
    if times == [] then []
    else
      var kept := After(times[..|times| - 1], cutoff);
      if times[|times| - 1] > cutoff then kept + [times[|times| - 1]] else kept
  }

  /** Pruning again gives what pruning the whole list gives. */
  lemma {:induction false} AfterAgain(times: seq<int>, early: int, late: int)
    requires times == [] || early <= late
    ensures After(After(times, early), late) == After(times, late)
  {
    if times != [] {
      var rest, last := times[..|times| - 1], times[|times| - 1];
      AfterAgain(rest, early, late);
      if last > early {
        assert After(times, early)[..|After(times, early)| - 1] == After(rest, early);
      }
    }
  }

  lemma {:induction false} AfterAppend(times: seq<int>, t: int, cutoff: int)
    ensures After(times + [t], cutoff) == After(times, cutoff) + if t > cutoff then [t] else []
  {
    assert (times + [t])[..|times|] == times;
  }

  ghost predicate Ordered(log: seq<Event>) {
    forall i, k :: 0 <= i < k < |log| ==> log[i].at <= log[k].at
  }

  ghost predicate NotBefore(log: seq<Event>, now: int) {
    forall i :: 0 <= i < |log| ==> log[i].at <= now
  }

  ghost predicate StartedBefore(log: seq<Event>, call: nat, k: int)
    requires k <= |log|
  {
    exists s :: 0 <= s < k && log[s].Started? && log[s].call == call
  }

  /** A result belongs to a call that was let through. */
  ghost predicate ResultsOfCalls(log: seq<Event>) {
    forall m {:trigger StartedBefore(log, log[m].call, m)} ::
      0 <= m < |log| && (log[m].Succeeded? || log[m].Failed?) ==> StartedBefore(log, log[m].call, m)
  }

  /** Between i and k a call that started before i succeeded. */
  ghost predicate ClosedByEarlierCall(log: seq<Event>, i: nat, k: nat)
    requires i < k <= |log|
  {
    exists m :: i < m < k && log[m].Succeeded? && StartedBefore(log, log[m].call, i)
  }

  /**
   * No downstream call starts before an opening has run out, unless the success of an earlier-started call
   * closed the circuit.
   */
  ghost predicate OpeningsRespected(log: seq<Event>) {
    forall i, k {:trigger ClosedByEarlierCall(log, i, k)} ::
      0 <= i < k < |log| && log[i].Opened? && log[k].Started? && log[k].at < log[i].until ==>
          ClosedByEarlierCall(log, i, k)
  }

  ghost predicate NoSuccessSince(log: seq<Event>, i: nat) {
    forall m :: i < m < |log| ==> !log[m].Succeeded?
  }

  lemma {:induction false} StartedStays(log: seq<Event>, e: Event, call: nat, k: nat)
    requires k <= |log| && StartedBefore(log, call, k)
    ensures StartedBefore(log + [e], call, k)
  {
    var s :| 0 <= s < k && log[s].Started? && log[s].call == call;
    assert (log + [e])[s] == log[s];
  }

  lemma {:induction false} ClosedStays(log: seq<Event>, e: Event, i: nat, k: nat)
    requires i < k <= |log| && ClosedByEarlierCall(log, i, k)
    ensures ClosedByEarlierCall(log + [e], i, k)
  {
    var m :| i < m < k && log[m].Succeeded? && StartedBefore(log, log[m].call, i);
    StartedStays(log, e, log[m].call, i);
    assert (log + [e])[m] == log[m];
  }

  /** Starting a call while no unexpired opening is in force keeps the property. */
  lemma {:induction false} StartKeepsOpenings(log: seq<Event>, call: nat, now: int)
    requires Ordered(log) && NotBefore(log, now) && ResultsOfCalls(log) && OpeningsRespected(log)
    requires forall i :: 0 <= i < |log| && log[i].Opened? && NoSuccessSince(log, i) ==> log[i].until <= now
    ensures OpeningsRespected(log + [Started(call, now)])
  {
    var e := Started(call, now);
    var log' := log + [e];
    forall i, k | 0 <= i < k < |log'| && log'[i].Opened? && log'[k].Started? && log'[k].at < log'[i].until
      ensures ClosedByEarlierCall(log', i, k)
    {
      if k == |log| {
        ClosedSince(log, i, now);
      } else {
        assert ClosedByEarlierCall(log, i, k);
      }
      ClosedStays(log, e, i, k);
    }
  }

  /** A success after an unexpired opening means that a call started before it has succeeded since. */
  lemma {:induction false} ClosedSince(log: seq<Event>, i: nat, now: int)
    requires Ordered(log) && NotBefore(log, now) && ResultsOfCalls(log) && OpeningsRespected(log)
    requires i < |log| && log[i].Opened? && now < log[i].until && !NoSuccessSince(log, i)
    ensures ClosedByEarlierCall(log, i, |log|)
  {
    var m: nat :| i < m < |log| && log[m].Succeeded?;
    assert StartedBefore(log, log[m].call, m);
    var s: nat :| s < m && log[s].Started? && log[s].call == log[m].call;
    if i < s {
      assert ClosedByEarlierCall(log, i, s);
    }
  }

  lemma {:induction false} SoundAfterStart(log: seq<Event>, call: nat, now: int)
    requires Sound(log) && NotBefore(log, now)
    requires forall i :: 0 <= i < |log| && log[i].Opened? && NoSuccessSince(log, i) ==> log[i].until <= now
    ensures Sound(log + [Started(call, now)])
  {
    StartKeepsOpenings(log, call, now);
    ResultsKept(log, Started(call, now));
  }

  /** Other events start no call. */
  lemma {:induction false} OtherKeepsOpenings(log: seq<Event>, e: Event)
    requires OpeningsRespected(log) && !e.Started?
    ensures OpeningsRespected(log + [e])
  {
    var log' := log + [e];
    forall i, k | 0 <= i < k < |log'| && log'[i].Opened? && log'[k].Started? && log'[k].at < log'[i].until
      ensures ClosedByEarlierCall(log', i, k)
    {
      assert ClosedByEarlierCall(log, i, k);
      ClosedStays(log, e, i, k);
    }
  }

  // ---------- The circuit ----------

  /** The history is well formed and openings were respected. */
  ghost predicate Sound(log: seq<Event>) {
    Ordered(log) && ResultsOfCalls(log) && OpeningsRespected(log)
  }

  /** The kept failures are those since the last success, within the window at the last prune. */
  ghost predicate Recent(config: Config, failures: seq<int>, log: seq<Event>) {
    RecentIn(config, failures, FailuresSinceSuccess(log), LastPrune(log))
  }

  /** The circuit is not closed, and its time not shorter, while an opening has not been followed by a success. */
  ghost predicate Guarded(config: Config, state: CircuitState, openUntil: int, log: seq<Event>) {
    && (forall i :: 0 <= i < |log| && log[i].Opened? && NoSuccessSince(log, i) ==>
          state != Closed && log[i].until <= openUntil)
    && (state != Closed ==> log != [] && openUntil <= log[|log| - 1].at + config.openDuration)
    && (state == HalfOpen ==> openUntil <= log[|log| - 1].at)
  }

  lemma {:induction false} SoundAfter(log: seq<Event>, e: Event)
    requires Sound(log) && NotBefore(log, e.at) && !e.Started?
    requires e.Succeeded? || e.Failed? ==> StartedBefore(log, e.call, |log|)
    ensures Sound(log + [e])
  {
    OtherKeepsOpenings(log, e);
    ResultsKept(log, e);
  }

  lemma {:induction false} ResultsKept(log: seq<Event>, e: Event)
    requires ResultsOfCalls(log)
    requires e.Succeeded? || e.Failed? ==> StartedBefore(log, e.call, |log|)
    ensures ResultsOfCalls(log + [e])
  {
    var log' := log + [e];
    forall m | 0 <= m < |log'| && (log'[m].Succeeded? || log'[m].Failed?) ensures StartedBefore(log', log'[m].call, m) {
      assert m < |log| ==> log'[m] == log[m] && StartedBefore(log, log[m].call, m);
      StartedStays(log, e, log'[m].call, m);
    }
  }

  /** pruneFailures: the failures after now - window. */
  method PruneFailures(failures: seq<int>, cutoff: int) returns (kept: seq<int>)
    ensures kept == After(failures, cutoff)
  {
    kept := [];
    for k := 0 to |failures|
      invariant kept == After(failures[..k], cutoff)
    {
      AfterAppend(failures[..k], failures[k], cutoff);
      assert failures[..k + 1] == failures[..k] + [failures[k]];
      if failures[k] > cutoff {
        kept := kept + [failures[k]];
      }
    }
    assert failures[..|failures|] == failures;
  }

  lemma {:induction false} LastPruneBound(log: seq<Event>, now: int)
    requires NotBefore(log, now)
    ensures FailuresSinceSuccess(log) == [] || LastPrune(log) <= now
  {
    if log != [] {
      LastPruneBound(log[..|log| - 1], now);
    }
  }

  /** Pruning, then noting a failure, gives what pruning the whole history with that failure gives. */
  lemma {:induction false} NotedIsRecent(since: seq<int>, failures: seq<int>, early: int, late: int, now: int)
    requires failures == After(since, early) && (since == [] || early <= late) && late < now
    ensures After(failures, late) + [now] == After(since + [now], late)
  {
    AfterAgain(since, early, late);
    assert After(failures, late) == After(since, late);
    AfterAppend(since, now, late);
  }

  lemma {:induction false} NoSuccessStays(log: seq<Event>, e: Event)
    ensures forall i :: 0 <= i < |log| && NoSuccessSince(log + [e], i) ==> NoSuccessSince(log, i)
  {
    forall i | 0 <= i < |log| && NoSuccessSince(log + [e], i) ensures NoSuccessSince(log, i) {
      forall m | i < m < |log| ensures !log[m].Succeeded? {
        assert (log + [e])[m] == log[m];
      }
    }
  }

  ghost predicate RecentIn(config: Config, failures: seq<int>, since: seq<int>, prune: int) {
    failures == After(since, prune - config.failureWindow)
  }

  lemma {:induction false} PrunedAgain(config: Config, failures: seq<int>, since: seq<int>, prune: int, now: int)
    requires RecentIn(config, failures, since, prune) && (since == [] || prune <= now)
    ensures RecentIn(config, After(failures, now - config.failureWindow), since, now)
  {
    AfterAgain(since, prune - config.failureWindow, now - config.failureWindow);
  }

  lemma {:induction false} RecentAfterPrune(config: Config, failures: seq<int>, log: seq<Event>, e: Event)
    requires Recent(config, failures, log) && NotBefore(log, e.at) && (e.Started? || e.Refused? || e.Checked?)
    ensures RecentIn(config, After(failures, e.at - config.failureWindow), FailuresSinceSuccess(log), e.at)
    ensures Recent(config, After(failures, e.at - config.failureWindow), log + [e])
  {
    var since, prune := FailuresSinceSuccess(log), LastPrune(log);
    LastPruneBound(log, e.at);
    PrunedAgain(config, failures, since, prune, e.at);
  }

  lemma {:induction false} RecentAfterFailure(config: Config, failures: seq<int>, log: seq<Event>, call: nat,
                                              now: int, kept: seq<int>)
    requires Recent(config, failures, log) && NotBefore(log, now) && config.failureWindow > 0
    requires kept == After(failures, now - config.failureWindow) + [now]
    ensures RecentIn(config, kept, FailuresSinceSuccess(log) + [now], now)
    ensures Recent(config, kept, log + [Failed(call, now)])
  {
    LastPruneBound(log, now);
    NotedIsRecent(FailuresSinceSuccess(log), failures, LastPrune(log) - config.failureWindow,
                  now - config.failureWindow, now);
  }

  /** Any event but an opening; an open circuit may turn half-open once its time has come. */
  lemma {:induction false} GuardedAfter(config: Config, state: CircuitState, openUntil: int, log: seq<Event>,
                                        e: Event, next: CircuitState)
    requires Guarded(config, state, openUntil, log) && NotBefore(log, e.at) && !e.Opened?
    requires next == state || (state == Open && next == HalfOpen && openUntil <= e.at)
    ensures Guarded(config, next, openUntil, log + [e])
  {
    NoSuccessStays(log, e);
  }

  lemma {:induction false} GuardedAfterOpening(config: Config, state: CircuitState, openUntil: int, log: seq<Event>,
                                               now: int)
    requires Guarded(config, state, openUntil, log) && NotBefore(log, now) && config.openDuration > 0
    ensures Guarded(config, Open, now + config.openDuration, log + [Opened(now, now + config.openDuration)])
  {
    NoSuccessStays(log, Opened(now, now + config.openDuration));
    assert log != [] ==> log[|log| - 1].at <= now;
  }

  // ---------- What each operation does to the history ----------

  /** The pruned state agrees with the full history, and the history is sound. */
  ghost predicate Good(config: Config, state: CircuitState, openUntil: int, failures: seq<int>, log: seq<Event>) {
    && Sound(log)
    && Guarded(config, state, openUntil, log)
    && Recent(config, failures, log)
    && (state == Closed ==> |failures| < config.failureThreshold)
  }

  predicate Permits(state: CircuitState, openUntil: int, now: int) {
    state != Open || now >= openUntil
  }

  function AllowEvent(state: CircuitState, openUntil: int, call: nat, now: int): Event {
    if Permits(state, openUntil, now) then Started(call, now) else Refused(now)
  }

  function AllowState(state: CircuitState, openUntil: int, now: int): CircuitState {
    if state == Open && Permits(state, openUntil, now) then HalfOpen else state
  }

  lemma {:induction false} AllowKeeps(config: Config, state: CircuitState, openUntil: int, failures: seq<int>,
                                      log: seq<Event>, call: nat, now: int)
    requires Good(config, state, openUntil, failures, log) && NotBefore(log, now)
    ensures Good(config, AllowState(state, openUntil, now), openUntil, After(failures, now - config.failureWindow),
                 log + [AllowEvent(state, openUntil, call, now)])
  {
    var event := AllowEvent(state, openUntil, call, now);
    RecentAfterPrune(config, failures, log, event);
    GuardedAfter(config, state, openUntil, log, event, AllowState(state, openUntil, now));
    if event.Refused? {
      SoundAfter(log, event);
    } else {
      assert log != [] ==> log[|log| - 1].at <= now;
      SoundAfterStart(log, call, now);
    }
  }

  lemma {:induction false} SuccessKeeps(config: Config, state: CircuitState, openUntil: int, failures: seq<int>,
                                        log: seq<Event>, call: nat, now: int)
    requires Good(config, state, openUntil, failures, log) && config.failureThreshold > 0
    requires NotBefore(log, now) && StartedBefore(log, call, |log|)
    ensures Good(config, Closed, openUntil, [], log + [Succeeded(call, now)])
  {
    SoundAfter(log, Succeeded(call, now));
    assert (log + [Succeeded(call, now)])[|log|].Succeeded?;
  }

  /** A failed probe opens the circuit, and so do as many recent failures since the last success as the threshold. */
  ghost predicate FailureOpens(config: Config, state: CircuitState, log: seq<Event>, now: int) {
    || state == HalfOpen
    || |After(FailuresSinceSuccess(log) + [now], now - config.failureWindow)| >= config.failureThreshold
  }

  ghost function FailureEvents(config: Config, state: CircuitState, log: seq<Event>, call: nat, now: int): seq<Event> {
    if FailureOpens(config, state, log, now) then [Failed(call, now), Opened(now, now + config.openDuration)]
    else [Failed(call, now)]
  }

  lemma {:induction false} FailureKeeps(config: Config, state: CircuitState, openUntil: int, failures: seq<int>,
                                        log: seq<Event>, call: nat, now: int, kept: seq<int>)
    requires Good(config, state, openUntil, failures, log) && config.failureWindow > 0 && config.openDuration > 0
    requires NotBefore(log, now) && StartedBefore(log, call, |log|)
    requires kept == After(failures, now - config.failureWindow) + [now]
    ensures var opens := FailureOpens(config, state, log, now);
            && (opens <==> state == HalfOpen || |kept| >= config.failureThreshold)
            && Good(config, if opens then Open else state, if opens then now + config.openDuration else openUntil, kept,
                    log + FailureEvents(config, state, log, call, now))
  {
    var failed := log + [Failed(call, now)];
    RecentAfterFailure(config, failures, log, call, now, kept);
    SoundAfter(log, Failed(call, now));
    GuardedAfter(config, state, openUntil, log, Failed(call, now), state);
    if FailureOpens(config, state, log, now) {
      var opening := Opened(now, now + config.openDuration);
      GuardedAfterOpening(config, state, openUntil, failed, now);
      SoundAfter(failed, opening);
      assert log + FailureEvents(config, state, log, call, now) == failed + [opening];
    }
  }

  class ConnectorCircuit {
    const config: Config
    var state: CircuitState
    var failures: seq<int>
    var openUntil: int
    ghost var log: seq<Event>

    ghost predicate Valid()
      reads this
    {
      && config == Normalized(config)
      && Good(config, state, openUntil, failures, log)
    }

    constructor (settings: Config)
      ensures Valid() && log == [] && state == Closed
      ensures config.failureThreshold == if settings.failureThreshold > 0 then settings.failureThreshold else 5
      ensures config.failureWindow == if settings.failureWindow > 0 then settings.failureWindow else 60_000_000_000
      ensures config.openDuration == if settings.openDuration > 0 then settings.openDuration else 60_000_000_000
    {
      config := Normalized(settings);
      state := Closed;
      failures := [];
      openUntil := 0;
      log := [];
    }

    /**
     * Lets a call through unless the circuit is open and its time has not come; a permitted call on an open
     * circuit is a probe.
     */
    method Allow(ghost call: nat, now: int) returns (permitted: bool, probe: bool)
      requires Valid() && NotBefore(log, now)
      modifies this
      ensures Valid()
      ensures permitted <==> old(state) != Open || now >= old(openUntil)
      ensures probe <==> permitted && old(state) != Closed
      ensures log == old(log) + [if permitted then Started(call, now) else Refused(now)]
      ensures state == if permitted && old(state) == Open then HalfOpen else old(state)
      ensures openUntil == old(openUntil)
    {
      AllowKeeps(config, state, openUntil, failures, log, call, now);
      log := log + [AllowEvent(state, openUntil, call, now)];
      failures := PruneFailures(failures, now - config.failureWindow);
      match state
      case Open =>
        if now < openUntil {
          return false, false;
        }
        state := HalfOpen;
        return true, true;
      case HalfOpen =>
        return true, true;
      case Closed =>
        return true, false;
    }

    method RecordSuccess(ghost call: nat, now: int, probe: bool)
      requires Valid() && NotBefore(log, now) && StartedBefore(log, call, |log|)
      modifies this
      ensures Valid() && state == Closed && failures == []
      ensures log == old(log) + [Succeeded(call, now)]
    {
      SuccessKeeps(config, state, openUntil, failures, log, call, now);
      failures := [];
      if probe || state != Closed {
        state := Closed;
      }
      log := log + [Succeeded(call, now)];
    }

    /** Opens the circuit on a failed probe, or when the recent failures since the last success reach the threshold. */
    method RecordFailure(ghost call: nat, now: int)
      requires Valid() && NotBefore(log, now) && StartedBefore(log, call, |log|)
      modifies this
      ensures Valid()
      ensures state == if FailureOpens(config, old(state), old(log), now) then Open else old(state)
      ensures openUntil ==
              if FailureOpens(config, old(state), old(log), now) then now + config.openDuration else old(openUntil)
      ensures log == old(log) + FailureEvents(config, old(state), old(log), call, now)
    {
      var kept := PruneFailures(failures, now - config.failureWindow);
      kept := kept + [now];
      FailureKeeps(config, state, openUntil, failures, log, call, now, kept);
      failures := kept;
      log := log + FailureEvents(config, state, log, call, now);
      if state == HalfOpen || |failures| >= config.failureThreshold {
        openUntil := now + config.openDuration;
        state := Open;
      }
    }

    /** A snapshot prunes as a call does, and reports how many failures are recent. */
    method Snapshot(now: int) returns (failureCount: nat)
      requires Valid() && NotBefore(log, now)
      modifies this
      ensures Valid() && state == old(state) && openUntil == old(openUntil)
      ensures failureCount == |After(FailuresSinceSuccess(old(log)), now - config.failureWindow)|
      ensures log == old(log) + [Checked(now)]
    {
      RecentAfterPrune(config, failures, log, Checked(now));
      GuardedAfter(config, state, openUntil, log, Checked(now), state);
      SoundAfter(log, Checked(now));
      failures := PruneFailures(failures, now - config.failureWindow);
      failureCount := |failures|;
      log := log + [Checked(now)];
    }
  }

  /**
   * The wrapped connector.  Between the start of a call and its end other connectors may use the same
   * circuit, so each call is a pair of methods.
   */
  class GuardedConnector {
    const circuit: ConnectorCircuit
    var probeMode: bool

    constructor (circuit: ConnectorCircuit)
      ensures this.circuit == circuit && !probeMode
    {
      this.circuit := circuit;
      probeMode := false;
    }

    /** The first half of Connect and of Discover. */
    method Begin(ghost call: nat, now: int) returns (permitted: bool)
      requires circuit.Valid() && NotBefore(circuit.log, now)
      modifies this, circuit
      ensures circuit.Valid()
      ensures permitted <==> Permits(old(circuit.state), old(circuit.openUntil), now)
      ensures circuit.log == old(circuit.log) + [AllowEvent(old(circuit.state), old(circuit.openUntil), call, now)]
      ensures probeMode <==> old(probeMode) || (permitted && old(circuit.state) != Closed)
    {
      var probe;
      permitted, probe := circuit.Allow(call, now);
      if probe {
        probeMode := true;
      }
    }

    /** A probe's connection alone proves nothing: it leaves the circuit as it is. */
    method FinishConnect(ghost call: nat, now: int, ok: bool)
      requires circuit.Valid() && NotBefore(circuit.log, now) && StartedBefore(circuit.log, call, |circuit.log|)
      modifies circuit
      ensures circuit.Valid()
      ensures ok && probeMode ==> circuit.log == old(circuit.log) && circuit.state == old(circuit.state)
      ensures ok && !probeMode ==> circuit.log == old(circuit.log) + [Succeeded(call, now)] && circuit.state == Closed
      ensures !ok ==>
                && circuit.log == old(circuit.log) +
                    FailureEvents(circuit.config, old(circuit.state), old(circuit.log), call, now)
                && (old(circuit.state) == HalfOpen ==> circuit.state == Open)
    {
      if !ok {
        circuit.RecordFailure(call, now);
      } else if !probeMode {
        circuit.RecordSuccess(call, now, false);
      }
    }

    /** A discovery closes the circuit and ends probing, or counts as a failure. */
    method FinishDiscover(ghost call: nat, now: int, ok: bool)
      requires circuit.Valid() && NotBefore(circuit.log, now) && StartedBefore(circuit.log, call, |circuit.log|)
      modifies this, circuit
      ensures circuit.Valid()
      ensures ok ==> circuit.log == old(circuit.log) + [Succeeded(call, now)] && circuit.state == Closed && !probeMode
      ensures !ok ==>
                && circuit.log == old(circuit.log) +
                    FailureEvents(circuit.config, old(circuit.state), old(circuit.log), call, now)
                && probeMode == old(probeMode)
    {
      if !ok {
        circuit.RecordFailure(call, now);
        return;
      }
      circuit.RecordSuccess(call, now, probeMode);
      probeMode := false;
    }
  }
}
