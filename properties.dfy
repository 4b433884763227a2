/** What the state machine promises, proved about the functions of module StateMachine. */
module Properties {
  import opened Types
  import opened Guard
  import opened StateMachine

  /** Executes the calls one after another and gives the final state. */
  function ExecuteAll<T>(m: Machine, cfg: Config, fs: seq<Func<T>>): Machine
    decreases |fs|
  {
    if fs == [] then m else ExecuteAll(Execute(m, cfg, fs[0]).0, cfg, fs[1..])
  }

  predicate AllFail<T>(fs: seq<Func<T>>, timeout: TimeSpan) {
    forall i :: 0 <= i < |fs| ==> Run(fs[i], timeout).Failure?
  }

  predicate AllSucceed<T>(fs: seq<Func<T>>, timeout: TimeSpan) {
    forall i :: 0 <= i < |fs| ==> Run(fs[i], timeout).Success?
  }

  /** The current state lets a call through to the invoker. */
  predicate Admits(m: Machine) {
    m.current == Closed || (m.current == HalfOpen && !m.currentlyInvoking)
  }

  /** The states the breaker can be in when calls arrive one at a time: the current state's
      counter is below its threshold, no Half-Open call is in flight, and an Open breaker has
      armed its timer, which is still going to fire. */
  ghost predicate Inv(m: Machine, cfg: Config) {
    && (m.current == Closed ==> 0 <= m.failures < cfg.errorThreshold)
    && (m.current == HalfOpen ==> 0 <= m.successCount < cfg.successThreshold && !m.currentlyInvoking)
    && (m.current == Open ==> m.scheduled && m.timer.Some? && m.timer.value.pending)
  }

  /** The states of a disposed breaker: as Inv, except that the timer has been released, so an
      Open breaker stays Open. */
  ghost predicate DisposedInv(m: Machine, cfg: Config) {
    && (m.current == Closed ==> 0 <= m.failures < cfg.errorThreshold)
    && (m.current == HalfOpen ==> 0 <= m.successCount < cfg.successThreshold && !m.currentlyInvoking)
    && (m.current == Open ==> m.scheduled && m.timer.Some?)
    && (m.timer.Some? ==> !m.timer.value.pending)
  }

  // ---------------------------------------------------------------------------
  // Construction

  /** A breaker starts Closed, so exactly one of IsClosed, IsOpen, IsHalfOpen holds. */
  lemma InitiallyClosed(cfg: Config)
    requires ValidConfig(cfg)
    ensures Initial().current == Closed && Initial().current != Open && Initial().current != HalfOpen
    ensures Inv(Initial(), cfg)
  {
  }

  /** Construction fails exactly when a setting is out of range; the settings are checked in the
      order errorThreshold, invocationTimeout, resetTimeout, successThreshold. */
  lemma ConstructionChecks(cfg: Config)
    ensures OptionsError(cfg).None? <==> ValidConfig(cfg)
    ensures cfg.errorThreshold < 1 ==> OptionsError(cfg) == Some(ArgumentOutOfRange("errorThreshold"))
    ensures (cfg.errorThreshold >= 1 && cfg.invocationTimeout.WholeMilliseconds() < 1) ==>
      OptionsError(cfg) == Some(ArgumentOutOfRange("invocationTimeout"))
    ensures (cfg.errorThreshold >= 1 && cfg.invocationTimeout.WholeMilliseconds() >= 1
             && cfg.resetTimeout.WholeMilliseconds() < 1) ==>
      OptionsError(cfg) == Some(ArgumentOutOfRange("resetTimeout"))
    ensures (cfg.errorThreshold >= 1 && cfg.invocationTimeout.WholeMilliseconds() >= 1
             && cfg.resetTimeout.WholeMilliseconds() >= 1 && cfg.successThreshold < 1) ==>
      OptionsError(cfg) == Some(ArgumentOutOfRange("successThreshold"))
  {
  }

  /** The base state constructor rejects a null switch before it looks at the invoker. */
  lemma BaseChecksOrder<S, I>(sw: Option<S>, invoker: Option<I>)
    ensures sw.None? ==> BaseArgumentsError(sw, invoker) == Some(ArgumentNull("@switch"))
    ensures sw.Some? && invoker.None? ==> BaseArgumentsError(sw, invoker) == Some(ArgumentNull("invoker"))
    ensures sw.Some? && invoker.Some? ==> BaseArgumentsError(sw, invoker) == None
  {
  }

  /** A positive span shorter than one millisecond is rejected, because its whole-millisecond
      count is zero. */
  lemma SubMillisecondSpanRejected(name: string)
    ensures PositiveTimeSpanOrThrow(TimeSpan(TicksPerMillisecond - 1), name) == Failure(ArgumentOutOfRange(name))
    ensures PositiveTimeSpanOrThrow(TimeSpan(TicksPerMillisecond), name) == Success(TimeSpan(TicksPerMillisecond))
  {
  }

  // ---------------------------------------------------------------------------
  // The switch

  /** A transition happens exactly when `from` is current; a stale request changes nothing. */
  lemma TransitionIsCompareAndSwap(m: Machine, cfg: Config, from: StateType, to: StateType)
    ensures m.current == from ==> Transition(m, cfg, from, to) == BecomeActive(m.(current := to), cfg, to)
    ensures m.current != from ==> Transition(m, cfg, from, to) == m
    ensures Transition(m, cfg, from, to).current == (if m.current == from then to else m.current)
  {
  }

  /** Each entry hook starts its state afresh and touches no other state's fields. */
  lemma BecomeActiveResets(m: Machine, cfg: Config)
    ensures BecomeActive(m, cfg, Closed) == m.(failures := 0)
    ensures BecomeActive(m, cfg, HalfOpen) == m.(successCount := 0, currentlyInvoking := false)
    ensures BecomeActive(m, cfg, Open)
         == m.(timer := Some(Timer(cfg.resetTimeout.WholeMilliseconds(), true)), scheduled := true)
  {
  }

  /** Trip, Reset and Try target Open, Closed and Half-Open, and the switch allows any edge:
      from the initial Closed state, Trip gives Open and Try gives Half-Open. */
  lemma SwitchTargets(m: Machine, cfg: Config, from: StateType)
    ensures m.current == from ==> Trip(m, cfg, from).current == Open
    ensures m.current == from ==> Reset(m, cfg, from).current == Closed
    ensures m.current == from ==> Try(m, cfg, from).current == HalfOpen
    ensures Trip(Initial(), cfg, Initial().current).current == Open
    ensures Try(Initial(), cfg, Initial().current).current == HalfOpen
  {
  }

  // ---------------------------------------------------------------------------
  // Single notifications

  /** In Closed, a failure adds exactly one to the count and trips exactly when the new count is
      the threshold; a success clears the count. */
  lemma ClosedCounting(m: Machine, cfg: Config)
    requires ValidConfig(cfg) && m.current == Closed && 0 <= m.failures < cfg.errorThreshold
    ensures ClosedFailed(m, cfg).failures as int == m.failures as int + 1
    ensures ClosedFailed(m, cfg).current == Open <==> m.failures as int + 1 == cfg.errorThreshold as int
    ensures ClosedFailed(m, cfg).current == Closed <==> m.failures as int + 1 < cfg.errorThreshold as int
    ensures ClosedSucceeded(m) == m.(failures := 0)
  {
  }

  /** In Half-Open, a success frees the slot and resets exactly at the threshold; a failure trips
      without touching the success count or the slot. */
  lemma HalfOpenCounting(m: Machine, cfg: Config)
    requires ValidConfig(cfg) && m.current == HalfOpen && 0 <= m.successCount < cfg.successThreshold
    ensures HalfOpenSucceeded(m, cfg).current == Closed <==> m.successCount as int + 1 == cfg.successThreshold as int
    ensures HalfOpenSucceeded(m, cfg).current == HalfOpen ==>
      HalfOpenSucceeded(m, cfg) == m.(currentlyInvoking := false, successCount := m.successCount + 1)
    ensures HalfOpenFailed(m, cfg).current == Open
    ensures HalfOpenFailed(m, cfg).successCount == m.successCount
    ensures HalfOpenFailed(m, cfg).currentlyInvoking == m.currentlyInvoking
  {
  }

  /** The Open state rejects every call, without running it and without any change. */
  lemma OpenRejects<T>(m: Machine, cfg: Config, f: Func<T>)
    requires m.current == Open
    ensures Execute(m, cfg, f) == (m, Failure(OpenCircuitBreaker))
  {
  }

  /** Half-Open rejects a call while another is in flight, without running it. */
  lemma HalfOpenRejectsWhileInFlight<T>(m: Machine, cfg: Config, f: Func<T>)
    requires m.current == HalfOpen && m.currentlyInvoking
    ensures Execute(m, cfg, f) == (m, Failure(OpenCircuitBreaker))
  {
  }

  /** A successful call returns the function's value and the state hears of the success;
      a throwing call re-raises the function's own exception and the state hears of the failure. */
  lemma ExecuteForwardsOutcome<T>(m: Machine, cfg: Config, f: Func<T>)
    requires Admits(m) && f.Func? && f.runMs <= cfg.invocationTimeout.WholeMilliseconds()
    ensures Execute(m, cfg, f).1 == f.outcome
    ensures m.current == Closed && f.outcome.Success? ==> Execute(m, cfg, f).0 == ClosedSucceeded(m)
    ensures m.current == Closed && f.outcome.Failure? ==> Execute(m, cfg, f).0 == ClosedFailed(m, cfg)
    ensures m.current == HalfOpen && f.outcome.Success? ==>
      Execute(m, cfg, f).0 == HalfOpenSucceeded(m.(currentlyInvoking := true), cfg)
    ensures m.current == HalfOpen && f.outcome.Failure? ==>
      Execute(m, cfg, f).0 == HalfOpenFailed(m.(currentlyInvoking := true), cfg)
  {
  }

  /** A timeout and a thrown exception count alike: the same new state, and the caller sees a
      CircuitBreakerTimeoutException for the slow call. A null function counts as a failure too. */
  lemma TimeoutCountsAsFailure<T>(m: Machine, cfg: Config, slow: Func<T>, throwing: Func<T>)
    requires slow.Func? && slow.runMs > cfg.invocationTimeout.WholeMilliseconds()
    requires throwing.Func? && throwing.runMs <= cfg.invocationTimeout.WholeMilliseconds()
    requires throwing.outcome.Failure?
    ensures Execute(m, cfg, slow).0 == Execute(m, cfg, throwing).0
    ensures Execute(m, cfg, Func<T>.Null).0 == Execute(m, cfg, throwing).0
    ensures Admits(m) ==> Execute(m, cfg, slow).1 == Failure(CircuitBreakerTimeout)
    ensures Admits(m) ==> Execute(m, cfg, Func<T>.Null).1 == Failure(ArgumentNull("function"))
  {
    match m.current
    case Closed =>
    case Open =>
    case HalfOpen =>
      if !m.currentlyInvoking {
        assert Execute(m, cfg, slow).0 == Failed(m.(currentlyInvoking := true), cfg, HalfOpen);
      }
  }

  // ---------------------------------------------------------------------------
  // The timer

  /** When the pending timer fires while Open, the breaker is Half-Open with a fresh probing
      window, `Scheduled` is cleared and the timer will not fire again. */
  lemma TimerMovesOpenToHalfOpen(m: Machine, cfg: Config)
    requires m.current == Open && m.timer.Some? && m.timer.value.pending
    ensures TimerElapsed(m, cfg)
         == m.(current := HalfOpen, successCount := 0, currentlyInvoking := false,
               timer := Some(m.timer.value.(pending := false)), scheduled := false)
  {
  }

  /** A timer that fires after the breaker has left Open does not move it. */
  lemma StaleTimerIsNoOp(m: Machine, cfg: Config)
    requires m.current != Open
    ensures TimerElapsed(m, cfg).current == m.current
  {
  }

  /** After Dispose the timer never fires. */
  lemma DisposedTimerNeverFires(m: Machine, cfg: Config)
    ensures TimerElapsed(Dispose(m), cfg) == Dispose(m)
  {
  }

  // ---------------------------------------------------------------------------
  // The invariant

  lemma InvPreservedByExecute<T>(m: Machine, cfg: Config, f: Func<T>)
    requires ValidConfig(cfg) && Inv(m, cfg)
    ensures Inv(Execute(m, cfg, f).0, cfg)
  {
    match m.current
    case Closed =>
      if Run(f, cfg.invocationTimeout).Failure? {
        ClosedCounting(m, cfg);
      }
    case Open =>
    case HalfOpen =>
      var claimed := m.(currentlyInvoking := true);
      if Run(f, cfg.invocationTimeout).Success? {
        var counted := claimed.(currentlyInvoking := false, successCount := Increment(claimed.successCount));
        assert counted.successCount as int == m.successCount as int + 1;
      }
  }

  lemma InvPreservedByTransition(m: Machine, cfg: Config, from: StateType, to: StateType)
    requires ValidConfig(cfg) && Inv(m, cfg)
    ensures Inv(Transition(m, cfg, from, to), cfg)
  {
  }

  lemma InvPreservedByTimer(m: Machine, cfg: Config)
    requires ValidConfig(cfg) && Inv(m, cfg)
    ensures Inv(TimerElapsed(m, cfg), cfg)
    ensures DisposedInv(Dispose(m), cfg)
    ensures DisposedInv(TimerElapsed(Dispose(m), cfg), cfg)
  {
  }

  /** In every reachable state an Open breaker is waiting on its own timer: when the timer goes
      off the breaker is Half-Open, with a fresh probing window. */
  lemma OpenAlwaysReopens(m: Machine, cfg: Config)
    requires Inv(m, cfg) && m.current == Open
    ensures TimerElapsed(m, cfg).current == HalfOpen
    ensures TimerElapsed(m, cfg).successCount == 0 && !TimerElapsed(m, cfg).currentlyInvoking
    ensures !TimerElapsed(m, cfg).scheduled
  {
  }

  lemma {:induction false} InvPreservedByExecuteAll<T>(m: Machine, cfg: Config, fs: seq<Func<T>>)
    requires ValidConfig(cfg) && Inv(m, cfg)
    ensures Inv(ExecuteAll(m, cfg, fs), cfg)
    decreases |fs|
  {
    if fs != [] {
      InvPreservedByExecute(m, cfg, fs[0]);
      InvPreservedByExecuteAll(Execute(m, cfg, fs[0]).0, cfg, fs[1..]);
    }
  }

  /** With calls arriving one at a time the single-flight guard never rejects: a Half-Open
      breaker in the invariant always runs the call. */
  lemma SequentialCallsAreAlwaysAdmitted<T>(m: Machine, cfg: Config, f: Func<T>)
    requires Inv(m, cfg) && m.current == HalfOpen
    ensures Execute(m, cfg, f).1 == Run(f, cfg.invocationTimeout)
  {
  }

  // ---------------------------------------------------------------------------
  // Runs of calls

  /** Successful calls while Closed keep the breaker Closed with no failures counted. */
  lemma {:induction false} SuccessesKeepClosed<T>(m: Machine, cfg: Config, fs: seq<Func<T>>)
    requires m.current == Closed && m.failures == 0
    requires AllSucceed(fs, cfg.invocationTimeout)
    ensures ExecuteAll(m, cfg, fs) == m
    decreases |fs|
  {
    if fs != [] {
      assert Execute(m, cfg, fs[0]).0 == m;
      SuccessesKeepClosed(m, cfg, fs[1..]);
    }
  }

  /** Failures below the threshold, exceptions and timeouts in any mix, only add to the count. */
  lemma {:induction false} FailuresAccumulate<T>(m: Machine, cfg: Config, fs: seq<Func<T>>)
    requires m.current == Closed && 0 <= m.failures
    requires m.failures as int + |fs| < cfg.errorThreshold as int
    requires AllFail(fs, cfg.invocationTimeout)
    ensures ExecuteAll(m, cfg, fs) == m.(failures := (m.failures as int + |fs|) as int32)
    decreases |fs|
  {
    if fs != [] {
      var next := Execute(m, cfg, fs[0]).0;
      assert next == m.(failures := m.failures + 1);
      FailuresAccumulate(next, cfg, fs[1..]);
    }
  }

  /** The failure that brings the count to the threshold trips the breaker and arms the timer. */
  lemma {:induction false} FailuresTripAtThreshold<T>(m: Machine, cfg: Config, fs: seq<Func<T>>)
    requires m.current == Closed && 0 <= m.failures
    requires |fs| >= 1 && m.failures as int + |fs| == cfg.errorThreshold as int
    requires AllFail(fs, cfg.invocationTimeout)
    ensures ExecuteAll(m, cfg, fs)
         == m.(current := Open, failures := cfg.errorThreshold,
               timer := Some(Timer(cfg.resetTimeout.WholeMilliseconds(), true)), scheduled := true)
    decreases |fs|
  {
    var next := Execute(m, cfg, fs[0]).0;
    if |fs| == 1 {
      assert fs[1..] == [];
    } else {
      assert next == m.(failures := m.failures + 1);
      FailuresTripAtThreshold(next, cfg, fs[1..]);
    }
  }

  /** Successful probes below the threshold keep the breaker Half-Open and count up. */
  lemma {:induction false} ProbesAccumulate<T>(m: Machine, cfg: Config, fs: seq<Func<T>>)
    requires m.current == HalfOpen && !m.currentlyInvoking && 0 <= m.successCount
    requires m.successCount as int + |fs| < cfg.successThreshold as int
    requires AllSucceed(fs, cfg.invocationTimeout)
    ensures ExecuteAll(m, cfg, fs) == m.(successCount := (m.successCount as int + |fs|) as int32)
    decreases |fs|
  {
    if fs != [] {
      var next := Execute(m, cfg, fs[0]).0;
      assert next == m.(successCount := m.successCount + 1);
      ProbesAccumulate(next, cfg, fs[1..]);
    }
  }

  /** The success that brings the count to the threshold closes the breaker, with no failures. */
  lemma {:induction false} ProbesCloseAtThreshold<T>(m: Machine, cfg: Config, fs: seq<Func<T>>)
    requires m.current == HalfOpen && !m.currentlyInvoking && 0 <= m.successCount
    requires |fs| >= 1 && m.successCount as int + |fs| == cfg.successThreshold as int
    requires AllSucceed(fs, cfg.invocationTimeout)
    ensures ExecuteAll(m, cfg, fs)
         == m.(current := Closed, failures := 0, successCount := cfg.successThreshold)
    decreases |fs|
  {
    var next := Execute(m, cfg, fs[0]).0;
    if |fs| == 1 {
      assert fs[1..] == [];
    } else {
      assert next == m.(successCount := m.successCount + 1);
      ProbesCloseAtThreshold(next, cfg, fs[1..]);
    }
  }

  /** Closed, then errorThreshold failures, then the reset timer, then successThreshold
      successes: the breaker is Closed again with no failures counted. */
  lemma RoundTrip<T>(m: Machine, cfg: Config, failing: seq<Func<T>>, probing: seq<Func<T>>)
    requires ValidConfig(cfg) && m.current == Closed && m.failures == 0
    requires |failing| == cfg.errorThreshold as int && AllFail(failing, cfg.invocationTimeout)
    requires |probing| == cfg.successThreshold as int && AllSucceed(probing, cfg.invocationTimeout)
    ensures var open := ExecuteAll(m, cfg, failing);
            var halfOpen := TimerElapsed(open, cfg);
            && open.current == Open
            && halfOpen.current == HalfOpen
            && ExecuteAll(halfOpen, cfg, probing).current == Closed
            && ExecuteAll(halfOpen, cfg, probing).failures == 0
  {
    FailuresTripAtThreshold(m, cfg, failing);
    var open := ExecuteAll(m, cfg, failing);
    TimerMovesOpenToHalfOpen(open, cfg);
    ProbesCloseAtThreshold(TimerElapsed(open, cfg), cfg, probing);
  }

  // ---------------------------------------------------------------------------
  // The scenarios of the breaker's own tests, with errorThreshold = successThreshold = 2

  /** One failing call leaves the breaker Closed; two trip it; a third is rejected. */
  lemma TwoFailuresTrip<T>(cfg: Config, f: Func<T>)
    requires ValidConfig(cfg) && cfg.errorThreshold == 2 && Run(f, cfg.invocationTimeout).Failure?
    ensures ExecuteAll(Initial(), cfg, [f]).current == Closed
    ensures ExecuteAll(Initial(), cfg, [f, f]).current == Open
    ensures Execute(ExecuteAll(Initial(), cfg, [f, f]), cfg, f).1 == Failure(OpenCircuitBreaker)
  {
    FailuresAccumulate(Initial(), cfg, [f]);
    FailuresTripAtThreshold(Initial(), cfg, [f, f]);
  }

  /** From Half-Open, one successful call keeps it Half-Open and two close it. */
  lemma TwoSuccessesClose<T>(cfg: Config, f: Func<T>)
    requires ValidConfig(cfg) && cfg.successThreshold == 2 && Run(f, cfg.invocationTimeout).Success?
    ensures var h := Try(Initial(), cfg, Closed);
            && h.current == HalfOpen
            && ExecuteAll(h, cfg, [f]).current == HalfOpen
            && ExecuteAll(h, cfg, [f, f]).current == Closed
  {
    var h := Try(Initial(), cfg, Closed);
    ProbesAccumulate(h, cfg, [f]);
    ProbesCloseAtThreshold(h, cfg, [f, f]);
  }
}
