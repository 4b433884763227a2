/** The circuit breaker as objects: the breaker (the switch) owns one Closed, one Open and one
    Half-Open state object; each state keeps its own counters and flags and asks the switch
    for Trip, Reset or Try; the invoker runs the guarded function and reports the outcome
    back to the state that started the call.

    The state interface is a capability set shared by three classes. Here a state is named by
    its kind (StateType), and the calls the invoker and the switch make through the interface
    are dispatched on that kind by the breaker (NotifySucceeded, NotifyFailed, Transition). */
module Breakers {
  import opened Types
  import opened Guard
  import opened Options
  import opened StateMachine

  /** The task scheduler the invoker would run functions on; its workings are not modelled. */
  class TaskScheduler {
    constructor () {}
  }

  class Invoker {
    const scheduler: TaskScheduler

    constructor (scheduler: TaskScheduler)
      ensures this.scheduler == scheduler
    {
      this.scheduler := scheduler;
    }

    /** The constructor: a null scheduler is an ArgumentNullException. */
    static method New(scheduler: Option<TaskScheduler>) returns (r: Result<Invoker>)
      ensures r.Failure? <==> scheduler.None?
      ensures r.Failure? ==> r.error == ArgumentNull("scheduler")
      ensures r.Success? ==> fresh(r.value) && r.value.scheduler == scheduler.value
    {
      var s := OrThrow(scheduler, "scheduler");
      if s.Failure? {
        return Failure(s.error);
      }
      var invoker := new Invoker(s.value);
      return Success(invoker);
    }

    /** Runs `f` within `timeout` and tells the state of kind `state` of `owner` how it went:
        ExecutionSucceeded on a value, ExecutionFailed on any exception (a timeout and a null
        function included); the value or the exception is handed back unchanged. */
    method Invoke<T>(owner: CircuitBreaker, state: StateType, f: Func<T>, timeout: TimeSpan) returns (r: Result<T>)
      requires owner.Valid()
      modifies owner`current, owner.States()
      ensures owner.Valid()
      ensures r == Run(f, timeout)
      ensures r.Success? ==> owner.Model() == Succeeded(old(owner.Model()), owner.Cfg(), state)
      ensures r.Failure? ==> owner.Model() == Failed(old(owner.Model()), owner.Cfg(), state)
    {
      r := Run(f, timeout);
      if r.Success? {
        owner.NotifySucceeded(state);
      } else {
        owner.NotifyFailed(state);
      }
    }
  }

  /** Normal operation: every call goes through, and failures in a row are counted. */
  class ClosedState {
    const sw: CircuitBreaker
    const invoker: Invoker
    const errorThreshold: int32
    const invocationTimeout: TimeSpan
    /** `Failures`: the failures since the last success or activation. */
    var failures: int32

    constructor (sw: CircuitBreaker, invoker: Invoker, errorThreshold: int32, invocationTimeout: TimeSpan)
      ensures this.sw == sw && this.invoker == invoker
      ensures this.errorThreshold == errorThreshold && this.invocationTimeout == invocationTimeout
      ensures failures == 0
    {
      this.sw := sw;
      this.invoker := invoker;
      this.errorThreshold := errorThreshold;
      this.invocationTimeout := invocationTimeout;
      failures := 0;
    }

    /** The checking constructor: switch, invoker, threshold, timeout, in that order. */
    static method New(sw: Option<CircuitBreaker>, invoker: Option<Invoker>,
                      errorThreshold: int32, invocationTimeout: TimeSpan) returns (r: Result<ClosedState>)
      ensures r.Success? <==> ClosedArgumentsError(sw, invoker, errorThreshold, invocationTimeout).None?
      ensures r.Failure? ==> Some(r.error) == ClosedArgumentsError(sw, invoker, errorThreshold, invocationTimeout)
      ensures r.Success? ==> fresh(r.value) && r.value.failures == 0
      ensures r.Success? ==> r.value.sw == sw.value && r.value.invoker == invoker.value
      ensures r.Success? ==> r.value.errorThreshold == errorThreshold && r.value.invocationTimeout == invocationTimeout
    {
      var s := OrThrow(sw, "@switch");
      if s.Failure? { return Failure(s.error); }
      var i := OrThrow(invoker, "invoker");
      if i.Failure? { return Failure(i.error); }
      var t := PositiveOrThrow(errorThreshold, "errorThreshold");
      if t.Failure? { return Failure(t.error); }
      var to := PositiveTimeSpanOrThrow(invocationTimeout, "invocationTimeout");
      if to.Failure? { return Failure(to.error); }
      var state := new ClosedState(s.value, i.value, t.value, to.value);
      return Success(state);
    }

    /** No admission check: the call goes straight to the invoker with the invocation timeout. */
    method Invoke<T>(f: Func<T>) returns (r: Result<T>)
      requires sw.Valid() && sw.closedState == this
      modifies sw`current, sw.States()
      ensures sw.Valid()
      ensures (sw.Model(), r) == ClosedInvoke(old(sw.Model()), sw.Cfg(), f)
    {
      r := invoker.Invoke(sw, Closed, f, invocationTimeout);
    }

    method ExecutionSucceeded()
      modifies this`failures
      ensures failures == 0
    {
      failures := 0;
    }

    /** Counts the failure; the failure that brings the count to the threshold trips the switch. */
    method ExecutionFailed()
      requires sw.Valid() && sw.closedState == this
      modifies this`failures, sw`current, sw.openState
      ensures sw.Valid()
      ensures sw.Model() == ClosedFailed(old(sw.Model()), sw.Cfg())
    {
      failures := Increment(failures);
      if failures == errorThreshold {
        sw.Trip(Closed);
      }
    }

    method BecomeActive()
      modifies this`failures
      ensures failures == 0
    {
      failures := 0;
    }

    /** The base class's Dispose, which releases nothing. */
    method Dispose()
      ensures unchanged(this)
    {
    }
  }

  /** Tripped: every call is rejected until the reset timer moves the breaker to Half-Open. */
  class OpenState {
    const sw: CircuitBreaker
    const invoker: Invoker
    const resetTimeout: TimeSpan
    var timer: Option<Timer>
    /** `Scheduled`: a timer has been armed and its callback has not finished yet. */
    var scheduled: bool

    constructor (sw: CircuitBreaker, invoker: Invoker, resetTimeout: TimeSpan)
      ensures this.sw == sw && this.invoker == invoker && this.resetTimeout == resetTimeout
      ensures timer == None && !scheduled
    {
      this.sw := sw;
      this.invoker := invoker;
      this.resetTimeout := resetTimeout;
      timer := None;
      scheduled := false;
    }

    /** The checking constructor: switch, invoker, reset timeout, in that order. */
    static method New(sw: Option<CircuitBreaker>, invoker: Option<Invoker>,
                      resetTimeout: TimeSpan) returns (r: Result<OpenState>)
      ensures r.Success? <==> OpenArgumentsError(sw, invoker, resetTimeout).None?
      ensures r.Failure? ==> Some(r.error) == OpenArgumentsError(sw, invoker, resetTimeout)
      ensures r.Success? ==> fresh(r.value) && r.value.timer == None && !r.value.scheduled
      ensures r.Success? ==> r.value.sw == sw.value && r.value.invoker == invoker.value
      ensures r.Success? ==> r.value.resetTimeout == resetTimeout
    {
      var s := OrThrow(sw, "@switch");
      if s.Failure? { return Failure(s.error); }
      var i := OrThrow(invoker, "invoker");
      if i.Failure? { return Failure(i.error); }
      var rt := PositiveTimeSpanOrThrow(resetTimeout, "resetTimeout");
      if rt.Failure? { return Failure(rt.error); }
      var state := new OpenState(s.value, i.value, rt.value);
      return Success(state);
    }

    /** Always rejects; the function is never run and nothing changes. */
    method Invoke<T>(f: Func<T>) returns (r: Result<T>)
      ensures r == Failure(OpenCircuitBreaker)
    {
      r := Failure(OpenCircuitBreaker);
    }

    method ExecutionSucceeded()
      ensures unchanged(this)
    {
    }

    method ExecutionFailed()
      ensures unchanged(this)
    {
    }

    /** Releases the previous timer and arms a fresh one-shot timer for the reset timeout. */
    method BecomeActive()
      modifies this`timer, this`scheduled
      ensures timer == Some(Timer(resetTimeout.WholeMilliseconds(), true))
      ensures scheduled
    {
      timer := Some(Timer(resetTimeout.WholeMilliseconds(), true));
      scheduled := true;
    }

    /** The timer callback: ask the switch for Half-Open from this state, then clear `Scheduled`. */
    method HalfOpen()
      requires sw.Valid() && sw.openState == this
      modifies this`scheduled, sw`current, sw.halfOpenState
      ensures sw.Valid()
      ensures sw.Model() == HalfOpenCallback(old(sw.Model()), sw.Cfg())
    {
      sw.Try(Open);
      scheduled := false;
    }

    /** The timer going off: a pending timer fires once and runs the callback. */
    method TimerFires()
      requires sw.Valid() && sw.openState == this
      modifies this`timer, this`scheduled, sw`current, sw.halfOpenState
      ensures sw.Valid()
      ensures sw.Model() == TimerElapsed(old(sw.Model()), sw.Cfg())
    {
      match timer
      case Some(t) =>
        if t.pending {
          timer := Some(t.(pending := false));
          HalfOpen();
        }
      case None =>
    }

    /** Releases the timer, if there is one. */
    method Dispose()
      modifies this`timer
      ensures timer == DisposeTimer(old(timer))
    {
      if timer.Some? {
        timer := Some(timer.value.(pending := false));
      }
    }
  }

  /** Probing: one call at a time; enough successes close the breaker, one failure re-opens it. */
  class HalfOpenState {
    const sw: CircuitBreaker
    const invoker: Invoker
    const successThreshold: int32
    const invocationTimeout: TimeSpan
    var successCount: int32
    var currentlyInvoking: bool

    constructor (sw: CircuitBreaker, invoker: Invoker, successThreshold: int32, invocationTimeout: TimeSpan)
      ensures this.sw == sw && this.invoker == invoker
      ensures this.successThreshold == successThreshold && this.invocationTimeout == invocationTimeout
      ensures successCount == 0 && !currentlyInvoking
    {
      this.sw := sw;
      this.invoker := invoker;
      this.successThreshold := successThreshold;
      this.invocationTimeout := invocationTimeout;
      successCount := 0;
      currentlyInvoking := false;
    }

    /** The checking constructor: switch, invoker, threshold, timeout, in that order. */
    static method New(sw: Option<CircuitBreaker>, invoker: Option<Invoker>,
                      successThreshold: int32, invocationTimeout: TimeSpan) returns (r: Result<HalfOpenState>)
      ensures r.Success? <==> HalfOpenArgumentsError(sw, invoker, successThreshold, invocationTimeout).None?
      ensures r.Failure? ==> Some(r.error) == HalfOpenArgumentsError(sw, invoker, successThreshold, invocationTimeout)
      ensures r.Success? ==> fresh(r.value) && r.value.successCount == 0 && !r.value.currentlyInvoking
      ensures r.Success? ==> r.value.sw == sw.value && r.value.invoker == invoker.value
      ensures r.Success? ==> r.value.successThreshold == successThreshold && r.value.invocationTimeout == invocationTimeout
    {
      var s := OrThrow(sw, "@switch");
      if s.Failure? { return Failure(s.error); }
      var i := OrThrow(invoker, "invoker");
      if i.Failure? { return Failure(i.error); }
      var t := PositiveOrThrow(successThreshold, "successThreshold");
      if t.Failure? { return Failure(t.error); }
      var to := PositiveTimeSpanOrThrow(invocationTimeout, "invocationTimeout");
      if to.Failure? { return Failure(to.error); }
      var state := new HalfOpenState(s.value, i.value, t.value, to.value);
      return Success(state);
    }

    /** Claims the single in-flight slot and invokes; when the slot is taken, rejects without invoking. */
    method Invoke<T>(f: Func<T>) returns (r: Result<T>)
      requires sw.Valid() && sw.halfOpenState == this
      modifies sw`current, sw.States()
      ensures sw.Valid()
      ensures (sw.Model(), r) == HalfOpenInvoke(old(sw.Model()), sw.Cfg(), f)
    {
      if !currentlyInvoking {
        currentlyInvoking := true;
        r := invoker.Invoke(sw, HalfOpen, f, invocationTimeout);
      } else {
        r := Failure(OpenCircuitBreaker);
      }
    }

    /** Frees the slot and counts the success; the success that reaches the threshold resets the switch. */
    method ExecutionSucceeded()
      requires sw.Valid() && sw.halfOpenState == this
      modifies this`successCount, this`currentlyInvoking, sw`current, sw.closedState
      ensures sw.Valid()
      ensures sw.Model() == HalfOpenSucceeded(old(sw.Model()), sw.Cfg())
    {
      currentlyInvoking := false;
      successCount := Increment(successCount);
      if successCount == successThreshold {
        sw.Reset(HalfOpen);
      }
    }

    /** Any failure trips the switch; the counters are left as they are. */
    method ExecutionFailed()
      requires sw.Valid() && sw.halfOpenState == this
      modifies sw`current, sw.openState
      ensures sw.Valid()
      ensures sw.Model() == HalfOpenFailed(old(sw.Model()), sw.Cfg())
    {
      sw.Trip(HalfOpen);
    }

    method BecomeActive()
      modifies this`successCount, this`currentlyInvoking
      ensures successCount == 0 && !currentlyInvoking
    {
      successCount := 0;
      currentlyInvoking := false;
    }

    /** The base class's Dispose, which releases nothing. */
    method Dispose()
      ensures unchanged(this)
    {
    }
  }

  /** The breaker and switch. The three state fields are set once, by Create, and never change. */
  class CircuitBreaker {
    var closedState: ClosedState?
    var openState: OpenState?
    var halfOpenState: HalfOpenState?
    /** `CurrentState`, named by its kind. */
    var current: StateType

    /** The three states exist, belong to this breaker, share one invoker and were built from
        settings their constructors accepted. */
    ghost predicate Valid()
      reads this
    {
      && closedState != null && openState != null && halfOpenState != null
      && closedState.sw == this && openState.sw == this && halfOpenState.sw == this
      && openState.invoker == closedState.invoker && halfOpenState.invoker == closedState.invoker
      && halfOpenState.invocationTimeout == closedState.invocationTimeout
      && ValidConfig(Cfg())
    }

    ghost function States(): set<object>
      reads this
      requires closedState != null && openState != null && halfOpenState != null
    {
      {closedState, openState, halfOpenState}
    }

    /** The state object of kind `k`. */
    ghost function StateObject(k: StateType): object
      reads this
      requires closedState != null && openState != null && halfOpenState != null
    {
      match k
      case Closed => closedState
      case Open => openState
      case HalfOpen => halfOpenState
    }

    ghost function Cfg(): Config
      reads this
      requires closedState != null && openState != null && halfOpenState != null
    {
      Config(closedState.errorThreshold, halfOpenState.successThreshold,
             closedState.invocationTimeout, openState.resetTimeout)
    }

    ghost function Model(): Machine
      reads this, closedState, openState, halfOpenState
      requires closedState != null && openState != null && halfOpenState != null
    {
      Machine(current, closedState.failures, halfOpenState.successCount, halfOpenState.currentlyInvoking,
              openState.timer, openState.scheduled)
    }

    /** Allocation only; Create builds the states. */
    constructor ()
      ensures current == Closed && closedState == null && openState == null && halfOpenState == null
    {
      current := Closed;
      closedState, openState, halfOpenState := null, null, null;
    }

    /** The constructor: build the invoker (the scheduler is checked), then the Closed, Open and
        Half-Open states from the settings, and start Closed. */
    static method Create(scheduler: Option<TaskScheduler>, options: CircuitBreakerOptions?) returns (r: Result<CircuitBreaker>)
      ensures scheduler.None? ==> r == Failure(ArgumentNull("scheduler"))
      ensures scheduler.Some? && options == null ==> r == Failure(NullReference)
      ensures scheduler.Some? && options != null ==>
        var cfg := Config(options.errorThreshold, options.successThreshold, options.invocationTimeout, options.resetTimeout);
        && (r.Success? <==> OptionsError(cfg).None?)
        && (r.Failure? ==> Some(r.error) == OptionsError(cfg))
        && (r.Success? ==> fresh(r.value) && r.value.Valid() && fresh(r.value.States())
                           && r.value.Model() == Initial() && r.value.Cfg() == cfg)
    {
      var inv := Invoker.New(scheduler);
      if inv.Failure? { return Failure(inv.error); }
      if options == null { return Failure(NullReference); }
      var b := new CircuitBreaker();
      var c := ClosedState.New(Some(b), Some(inv.value), options.errorThreshold, options.invocationTimeout);
      if c.Failure? { return Failure(c.error); }
      var o := OpenState.New(Some(b), Some(inv.value), options.resetTimeout);
      if o.Failure? { return Failure(o.error); }
      var h := HalfOpenState.New(Some(b), Some(inv.value), options.successThreshold, options.invocationTimeout);
      if h.Failure? { return Failure(h.error); }
      b.closedState, b.openState, b.halfOpenState := c.value, o.value, h.value;
      b.current := Closed;
      return Success(b);
    }

    /** The constructor that takes a scheduler and uses the default settings. */
    static method CreateWithScheduler(scheduler: Option<TaskScheduler>) returns (r: Result<CircuitBreaker>)
      ensures scheduler.None? ==> r == Failure(ArgumentNull("scheduler"))
      ensures scheduler.Some? ==> r.Success? && fresh(r.value) && r.value.Valid() && fresh(r.value.States())
      ensures scheduler.Some? ==> r.value.Model() == Initial()
      ensures scheduler.Some? ==>
        r.value.Cfg() == Config(DefaultErrorThreshold, DefaultSuccessThreshold, DefaultInvocationTimeout, DefaultResetTimeout)
    {
      var options := new CircuitBreakerOptions();
      DefaultTimeoutsInMilliseconds();
      r := Create(scheduler, options);
    }

    /** The parameterless constructor; the platform's default scheduler is passed in. */
    static method CreateDefault(defaultScheduler: TaskScheduler) returns (r: Result<CircuitBreaker>)
      ensures r.Success? && fresh(r.value) && r.value.Valid() && fresh(r.value.States())
      ensures r.value.Model() == Initial()
      ensures r.value.Cfg() == Config(DefaultErrorThreshold, DefaultSuccessThreshold, DefaultInvocationTimeout, DefaultResetTimeout)
    {
      r := CreateWithScheduler(Some(defaultScheduler));
    }

    function IsClosed(): bool
      reads this
    {
      current == Closed
    }

    function IsOpen(): bool
      reads this
    {
      current == Open
    }

    function IsHalfOpen(): bool
      reads this
    {
      current == HalfOpen
    }

    /** Hands the function to the current state's Invoke and returns or throws what it does. */
    method Execute<T>(f: Func<T>) returns (r: Result<T>)
      requires Valid()
      modifies this`current, States()
      ensures Valid()
      ensures (Model(), r) == StateMachine.Execute(old(Model()), Cfg(), f)
    {
      match current
      case Closed => r := closedState.Invoke(f);
      case Open => r := openState.Invoke(f);
      case HalfOpen => r := halfOpenState.Invoke(f);
    }

    /** The generic breaker's `Execute()`: the same, with the subclass's `Perform` as the function. */
    method ExecutePerform<T>(perform: Func<T>) returns (r: Result<T>)
      requires Valid()
      requires perform.Func?
      modifies this`current, States()
      ensures Valid()
      ensures (Model(), r) == StateMachine.Execute(old(Model()), Cfg(), perform)
    {
      r := Execute(perform);
    }

    method Reset(from: StateType)
      requires Valid()
      modifies this`current, closedState
      ensures Valid()
      ensures Model() == StateMachine.Reset(old(Model()), Cfg(), from)
    {
      Transition(from, Closed);
    }

    method Trip(from: StateType)
      requires Valid()
      modifies this`current, openState
      ensures Valid()
      ensures Model() == StateMachine.Trip(old(Model()), Cfg(), from)
    {
      Transition(from, Open);
    }

    method Try(from: StateType)
      requires Valid()
      modifies this`current, halfOpenState
      ensures Valid()
      ensures Model() == StateMachine.Try(old(Model()), Cfg(), from)
    {
      Transition(from, HalfOpen);
    }

    /** Swaps the current state from `from` to `to`; only when the swap happens is `to` activated. */
    method Transition(from: StateType, to: StateType)
      requires Valid()
      modifies this`current, StateObject(to)
      ensures Valid()
      ensures Model() == StateMachine.Transition(old(Model()), Cfg(), from, to)
    {
      if current == from {
        current := to;
        match to
        case Closed => closedState.BecomeActive();
        case Open => openState.BecomeActive();
        case HalfOpen => halfOpenState.BecomeActive();
      }
    }

    /** `state.ExecutionSucceeded()` on the state of kind `state`. */
    method NotifySucceeded(state: StateType)
      requires Valid()
      modifies this`current, States()
      ensures Valid()
      ensures Model() == Succeeded(old(Model()), Cfg(), state)
    {
      match state
      case Closed => closedState.ExecutionSucceeded();
      case Open => openState.ExecutionSucceeded();
      case HalfOpen => halfOpenState.ExecutionSucceeded();
    }

    /** `state.ExecutionFailed()` on the state of kind `state`. */
    method NotifyFailed(state: StateType)
      requires Valid()
      modifies this`current, States()
      ensures Valid()
      ensures Model() == Failed(old(Model()), Cfg(), state)
    {
      match state
      case Closed => closedState.ExecutionFailed();
      case Open => openState.ExecutionFailed();
      case HalfOpen => halfOpenState.ExecutionFailed();
    }

    /** Disposes the three states; only the Open state holds something to release. */
    method Dispose()
      requires Valid()
      modifies openState`timer
      ensures Model() == StateMachine.Dispose(old(Model()))
    {
      closedState.Dispose();
      openState.Dispose();
      halfOpenState.Dispose();
    }
  }
}
