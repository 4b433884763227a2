/** The breaker's behaviour as functions on one value that holds every mutable field of the
    breaker and its three states. The classes in module Breakers are proved to change their
    fields exactly as these functions say. */
module StateMachine {
  import opened Types
  import opened Guard

  /** The three states; the breaker owns exactly one object of each kind. */
  datatype StateType = Closed | Open | HalfOpen

  /** The Open state's one-shot timer: when it is due, and whether it is still going to fire
      (false once it has fired or has been disposed). */
  datatype Timer = Timer(dueMs: int, pending: bool)

  /** The settings each state was built with. */
  datatype Config = Config(errorThreshold: int32, successThreshold: int32,
                           invocationTimeout: TimeSpan, resetTimeout: TimeSpan)

  /** What the state constructors accept. */
  predicate ValidConfig(cfg: Config) {
    && cfg.errorThreshold >= 1
    && cfg.successThreshold >= 1
    && cfg.invocationTimeout.WholeMilliseconds() >= 1
    && cfg.resetTimeout.WholeMilliseconds() >= 1
  }

  /** Every mutable field: the breaker's current state, the Closed state's failure count,
      the Half-Open state's success count and single-flight flag, the Open state's timer
      and its `Scheduled` flag. */
  datatype Machine = Machine(current: StateType,
                             failures: int32,
                             successCount: int32,
                             currentlyInvoking: bool,
                             timer: Option<Timer>,
                             scheduled: bool)

  /** A freshly built breaker: Closed, every counter and flag zero, no timer. */
  function Initial(): Machine {
    Machine(Closed, 0, 0, false, None, false)
  }

  // ---------------------------------------------------------------------------
  // Construction checks

  function ErrorOf<T>(r: Result<T>): Option<Exception> {
    if r.Failure? then Some(r.error) else None
  }

  /** The first exception of two checks run in order. */
  function Then(first: Option<Exception>, second: Option<Exception>): Option<Exception> {
    if first.Some? then first else second
  }

  /** The base state constructor: the switch is checked before the invoker. */
  function BaseArgumentsError<S, I>(sw: Option<S>, invoker: Option<I>): Option<Exception> {
    Then(ErrorOf(OrThrow(sw, "@switch")), ErrorOf(OrThrow(invoker, "invoker")))
  }

  function ClosedArgumentsError<S, I>(sw: Option<S>, invoker: Option<I>,
                                      errorThreshold: int32, invocationTimeout: TimeSpan): Option<Exception> {
    Then(BaseArgumentsError(sw, invoker),
      Then(ErrorOf(PositiveOrThrow(errorThreshold, "errorThreshold")),
           ErrorOf(PositiveTimeSpanOrThrow(invocationTimeout, "invocationTimeout"))))
  }

  function OpenArgumentsError<S, I>(sw: Option<S>, invoker: Option<I>, resetTimeout: TimeSpan): Option<Exception> {
    Then(BaseArgumentsError(sw, invoker), ErrorOf(PositiveTimeSpanOrThrow(resetTimeout, "resetTimeout")))
  }

  function HalfOpenArgumentsError<S, I>(sw: Option<S>, invoker: Option<I>,
                                        successThreshold: int32, invocationTimeout: TimeSpan): Option<Exception> {
    Then(BaseArgumentsError(sw, invoker),
      Then(ErrorOf(PositiveOrThrow(successThreshold, "successThreshold")),
           ErrorOf(PositiveTimeSpanOrThrow(invocationTimeout, "invocationTimeout"))))
  }

  /** The breaker constructor builds Closed, then Open, then Half-Open, always passing itself
      and its invoker, so only the settings can fail. */
  function OptionsError(cfg: Config): Option<Exception> {
    Then(ClosedArgumentsError(Some(()), Some(()), cfg.errorThreshold, cfg.invocationTimeout),
      Then(OpenArgumentsError(Some(()), Some(()), cfg.resetTimeout),
           HalfOpenArgumentsError(Some(()), Some(()), cfg.successThreshold, cfg.invocationTimeout)))
  }

  // ---------------------------------------------------------------------------
  // The switch

  /** The entry hook of state `k`. */
  function BecomeActive(m: Machine, cfg: Config, k: StateType): Machine {
    match k
    case Closed => m.(failures := 0)
    case HalfOpen => m.(successCount := 0, currentlyInvoking := false)
    // the previous timer, if any, is disposed and replaced by a fresh one-shot timer
    case Open => m.(timer := Some(Timer(cfg.resetTimeout.WholeMilliseconds(), true)), scheduled := true)
  }

  /** Compare-and-swap of the current state, then the entry hook of the new state. */
  function Transition(m: Machine, cfg: Config, from: StateType, to: StateType): Machine {
    if m.current == from then BecomeActive(m.(current := to), cfg, to) else m
  }

  function Trip(m: Machine, cfg: Config, from: StateType): Machine {
    Transition(m, cfg, from, Open)
  }

  function Reset(m: Machine, cfg: Config, from: StateType): Machine {
    Transition(m, cfg, from, Closed)
  }

  function Try(m: Machine, cfg: Config, from: StateType): Machine {
    Transition(m, cfg, from, HalfOpen)
  }

  // ---------------------------------------------------------------------------
  // Outcome notifications

  function ClosedSucceeded(m: Machine): Machine {
    m.(failures := 0)
  }

  function ClosedFailed(m: Machine, cfg: Config): Machine {
    var counted := m.(failures := Increment(m.failures));
    if counted.failures == cfg.errorThreshold then Trip(counted, cfg, Closed) else counted
  }

  function HalfOpenSucceeded(m: Machine, cfg: Config): Machine {
    var counted := m.(currentlyInvoking := false, successCount := Increment(m.successCount));
    if counted.successCount == cfg.successThreshold then Reset(counted, cfg, HalfOpen) else counted
  }

  function HalfOpenFailed(m: Machine, cfg: Config): Machine {
    Trip(m, cfg, HalfOpen)
  }

  /** `state.ExecutionSucceeded()` for the state of kind `k`; the Open state ignores it. */
  function Succeeded(m: Machine, cfg: Config, k: StateType): Machine {
    match k
    case Closed => ClosedSucceeded(m)
    case HalfOpen => HalfOpenSucceeded(m, cfg)
    case Open => m
  }

  /** `state.ExecutionFailed()` for the state of kind `k`; the Open state ignores it. */
  function Failed(m: Machine, cfg: Config, k: StateType): Machine {
    match k
    case Closed => ClosedFailed(m, cfg)
    case HalfOpen => HalfOpenFailed(m, cfg)
    case Open => m
  }

  // ---------------------------------------------------------------------------
  // The Open state's timer

  /** The timer callback: request Half-Open from Open, then clear `Scheduled`. */
  function HalfOpenCallback(m: Machine, cfg: Config): Machine {
    Try(m, cfg, Open).(scheduled := false)
  }

  /** The timer going off: a pending one-shot timer fires once and runs the callback;
      otherwise nothing happens. */
  function TimerElapsed(m: Machine, cfg: Config): Machine {
    match m.timer
    case Some(t) =>
      if t.pending then HalfOpenCallback(m.(timer := Some(t.(pending := false))), cfg) else m
    case None => m
  }

  /** Disposing the Open state releases its timer, which then never fires. */
  function DisposeTimer(timer: Option<Timer>): Option<Timer> {
    match timer
    case Some(t) => Some(t.(pending := false))
    case None => None
  }

  function Dispose(m: Machine): Machine {
    m.(timer := DisposeTimer(m.timer))
  }

  // ---------------------------------------------------------------------------
  // Running the guarded function

  /** The guarded function: null, or a call that runs for `runMs` milliseconds and then
      returns or throws as `outcome` says. */
  datatype Func<T> = Null | Func(runMs: nat, outcome: Result<T>)

  /** What the invoker's inner call yields: a null function is an ArgumentNullException,
      a call that does not finish within the timeout is a CircuitBreakerTimeoutException,
      otherwise the function's own value or exception. */
  function Run<T>(f: Func<T>, timeout: TimeSpan): Result<T> {
    var thrown := ThrowIfNull(if f.Null? then None else Some(f), "function");
    if thrown.Some? then Failure(thrown.value)
    else if f.runMs <= timeout.WholeMilliseconds() then f.outcome
    else Failure(CircuitBreakerTimeout)
  }

  /** `Invoker.Invoke(state, function, timeout)`: run, then report the outcome to the state. */
  function Invoke<T>(m: Machine, cfg: Config, k: StateType, f: Func<T>, timeout: TimeSpan): (Machine, Result<T>) {
    var r := Run(f, timeout);
    (if r.Success? then Succeeded(m, cfg, k) else Failed(m, cfg, k), r)
  }

  function ClosedInvoke<T>(m: Machine, cfg: Config, f: Func<T>): (Machine, Result<T>) {
    Invoke(m, cfg, Closed, f, cfg.invocationTimeout)
  }

  function OpenInvoke<T>(m: Machine, f: Func<T>): (Machine, Result<T>) {
    (m, Failure(OpenCircuitBreaker))
  }

  /** Half-Open admits a call only when no other call is in flight. */
  function HalfOpenInvoke<T>(m: Machine, cfg: Config, f: Func<T>): (Machine, Result<T>) {
    if m.currentlyInvoking then (m, Failure(OpenCircuitBreaker))
    else Invoke(m.(currentlyInvoking := true), cfg, HalfOpen, f, cfg.invocationTimeout)
  }

  /** `breaker.Execute(function)`: the current state's Invoke. */
  function Execute<T>(m: Machine, cfg: Config, f: Func<T>): (Machine, Result<T>) {
    match m.current
    case Closed => ClosedInvoke(m, cfg, f)
    case Open => OpenInvoke(m, f)
    case HalfOpen => HalfOpenInvoke(m, cfg, f)
  }
}
