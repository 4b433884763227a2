/** Clients of the breaker objects that follow the repository's breaker tests step by step;
    everything they promise follows from the contracts of module Breakers alone. */
module Scenarios {
  import opened Types
  import opened Options
  import opened StateMachine
  import opened Breakers
  import Properties

  /** Options with the given settings, as the tests' object initialisers build them. */
  method MakeOptions(errorThreshold: int32, successThreshold: int32, invocationMs: int, resetMs: int)
    returns (options: CircuitBreakerOptions)
    ensures fresh(options)
    ensures options.errorThreshold == errorThreshold && options.successThreshold == successThreshold
    ensures options.invocationTimeout == FromMilliseconds(invocationMs)
    ensures options.resetTimeout == FromMilliseconds(resetMs)
  {
    options := new CircuitBreakerOptions();
    options.errorThreshold := errorThreshold;
    options.successThreshold := successThreshold;
    options.invocationTimeout := FromMilliseconds(invocationMs);
    options.resetTimeout := FromMilliseconds(resetMs);
  }

  /** Builds a breaker from settings the state constructors accept. */
  method Build(errorThreshold: int32, successThreshold: int32, invocationMs: int, resetMs: int)
    returns (breaker: CircuitBreaker)
    requires errorThreshold >= 1 && successThreshold >= 1 && invocationMs >= 1 && resetMs >= 1
    ensures fresh(breaker) && breaker.Valid() && fresh(breaker.States())
    ensures breaker.Model() == Initial()
    ensures breaker.Cfg() == Config(errorThreshold, successThreshold, FromMilliseconds(invocationMs), FromMilliseconds(resetMs))
  {
    var scheduler := new TaskScheduler();
    var options := MakeOptions(errorThreshold, successThreshold, invocationMs, resetMs);
    Properties.ConstructionChecks(Config(errorThreshold, successThreshold, FromMilliseconds(invocationMs), FromMilliseconds(resetMs)));
    var created := CircuitBreaker.Create(Some(scheduler), options);
    breaker := created.value;
  }

  /** errorThreshold = 2: the first failing call re-raises the function's exception and leaves
      the breaker Closed, the second trips it, and the next call is rejected. */
  method TripOnErrors() returns (first: Result<string>, closedAfterFirst: bool,
                                 second: Result<string>, openAfterSecond: bool, third: Result<string>)
    ensures first == Failure(Raised("NotImplementedException")) && closedAfterFirst
    ensures second == Failure(Raised("NotImplementedException")) && openAfterSecond
    ensures third == Failure(OpenCircuitBreaker)
  {
    var breaker := Build(2, 1, 200, 200);
    var notImplemented: Func<string> := Func(0, Failure(Raised("NotImplementedException")));
    first := breaker.Execute(notImplemented);
    closedAfterFirst := breaker.IsClosed();
    second := breaker.Execute(notImplemented);
    openAfterSecond := breaker.IsOpen();
    third := breaker.Execute(notImplemented);
  }

  /** A thrown exception and a timeout each count once toward errorThreshold = 2. */
  method TripOnExceptionThenTimeout() returns (first: Result<string>, second: Result<string>, open: bool)
    ensures first == Failure(Raised("NotImplementedException"))
    ensures second == Failure(CircuitBreakerTimeout)
    ensures open
  {
    var breaker := Build(2, 1, 200, 200);
    var notImplemented: Func<string> := Func(0, Failure(Raised("NotImplementedException")));
    var slow: Func<string> := Func(300, Success("Some String"));
    first := breaker.Execute(notImplemented);
    second := breaker.Execute(slow);
    open := breaker.IsOpen();
  }

  /** errorThreshold = 1: one failure opens the breaker, and when the reset timer fires it is
      Half-Open. */
  method TryAfterResetTimeout() returns (openAfterFailure: bool, halfOpenAfterTimer: bool)
    ensures openAfterFailure && halfOpenAfterTimer
  {
    var breaker := Build(1, 1, 1000, 20);
    var notImplemented: Func<string> := Func(0, Failure(Raised("NotImplementedException")));
    var _ := breaker.Execute(notImplemented);
    openAfterFailure := breaker.IsOpen();
    breaker.openState.TimerFires();
    halfOpenAfterTimer := breaker.IsHalfOpen();
  }

  /** successThreshold = 2: moved to Half-Open with Try(CurrentState), one successful call keeps
      it Half-Open and returns the value, a second closes it. */
  method ResetAfterSuccesses() returns (value: Result<string>, halfOpenAfterOne: bool, closedAfterTwo: bool)
    ensures value == Success("Dummy String")
    ensures halfOpenAfterOne && closedAfterTwo
  {
    var breaker := Build(2, 2, 50, 20);
    breaker.Try(breaker.current);
    var dummy: Func<string> := Func(0, Success("Dummy String"));
    value := breaker.Execute(dummy);
    halfOpenAfterOne := breaker.IsHalfOpen();
    var _ := breaker.Execute(dummy);
    closedAfterTwo := breaker.IsClosed();
  }

  /** With the default settings, Trip(CurrentState) opens the breaker and the generic breaker's
      Execute() is then rejected without running Perform. */
  method TripFromCurrentRejects() returns (open: bool, r: Result<string>)
    ensures open && r == Failure(OpenCircuitBreaker)
  {
    var scheduler := new TaskScheduler();
    var created := CircuitBreaker.CreateDefault(scheduler);
    var breaker := created.value;
    breaker.Trip(breaker.current);
    open := breaker.IsOpen() && !breaker.IsClosed() && !breaker.IsHalfOpen();
    r := breaker.ExecutePerform(Func(0, Success("Dummy String")));
  }
}
