# Resilient.Net circuit breaker in Dafny

This project models the circuit breaker of Resilient.Net, a C# library. The breaker guards calls to a
function and has three states:

- **Closed** lets every call through and counts failures in a row. The failure that brings
  the count to `ErrorThreshold` trips the breaker.
- **Open** rejects every call with `OpenCircuitBreakerException`. It arms a one-shot timer.
  When the timer fires, the breaker moves to Half-Open.
- **Half-Open** admits one call at a time. `SuccessThreshold` successes close the breaker again,
  and a single failure re-opens it.

Every change of state goes through `Transition(from, to)` on the breaker. It is a compare-and-swap:
the current state changes only if it is still `from`, and only then is `to.BecomeActive()` called.

The model has these parts:

- `types.dfy`: exceptions, `Result` (a call returns a value or throws), nullable references as `Option`,
  the 32-bit `int`, and `TimeSpan` counted in ticks.
  - `Increment` wraps the way `Interlocked.Increment` does.
  - `WholeMilliseconds` is the truncating `(int)TotalMilliseconds` cast.
- `guard.dfy`: the argument checks of `Util/Guard.cs`.
- `options.dfy`: `CircuitBreakerOptions`, a class with public mutable settings and their defaults.
- `state_machine.dfy`: the specification. `Machine` is one value that holds every mutable field of the
  breaker and its three states. There is one function per operation: `Transition`,
  `ClosedFailed`, `HalfOpenSucceeded`, `TimerElapsed`, `Execute` and the rest.
- `breakers.dfy`: the objects.
  - `CircuitBreaker` is the breaker and the switch. It owns one `ClosedState`, one `OpenState`
    and one `HalfOpenState`.
  - Each state holds a constant back-reference to the breaker and to the shared `Invoker`. It
    updates its own fields in place.
  - Every method is proved to change the fields exactly as the matching `StateMachine` function
    says. `Model()` reads the fields and `Cfg()` reads the settings.
- `properties.dfy`: what the state machine promises, proved about the specification functions:
  - construction checks and their order;
  - the compare-and-swap;
  - counting to the thresholds;
  - rejection while Open or while a probe is in flight;
  - timeouts counting as failures;
  - the timer;
  - an invariant kept by every operation;
  - a full Closed → Open → Half-Open → Closed round trip;
  - the end-to-end scenarios of the repository's tests.
- `scenarios.dfy`: clients that drive the objects through the repository's breaker tests. Each
  outcome those tests assert is proved from the class contracts alone.

Modelling choices:

- The state interface is implemented by three classes.
  - Here a state is named by its kind, `StateType`, which mirrors the library's
    `CircuitBreakerStateType` enum.
  - The calls made through the interface are dispatched on that kind by the breaker:
    `NotifySucceeded`, `NotifyFailed`, and the `match` in `Transition`.
- A C# constructor that can throw becomes a static `New` or `Create` method that returns a `Result`.
  The Dafny constructors only allocate.
- The breaker constructor passes `this` to the state constructors. Here the breaker is allocated
  first, and its three state fields are set once by `Create`.
- The guarded function is a value: `Null`, or `Func(runMs, outcome)`.
  - It times out when it runs for more whole milliseconds than the timeout allows.
  - Otherwise it returns or throws what `outcome` says.
- The Open state's timer is a value `Timer(dueMs, pending)`. Its firing is an explicit step,
  `OpenState.TimerFires`, which runs the callback `HalfOpen` once.
- `CircuitBreaker.cs` and `Abstractions/CircuitBreaker.cs` have identical switch logic. One class
  models both. `ExecutePerform` is the generic variant's `Execute()`, with the subclass's `Perform`
  as the function.
- The invoker and the state constructors call guard helpers that `Util/Guard.cs` does not declare:
  `ValueOrThrow`, `EnsureNotNull` and `PositiveValueOrThrow`. They are modelled as the checks
  that file does declare, respectively `OrThrow`, `ThrowIfNull` and `PositiveOrThrow` on `int`.

## Model

| member | source | states |
|---|---|---|
| Types.Increment | Resilient.Net/CircuitBreaker/States/ClosedCircuitBreakerState.cs:38 | Adds exactly one below int.MaxValue, and wraps int.MaxValue to int.MinValue. |
| Types.TimeSpan.WholeMilliseconds | Resilient.Net/Util/Guard.cs:37 | The result is the whole milliseconds of the span, truncated toward zero, for positive and negative spans alike. |
| Guard.ThrowIfNull | Resilient.Net/Util/Guard.cs:7-13 | Throws exactly when the value is null, and then throws ArgumentNullException carrying the given name. |
| Guard.OrThrow | Resilient.Net/Util/Guard.cs:15-23 | Returns the argument itself exactly when it is not null; otherwise throws ArgumentNullException(name). |
| Guard.PositiveOrThrow | Resilient.Net/Util/Guard.cs:25-33 | Succeeds exactly when value >= 1 and then returns the value unchanged; otherwise throws ArgumentOutOfRangeException(name). |
| Guard.PositiveTimeSpanOrThrow | Resilient.Net/Util/Guard.cs:35-39 | Succeeds exactly when the span is at least one whole millisecond long, returning the span unchanged; otherwise throws ArgumentOutOfRangeException(name). |
| Options.CircuitBreakerOptions.constructor | Resilient.Net/CircuitBreaker/CircuitBreakerOptions.cs:13-19 | The defaults are ErrorThreshold 2, SuccessThreshold 2, InvocationTimeout 1 s and ResetTimeout 10 s. |
| Options.DefaultTimeoutsInMilliseconds | Resilient.Net/CircuitBreaker/CircuitBreakerOptions.cs:17-18 | The default timeouts are 1000 and 10000 whole milliseconds. |
| Breakers.Invoker.New | Resilient.Net/CircuitBreaker/CircuitBreakerInvoker.cs:14-17 | Fails exactly when the scheduler is null, with ArgumentNullException("scheduler"); otherwise keeps the scheduler. |
| Breakers.Invoker.Invoke | Resilient.Net/CircuitBreaker/CircuitBreakerInvoker.cs:19-35 | Returns or re-raises exactly what the call yields: the value, the function's own exception, a timeout, or ArgumentNullException for a null function. The state hears ExecutionSucceeded on a value and ExecutionFailed on any exception. |
| Breakers.ClosedState.New | Resilient.Net/CircuitBreaker/States/ClosedCircuitBreakerState.cs:19-24 | Fails exactly when a check fails. The first failing check, in the order switch, invoker, errorThreshold, invocationTimeout, gives the exception. Otherwise it starts with no failures and keeps the arguments. |
| Breakers.ClosedState.Invoke | Resilient.Net/CircuitBreaker/States/ClosedCircuitBreakerState.cs:26-29 | There is no admission check: the call goes to the invoker with this state and the invocation timeout. |
| Breakers.ClosedState.ExecutionSucceeded | Resilient.Net/CircuitBreaker/States/ClosedCircuitBreakerState.cs:31-34 | Clears the failure count and touches nothing else (it never calls the switch). |
| Breakers.ClosedState.ExecutionFailed | Resilient.Net/CircuitBreaker/States/ClosedCircuitBreakerState.cs:36-42 | Adds one to the failure count, and trips the switch from Closed exactly when the new count equals the threshold. |
| Breakers.ClosedState.BecomeActive | Resilient.Net/CircuitBreaker/States/ClosedCircuitBreakerState.cs:44-47 | Clears the failure count and touches nothing else. |
| Breakers.ClosedState.Dispose | Resilient.Net/CircuitBreaker/States/BaseCircuitBreakerState.cs:38-40 | Changes nothing. |
| Breakers.OpenState.New | Resilient.Net/CircuitBreaker/States/OpenCircuitBreakerState.cs:16-20 | Fails exactly when a check fails; the first failing check, in the order switch, invoker, resetTimeout, gives the exception. Otherwise there is no timer and Scheduled is false. |
| Breakers.OpenState.Invoke | Resilient.Net/CircuitBreaker/States/OpenCircuitBreakerState.cs:22-25 | Always throws OpenCircuitBreakerException, never runs the function and changes nothing. |
| Breakers.OpenState.ExecutionSucceeded | Resilient.Net/CircuitBreaker/States/OpenCircuitBreakerState.cs:27-29 | Changes nothing. |
| Breakers.OpenState.ExecutionFailed | Resilient.Net/CircuitBreaker/States/OpenCircuitBreakerState.cs:31-33 | Changes nothing. |
| Breakers.OpenState.BecomeActive | Resilient.Net/CircuitBreaker/States/OpenCircuitBreakerState.cs:35-44 | Replaces any previous timer with a fresh pending one-shot timer due after the reset timeout in whole milliseconds, and sets Scheduled. |
| Breakers.OpenState.HalfOpen | Resilient.Net/CircuitBreaker/States/OpenCircuitBreakerState.cs:46-50 | The callback requests Try from Open, then clears Scheduled. |
| Breakers.OpenState.TimerFires | Resilient.Net/CircuitBreaker/States/OpenCircuitBreakerState.cs:42 | A pending timer fires once and runs the callback; a released or already fired timer does nothing. |
| Breakers.OpenState.Dispose | Resilient.Net/CircuitBreaker/States/OpenCircuitBreakerState.cs:52-60 | Releases the timer if there is one, so it stops being pending. |
| Breakers.HalfOpenState.New | Resilient.Net/CircuitBreaker/States/HalfOpenCircuitBreakerState.cs:14-19 | Fails exactly when a check fails. The first failing check, in the order switch, invoker, successThreshold, invocationTimeout, gives the exception. Otherwise the success count is zero and nothing is in flight. |
| Breakers.HalfOpenState.Invoke | Resilient.Net/CircuitBreaker/States/HalfOpenCircuitBreakerState.cs:21-29 | With nothing in flight, it claims the slot and invokes. Otherwise it throws OpenCircuitBreakerException without invoking and changes nothing. |
| Breakers.HalfOpenState.ExecutionSucceeded | Resilient.Net/CircuitBreaker/States/HalfOpenCircuitBreakerState.cs:31-39 | Frees the slot and adds one to the success count. It resets the switch from Half-Open exactly when the new count equals the threshold. |
| Breakers.HalfOpenState.ExecutionFailed | Resilient.Net/CircuitBreaker/States/HalfOpenCircuitBreakerState.cs:41-44 | Trips the switch from Half-Open unconditionally. The success count and the slot are left unchanged. |
| Breakers.HalfOpenState.BecomeActive | Resilient.Net/CircuitBreaker/States/HalfOpenCircuitBreakerState.cs:46-50 | Sets the success count to zero and frees the slot. |
| Breakers.HalfOpenState.Dispose | Resilient.Net/CircuitBreaker/States/BaseCircuitBreakerState.cs:32-40 | Changes nothing. |
| Breakers.CircuitBreaker.Create | Resilient.Net/CircuitBreaker/CircuitBreaker.cs:64-73 | A null scheduler throws ArgumentNullException("scheduler") and null options throw NullReferenceException. Otherwise it fails exactly when the settings do, with the first state constructor's exception. On success the breaker starts Closed, with every counter and flag cleared, and holds the options' settings. |
| Breakers.CircuitBreaker.CreateWithScheduler | Resilient.Net/CircuitBreaker/CircuitBreaker.cs:54-57 | With the default options, construction fails only for a null scheduler. The breaker holds the default settings. |
| Breakers.CircuitBreaker.CreateDefault | Resilient.Net/CircuitBreaker/CircuitBreaker.cs:44-47 | Always succeeds, Closed with the default settings. |
| Breakers.CircuitBreaker.Execute | Resilient.Net/CircuitBreaker/CircuitBreaker.cs:80-83 | The result and the new state are exactly those of the current state's Invoke. |
| Breakers.CircuitBreaker.ExecutePerform | Resilient.Net/CircuitBreaker/Abstractions/CircuitBreaker.cs:78-81 | The generic breaker's Execute() behaves exactly like Execute with Perform as the function. |
| Breakers.CircuitBreaker.Reset | Resilient.Net/CircuitBreaker/CircuitBreaker.cs:91-94 | Transition from the given state to Closed. |
| Breakers.CircuitBreaker.Trip | Resilient.Net/CircuitBreaker/CircuitBreaker.cs:100-103 | Transition from the given state to Open. |
| Breakers.CircuitBreaker.Try | Resilient.Net/CircuitBreaker/CircuitBreaker.cs:109-112 | Transition from the given state to Half-Open. |
| Breakers.CircuitBreaker.Transition | Resilient.Net/CircuitBreaker/CircuitBreaker.cs:114-120 | If the current state is still `from`, it becomes `to` and only `to` is activated. Otherwise nothing changes. Only the target state's fields may be written. |
| Breakers.CircuitBreaker.NotifySucceeded | Resilient.Net/CircuitBreaker/CircuitBreakerInvoker.cs:26 | ExecutionSucceeded reaches the state of the given kind and does what that state's method does. |
| Breakers.CircuitBreaker.NotifyFailed | Resilient.Net/CircuitBreaker/CircuitBreakerInvoker.cs:30 | ExecutionFailed reaches the state of the given kind and does what that state's method does. |
| Breakers.CircuitBreaker.Dispose | Resilient.Net/CircuitBreaker/CircuitBreaker.cs:143-151 | Disposes the three states. Only the Open state's timer is released, and nothing else changes. |
| Properties.InitiallyClosed | Resilient.Net/CircuitBreaker/CircuitBreaker.cs:72 | A new breaker is Closed and neither Open nor Half-Open, and it satisfies the invariant. |
| Properties.ConstructionChecks | Resilient.Net/CircuitBreaker/CircuitBreaker.cs:64-73 | Construction fails exactly when a setting is out of range. The first bad setting, in the order errorThreshold, invocationTimeout, resetTimeout, successThreshold, names the ArgumentOutOfRangeException. |
| Properties.BaseChecksOrder | Resilient.Net/CircuitBreaker/States/BaseCircuitBreakerState.cs:11-15 | A null switch is reported before a null invoker, and both present means no error. |
| Properties.SubMillisecondSpanRejected | Resilient.Net/Util/Guard.cs:35-39 | A positive span one tick short of a millisecond is rejected, and exactly one millisecond is accepted. |
| Properties.TransitionIsCompareAndSwap | Resilient.Net/CircuitBreaker/Abstractions/CircuitBreaker.cs:118-124 | A transition from the current state swaps and then activates the target. A stale `from` leaves every field unchanged. |
| Properties.BecomeActiveResets | Resilient.Net/CircuitBreaker/States/OpenCircuitBreakerState.cs:35-44 | Each entry hook resets only its own state: Closed clears failures, Half-Open clears the count and slot, and Open re-arms the timer and sets Scheduled. |
| Properties.SwitchTargets | Resilient.Net/CircuitBreaker/Abstractions/CircuitBreaker.cs:95-116 | Trip, Reset and Try land on Open, Closed and Half-Open. Any edge is allowed: from a new breaker, Trip(current) gives Open and Try(current) gives Half-Open. |
| Properties.ClosedCounting | Resilient.Net/CircuitBreaker/States/ClosedCircuitBreakerState.cs:31-42 | Below the threshold, a failure adds exactly one. It trips exactly when the new count equals the threshold and stays Closed exactly when it is below. A success clears the count. |
| Properties.HalfOpenCounting | Resilient.Net/CircuitBreaker/States/HalfOpenCircuitBreakerState.cs:31-44 | A success closes the breaker exactly at the threshold; below it, the slot is freed and the count grows by one. A failure trips the breaker and leaves the count and the slot untouched. |
| Properties.OpenRejects | Resilient.Net/CircuitBreaker/States/OpenCircuitBreakerState.cs:22-25 | Executing while Open throws OpenCircuitBreakerException and changes nothing. |
| Properties.HalfOpenRejectsWhileInFlight | Resilient.Net/CircuitBreaker/States/HalfOpenCircuitBreakerState.cs:21-29 | Executing while a Half-Open probe is in flight throws OpenCircuitBreakerException and changes nothing. |
| Properties.ExecuteForwardsOutcome | Resilient.Net/CircuitBreaker/CircuitBreakerInvoker.cs:19-35 | In Closed, and in Half-Open with the slot free, a call that finishes in time returns its value or re-raises its own exception. The current state is told of success or failure accordingly; in Half-Open that happens after the slot is claimed. |
| Properties.TimeoutCountsAsFailure | Resilient.Net/CircuitBreaker/CircuitBreakerInvoker.cs:37-53 | A timed-out call and a null function leave the breaker exactly where a throwing call would. When the call is admitted, the caller sees CircuitBreakerTimeoutException or ArgumentNullException("function"). |
| Properties.TimerMovesOpenToHalfOpen | Resilient.Net/CircuitBreaker/States/OpenCircuitBreakerState.cs:42-50 | A pending timer firing while Open yields Half-Open with a fresh probing window. Scheduled is cleared and the timer is spent. |
| Properties.StaleTimerIsNoOp | Resilient.Net/CircuitBreaker/States/OpenCircuitBreakerState.cs:46-50 | A timer firing after the breaker has left Open does not change the current state. |
| Properties.DisposedTimerNeverFires | Resilient.Net/CircuitBreaker/States/OpenCircuitBreakerState.cs:52-60 | After Dispose, the timer going off changes nothing. |
| Properties.InvPreservedByExecute | Resilient.Net/CircuitBreaker/CircuitBreaker.cs:80-83 | Executing any call keeps the invariant. In Closed, failures stay below the threshold. In Half-Open, successes stay below the threshold with nothing in flight. An Open breaker always has its timer armed and still pending. |
| Properties.InvPreservedByTransition | Resilient.Net/CircuitBreaker/CircuitBreaker.cs:114-120 | Every transition, stale or not, keeps the invariant. |
| Properties.InvPreservedByTimer | Resilient.Net/CircuitBreaker/States/OpenCircuitBreakerState.cs:46-60 | The timer firing keeps the invariant. After Dispose the timer is released: the counters stay in range, and a later timer event changes nothing. |
| Properties.OpenAlwaysReopens | Resilient.Net/CircuitBreaker/States/OpenCircuitBreakerState.cs:42-50 | In every state the invariant allows, an Open breaker becomes Half-Open when its timer goes off, with a fresh probing window and Scheduled cleared. |
| Properties.InvPreservedByExecuteAll | Resilient.Net/CircuitBreaker/CircuitBreaker.cs:80-83 | Any sequence of calls keeps the invariant. |
| Properties.SequentialCallsAreAlwaysAdmitted | Resilient.Net/CircuitBreaker/States/HalfOpenCircuitBreakerState.cs:21-29 | Under the invariant, a Half-Open breaker always runs the call. The single-flight guard rejects only overlapping calls. |
| Properties.SuccessesKeepClosed | Resilient.Net/CircuitBreaker/States/ClosedCircuitBreakerState.cs:31-34 | Any run of successful calls leaves a Closed breaker with no failures exactly as it was. |
| Properties.FailuresAccumulate | Resilient.Net/CircuitBreaker/States/ClosedCircuitBreakerState.cs:36-42 | Failing calls, in any mix of exceptions and timeouts, that stay below the threshold only add their number to the count. |
| Properties.FailuresTripAtThreshold | Resilient.Net/CircuitBreaker/States/ClosedCircuitBreakerState.cs:36-42 | The failing call that reaches the threshold leaves the breaker Open, with the timer armed and Scheduled set. |
| Properties.ProbesAccumulate | Resilient.Net/CircuitBreaker/States/HalfOpenCircuitBreakerState.cs:31-39 | Successful probes below the threshold keep the breaker Half-Open and add their number to the count. |
| Properties.ProbesCloseAtThreshold | Resilient.Net/CircuitBreaker/States/HalfOpenCircuitBreakerState.cs:31-39 | The probe that reaches the threshold closes the breaker with no failures counted. |
| Properties.RoundTrip | Resilient.Net/CircuitBreaker/CircuitBreaker.cs:91-120 | errorThreshold failures open the breaker, the timer makes it Half-Open, and successThreshold successes close it again with no failures. |
| Properties.TwoFailuresTrip | Resilient.Net.Tests/CircuitBreaker/CircuitBreakerTest.cs:153-189 | With errorThreshold 2, one failing call leaves the breaker Closed, two open it, and a third call is rejected. |
| Properties.TwoSuccessesClose | Resilient.Net.Tests/CircuitBreaker/CircuitBreakerTest.cs:232-251 | With successThreshold 2, from Half-Open, one success keeps it Half-Open and two close it. |
| Scenarios.TripOnErrors | Resilient.Net.Tests/CircuitBreaker/CircuitBreakerTest.cs:153-159 | Two calls that throw NotImplementedException re-raise it; the breaker is Closed after the first, Open after the second, and rejects a third. |
| Scenarios.TripOnExceptionThenTimeout | Resilient.Net.Tests/CircuitBreaker/CircuitBreakerTest.cs:173-182 | One exception and one timeout, which surfaces as CircuitBreakerTimeoutException, open the breaker. |
| Scenarios.TryAfterResetTimeout | Resilient.Net.Tests/CircuitBreaker/CircuitBreakerTest.cs:206-214 | With errorThreshold 1, one failure opens the breaker, and the reset timer firing makes it Half-Open. |
| Scenarios.ResetAfterSuccesses | Resilient.Net.Tests/CircuitBreaker/CircuitBreakerTest.cs:232-251 | From Half-Open, the first success returns its value and stays Half-Open; the second closes the breaker. |
| Scenarios.TripFromCurrentRejects | Resilient.Net.Test/CircuitBreaker/CircuitBreakerTest.cs:116-124 | Trip(CurrentState) opens a default breaker, so exactly IsOpen holds, and the generic Execute() then throws OpenCircuitBreakerException. |

## Left out

- Concurrency: the model is sequential.
  - `Interlocked.CompareExchange`, `Increment` and `Exchange` are plain conditional or ordinary assignments.
  - Races between callers are not modelled. One consequence: the Half-Open single-flight rejection is reachable only from a state the invariant excludes.
- Task scheduling, `Task.Factory.StartNew`, `task.Wait`, cancellation and `AggregateException` unwrapping, in `CircuitBreakerInvoker.cs` lines 37-65. These are threads and wall-clock time.
  - The function's running time is an input (`runMs`), compared with the timeout in whole milliseconds.
  - The re-raised exception is the function's own, as after unwrapping.
- `System.Threading.Timer` scheduling: the timer's due time is recorded, and its firing is the explicit step `OpenState.TimerFires`.
- `TimeSpan.TotalMilliseconds` is a double: it is modelled as integer ticks truncated to whole milliseconds. Overflow of the `(int)` cast for spans over about 24 days is not modelled.
- `GC.SuppressFinalize` and the `Dispose()`/`Dispose(bool)` pattern: `Dispose` is one method with `disposing` true.
- `Failures` and `Scheduled` are read-only getters. They are modelled as the public fields `ClosedState.failures` and `OpenState.scheduled`.
- `IsClosed`, `IsOpen`, `IsHalfOpen` compare the current state with the owned instances. They are modelled as comparisons of the current state's kind, and carry no contract of their own.
- A state object that does not belong to this breaker cannot be passed to `Reset`, `Trip` or `Try`. States are named by kind, and the kinds correspond one to one with the owned instances.
- `Force`, transition logging, `CircuitBreakerOptions.ToString` and a `Type` property on the Closed and Half-Open states appear only in tests. They are not part of the library source modelled here.
- `ToString` of the states, and the `Type` property of the Open state, are not modelled.
- Breakers.CircuitBreaker.ExecutePerform: requires a non-null function, because `Perform` is a method of the breaker and cannot be null.
