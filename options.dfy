/** The breaker's settings: a mutable record with defaults and no validation of its own;
    the state constructors check the values when the breaker is built. */
module Options {
  import opened Types

  const DefaultErrorThreshold: int32 := 2
  const DefaultSuccessThreshold: int32 := 2
  const DefaultInvocationTimeout: TimeSpan := FromSeconds(1)
  const DefaultResetTimeout: TimeSpan := FromSeconds(10)

  class CircuitBreakerOptions {
    /** Failures in a row, while closed, that trip the breaker. */
    var errorThreshold: int32
    /** Successes in a row, while half-open, that close the breaker. */
    var successThreshold: int32
    /** How long one call may run before it counts as a timeout. */
    var invocationTimeout: TimeSpan
    /** How long the breaker stays open before it lets a probe through. */
    var resetTimeout: TimeSpan

    constructor ()
      ensures errorThreshold == DefaultErrorThreshold && successThreshold == DefaultSuccessThreshold
      ensures invocationTimeout == DefaultInvocationTimeout && resetTimeout == DefaultResetTimeout
    {
      errorThreshold := DefaultErrorThreshold;
      successThreshold := DefaultSuccessThreshold;
      invocationTimeout := DefaultInvocationTimeout;
      resetTimeout := DefaultResetTimeout;
    }
  }

  /** The default timeouts are one second and ten seconds. */
  lemma DefaultTimeoutsInMilliseconds()
    ensures DefaultInvocationTimeout.WholeMilliseconds() == 1000
    ensures DefaultResetTimeout.WholeMilliseconds() == 10000
  {
  }
}
