/** Value types shared by every part of the circuit breaker: the .NET exceptions the
    breaker raises or forwards, a result type standing for "returns or throws",
    nullable references, 32-bit integers with Interlocked wrap-around, and TimeSpan. */
module Types {

  /** A reference that may be null: None stands for null. */
  datatype Option<T> = None | Some(value: T)

  /** The exceptions the core raises, plus the ones the guarded function raises itself. */
  datatype Exception =
    | ArgumentNull(paramName: string)
    | ArgumentOutOfRange(paramName: string)
    | NullReference
    | OpenCircuitBreaker
    | CircuitBreakerTimeout
      /** An exception thrown by the guarded function, identified by its value. */
    | Raised(typeName: string)

  /** The outcome of a call: it returns a value or throws an exception. */
  datatype Result<T> = Success(value: T) | Failure(error: Exception)

  /** C#'s `int`. */
  newtype int32 = x: int | -0x8000_0000 <= x < 0x8000_0000

  const MaxInt32: int32 := 0x7fff_ffff
  const MinInt32: int32 := -0x8000_0000

  /** `Interlocked.Increment`: adds one and wraps from int.MaxValue to int.MinValue. */
  function Increment(x: int32): (r: int32)
    ensures x < MaxInt32 ==> r as int == x as int + 1
    ensures x == MaxInt32 ==> r == MinInt32
  {
    if x == MaxInt32 then MinInt32 else x + 1
  }

  const TicksPerMillisecond: int := 10_000

  /** System.TimeSpan, counted in 100-nanosecond ticks. */
  datatype TimeSpan = TimeSpan(ticks: int) {

    /** `(int)span.TotalMilliseconds`: the whole milliseconds, truncated toward zero. */
    function WholeMilliseconds(): (ms: int)
      ensures 0 <= ticks ==> 0 <= ms && ms * TicksPerMillisecond <= ticks < (ms + 1) * TicksPerMillisecond
      ensures ticks < 0 ==> ms <= 0 && (ms - 1) * TicksPerMillisecond < ticks <= ms * TicksPerMillisecond
    {
      if ticks >= 0 then ticks / TicksPerMillisecond else -((-ticks) / TicksPerMillisecond)
    }
  }

  function FromMilliseconds(ms: int): TimeSpan {
    TimeSpan(ms * TicksPerMillisecond)
  }

  function FromSeconds(s: int): TimeSpan {
    TimeSpan(s * 1000 * TicksPerMillisecond)
  }
}
