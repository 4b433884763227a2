/** Argument checks: each either hands its argument back or throws. */
module Guard {
  import opened Types

  /** `value.ThrowIfNull(name)`: None when the call returns normally, otherwise the exception it throws. */
  function ThrowIfNull<T>(value: Option<T>, name: string): (thrown: Option<Exception>)
    ensures thrown.Some? <==> value.None?
    ensures thrown.Some? ==> thrown.value == ArgumentNull(name)
  {
    if value.None? then Some(ArgumentNull(name)) else None
  }

  /** `value.OrThrow(name)`: the reference itself when it is not null. */
  function OrThrow<T>(value: Option<T>, name: string): (r: Result<T>)
    ensures r.Success? <==> value.Some?
    ensures r.Success? ==> r.value == value.value
    ensures r.Failure? ==> r.error == ArgumentNull(name)
  {
    match value
    case None => Failure(ArgumentNull(name))
    case Some(v) => Success(v)
  }

  /** `value.PositiveOrThrow(name)` on an int: accepts exactly the values from 1 up. */
  function PositiveOrThrow(value: int32, name: string): (r: Result<int32>)
    ensures r.Success? <==> value >= 1
    ensures r.Success? ==> r.value == value
    ensures r.Failure? ==> r.error == ArgumentOutOfRange(name)
  {
    if value < 1 then Failure(ArgumentOutOfRange(name)) else Success(value)
  }

  /** `value.PositiveOrThrow(name)` on a TimeSpan: the truncated whole-millisecond count must be
      positive, so a span must be at least one millisecond long; the span is returned unchanged. */
  function PositiveTimeSpanOrThrow(value: TimeSpan, name: string): (r: Result<TimeSpan>)
    ensures r.Success? <==> value.ticks >= TicksPerMillisecond
    ensures r.Success? ==> r.value == value
    ensures r.Failure? ==> r.error == ArgumentOutOfRange(name)
  {
    if value.WholeMilliseconds() < 1 then Failure(ArgumentOutOfRange(name)) else Success(value)
  }
}
