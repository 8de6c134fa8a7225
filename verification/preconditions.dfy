/** The argument checks every validating factory goes through. */
module Preconditions {
  import opened Wrappers
  import opened Interval

  /** `checkArgument`: passes on `true`, throws `IllegalArgumentException` on `false`. */
  function CheckArgument(isTrue: bool): (r: Outcome)
    ensures r.Pass? <==> isTrue
    ensures r.Fail? ==> r.error == IllegalArgument
  {
    if isTrue then Pass else Fail(IllegalArgument)
  }

  /** `checkInInterval`: returns `value` unchanged when the interval's own
      `contains` accepts it, and throws `IllegalArgumentException` otherwise. */
  function CheckInInterval(interval: Interval, value: real): (r: Result<real>)
    ensures r.Success? <==> interval.Contains(value)
    ensures r.Success? ==> r.value == value
    ensures r.Failure? ==> r.error == IllegalArgument
  {
    if interval.Contains(value) then Success(value) else Failure(IllegalArgument)
  }

  /** The high bound of a right-open interval is rejected; that of a closed
      interval is accepted. */
  lemma CheckInIntervalHighBound(ro: RightOpenInterval, c: ClosedInterval)
    ensures CheckInInterval(ro, ro.high).Failure?
    ensures CheckInInterval(c, c.high) == Success(c.high)
  {
  }
}
