/** Time accelerators: the simulated instant reached after a span of real
    time. Instants and spans are whole nanoseconds; `Adjust(t0, delta)` is
    the simulated instant `delta` real nanoseconds after the animation
    started at simulated instant `t0`. */
module TimeAccelerator {
  import opened JavaMath

  const NANOS_PER_SECOND: int := 1_000_000_000

  /** `continuous(factor)` advances simulated time `factor` times as fast as
      real time; `discrete(frequency, step)` advances it by whole `step`s,
      `frequency` of them per real second. */
  datatype TimeAccelerator = Continuous(factor: int) | Discrete(frequency: int, step: int) {

    /** `adjust(T0, deltaT)`. The discrete variant counts the steps with
        Java's integer division, which truncates toward zero. */
    function Adjust(t0: int, delta: int): (t: int)
      ensures delta == 0 ==> t == t0
      ensures Discrete? && step > 0 ==> (t - t0) % step == 0
    {
      match this
      case Continuous(factor) => t0 + delta * factor
      case Discrete(frequency, step) =>
        var n := TruncDiv(frequency * delta, NANOS_PER_SECOND);
        ModOfMultiple(n, step);
        t0 + n * step
    }

    /** The number of steps a discrete accelerator has taken after `delta`. */
    function Steps(delta: int): int
      requires Discrete?
    {
      TruncDiv(frequency * delta, NANOS_PER_SECOND)
    }
  }

  /** A continuous accelerator runs `factor` times as fast as real time:
      after `delta` real nanoseconds, simulated time has moved on by
      `factor * delta` nanoseconds, so one real second is `factor` seconds. */
  lemma ContinuousRate(a: TimeAccelerator, t0: int, delta: int)
    requires a.Continuous?
    ensures a.Adjust(t0, delta) - t0 == a.factor * delta
    ensures a.Adjust(t0, NANOS_PER_SECOND) == t0 + a.factor * NANOS_PER_SECOND
  {
  }

  /** For a non-negative `frequency * delta`, the discrete accelerator has
      taken exactly the steps whose time has come: `n` steps once
      `frequency * delta` reaches `n` seconds, and not `n + 1` before it
      reaches `n + 1` seconds. */
  lemma DiscreteStepCount(a: TimeAccelerator, t0: int, delta: int)
    requires a.Discrete? && a.frequency * delta >= 0
    ensures a.Adjust(t0, delta) == t0 + a.Steps(delta) * a.step
    ensures a.Steps(delta) * NANOS_PER_SECOND <= a.frequency * delta < (a.Steps(delta) + 1) * NANOS_PER_SECOND
  {
  }

  /** A discrete accelerator stays at `t0` until a whole second's worth of
      advancement has accumulated. */
  lemma DiscreteWaitsForFirstStep(a: TimeAccelerator, t0: int, delta: int)
    requires a.Discrete? && 0 <= a.frequency * delta < NANOS_PER_SECOND
    ensures a.Adjust(t0, delta) == t0
  {
  }

  /** One real second of a discrete accelerator is `frequency` steps. */
  lemma DiscreteOneSecond(a: TimeAccelerator, t0: int)
    requires a.Discrete? && a.frequency >= 0
    ensures a.Adjust(t0, NANOS_PER_SECOND) == t0 + a.frequency * a.step
  {
  }

  /** A continuous accelerator composes: adjusting by `d1` and then by `d2`
      from the result is adjusting by `d1 + d2`. */
  lemma ContinuousAdditive(a: TimeAccelerator, t0: int, d1: int, d2: int)
    requires a.Continuous?
    ensures a.Adjust(a.Adjust(t0, d1), d2) == a.Adjust(t0, d1 + d2)
  {
    assert (d1 + d2) * a.factor == d1 * a.factor + d2 * a.factor;
  }

  /** With a non-negative factor, frequency and step, simulated time never
      goes back as real time passes. */
  lemma {:induction false} AdjustMonotone(a: TimeAccelerator, t0: int, delta: int, delta': int)
    requires 0 <= delta <= delta'
    requires a.Continuous? ==> a.factor >= 0
    requires a.Discrete? ==> a.frequency >= 0 && a.step >= 0
    ensures a.Adjust(t0, delta) <= a.Adjust(t0, delta')
  {
    match a
    case Continuous(factor) =>
      MultiplyMonotone(factor, delta, delta');
    case Discrete(frequency, step) =>
      MultiplyMonotone(frequency, delta, delta');
      TruncDivMonotone(frequency * delta, frequency * delta', NANOS_PER_SECOND);
      MultiplyMonotone(step, a.Steps(delta), a.Steps(delta'));
  }

  /** A multiple of a positive `s` leaves no remainder. */
  lemma ModOfMultiple(n: int, s: int)
    ensures s > 0 ==> (n * s) % s == 0
  {
    if s <= 0 {
      return;
    }
    var x := n * s;
    var q, r := x / s, x % s;
    assert x == q * s + r && 0 <= r < s;
    assert (n - q) * s == r;
    if n - q >= 1 {
      MultiplyMonotone(s, 1, n - q);
    } else if n - q <= -1 {
      MultiplyMonotone(s, n - q, -1);
    }
  }

  lemma MultiplyMonotone(c: int, x: int, y: int)
    requires c >= 0 && x <= y
    ensures x * c <= y * c && c * x <= c * y
  {
  }
}
