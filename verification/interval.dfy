/** Closed intervals `[low, high]` and right-open intervals `[low, high)` over
    the reals, with saturating `Clip` and true-modulo `Reduce`. */
module Interval {
  import opened Wrappers

  datatype Interval = Closed(low: real, high: real) | RightOpen(low: real, high: real) {

    /** The interval's length. */
    function Size(): real {
      high - low
    }

    /** Membership, following the variant's bounds. */
    predicate Contains(v: real) {
      match this
      case Closed(lo, hi) => lo <= v <= hi
      case RightOpen(lo, hi) => lo <= v < hi
    }
  }

  /** The intervals the public factories can produce: non-empty, of each kind. */
  type ClosedInterval = i: Interval | i.Closed? && i.low < i.high witness Closed(0.0, 1.0)
  type RightOpenInterval = i: Interval | i.RightOpen? && i.low < i.high witness RightOpen(0.0, 1.0)

  /** `ClosedInterval.of`: fails unless `low < high`. */
  function ClosedOf(low: real, high: real): (r: Result<ClosedInterval>)
    ensures r.Success? <==> low < high
    ensures r.Success? ==> r.value.low == low && r.value.high == high
  {
    if low < high then Success(Closed(low, high)) else Failure(IllegalArgument)
  }

  /** `ClosedInterval.symmetric`: `[-size/2, size/2]`, for a positive size only. */
  function ClosedSymmetric(size: real): (r: Result<ClosedInterval>)
    ensures r.Success? <==> size > 0.0
    ensures r.Success? ==> r.value.low == -size / 2.0 && r.value.high == size / 2.0
    ensures r.Success? ==> r.value.Size() == size
  {
    if size > 0.0 then Success(Closed(-(size / 2.0), size / 2.0)) else Failure(IllegalArgument)
  }

  /** `RightOpenInterval.of`: fails unless `low < high`. */
  function RightOpenOf(low: real, high: real): (r: Result<RightOpenInterval>)
    ensures r.Success? <==> low < high
    ensures r.Success? ==> r.value.low == low && r.value.high == high
  {
    if low < high then Success(RightOpen(low, high)) else Failure(IllegalArgument)
  }

  /** `RightOpenInterval.symmetric`: `[-size/2, size/2)`, for a positive size only. */
  function RightOpenSymmetric(size: real): (r: Result<RightOpenInterval>)
    ensures r.Success? <==> size > 0.0
    ensures r.Success? ==> r.value.low == -size / 2.0 && r.value.high == size / 2.0
    ensures r.Success? ==> r.value.Size() == size
  {
    if size > 0.0 then Success(RightOpen(-(size / 2.0), size / 2.0)) else Failure(IllegalArgument)
  }

  /** Every interval the factories build has a positive size. */
  lemma FactorySizePositive(low: real, high: real)
    ensures ClosedOf(low, high).Success? ==> ClosedOf(low, high).value.Size() > 0.0
    ensures RightOpenOf(low, high).Success? ==> RightOpenOf(low, high).value.Size() > 0.0
  {
  }

  /** A closed interval holds both of its endpoints. */
  lemma ClosedContainsEndpoints(i: ClosedInterval)
    ensures i.Contains(i.low) && i.Contains(i.high)
  {
  }

  /** A right-open interval holds its low bound and not its high bound. */
  lemma RightOpenEndpoints(i: RightOpenInterval)
    ensures i.Contains(i.low) && !i.Contains(i.high)
  {
  }

  /** `ClosedInterval.clip`: saturates `v` to the bounds. */
  function Clip(i: ClosedInterval, v: real): (r: real)
    ensures i.Contains(r)
    ensures i.Contains(v) ==> r == v
    ensures v <= i.low ==> r == i.low
    ensures v >= i.high ==> r == i.high
  {
    if v <= i.low then i.low else if v < i.high then v else i.high
  }

  lemma ClipIdempotent(i: ClosedInterval, v: real)
    ensures Clip(i, Clip(i, v)) == Clip(i, v)
  {
  }

  lemma ClipMonotone(i: ClosedInterval, v: real, w: real)
    requires v <= w
    ensures Clip(i, v) <= Clip(i, w)
  {
  }

  /** `v` shifted by `k` whole periods of the interval. */
  function Shift(i: Interval, v: real, k: int): real {
    v + (k as real) * i.Size()
  }

  /** `RightOpenInterval.reduce`: `low + floorMod(v - low, size)`, computed with
      `Floor` so that it is correct for negative `v - low`. */
  function Reduce(i: RightOpenInterval, v: real): (r: real)
    ensures i.Contains(r)
  {
    var x := v - i.low;
    var y := i.Size();
    FloorModBounds(x, y);
    i.low + (x - y * (x / y).Floor as real)
  }

  /** The floor-modulo of `x` by a positive `y` lies in `[0, y)`. */
  lemma FloorModBounds(x: real, y: real)
    requires y > 0.0
    ensures 0.0 <= x - y * (x / y).Floor as real < y
  {
    var q := (x / y).Floor as real;
    assert q <= x / y < q + 1.0;
    assert y * (x / y) == x;
    MultiplyLeft(y, q, x / y);
    MultiplyLeftStrict(y, x / y, q + 1.0);
    assert y * (q + 1.0) == y * q + y;
    assert x < y * q + y;
    assert x - y * q < y;
  }

  lemma MultiplyLeft(y: real, a: real, b: real)
    requires y > 0.0 && a <= b
    ensures y * a <= y * b
  {
  }

  lemma MultiplyLeftStrict(y: real, a: real, b: real)
    requires y > 0.0 && a < b
    ensures y * a < y * b
  {
  }

  /** Reduction changes `v` by a whole number of periods. */
  lemma ReduceIsShift(i: RightOpenInterval, v: real)
    ensures Reduce(i, v) == Shift(i, v, -((v - i.low) / i.Size()).Floor)
  {
  }

  /** Reduction is the identity on the interval. */
  lemma ReduceIdentity(i: RightOpenInterval, v: real)
    requires i.Contains(v)
    ensures Reduce(i, v) == v
  {
    var x := v - i.low;
    var y := i.Size();
    assert 0.0 <= x < y;
    DivideBelowOne(x, y);
    assert (x / y).Floor == 0;
  }

  lemma DivideBelowOne(x: real, y: real)
    requires 0.0 <= x < y
    ensures 0.0 <= x / y < 1.0
  {
  }

  /** Shifting the argument by whole periods does not change the reduction. */
  lemma ReducePeriodic(i: RightOpenInterval, v: real, k: int)
    ensures Reduce(i, Shift(i, v, k)) == Reduce(i, v)
  {
    var x := v - i.low;
    var y := i.Size();
    var x' := Shift(i, v, k) - i.low;
    var kr := k as real;
    assert x' == x + kr * y;
    assert x' / y == x / y + kr by {
      assert (x + kr * y) / y == x / y + (kr * y) / y;
    }
    var fl := (x / y).Floor;
    assert (x' / y).Floor == fl + k;
    Distribute(y, fl as real, kr);
    assert x' - y * ((fl + k) as real) == x - y * (fl as real);
  }

  lemma Distribute(y: real, a: real, b: real)
    ensures y * (a + b) == y * a + y * b && b * y == y * b
  {
  }

  /** The reduction is the unique point of the interval congruent to `v`:
      any `w` in the interval that differs from `v` by whole periods is it. */
  lemma ReduceUnique(i: RightOpenInterval, v: real, w: real, k: int)
    requires i.Contains(w) && w == Shift(i, v, k)
    ensures Reduce(i, v) == w
  {
    ReduceIdentity(i, w);
    ReducePeriodic(i, v, k);
  }

  lemma ReduceIdempotent(i: RightOpenInterval, v: real)
    ensures Reduce(i, Reduce(i, v)) == Reduce(i, v)
  {
    ReduceIdentity(i, Reduce(i, v));
  }
}
