/** The view navigation of the sky canvas: the arrow keys move the centre
    of the view, in degrees, and scrolling changes the field of view. The
    centre is a horizontal position; azimuths wrap around the horizon and
    altitudes and fields of view saturate. */
module SkyCanvasManager {
  import opened Wrappers
  import opened Interval
  import H = HorizontalCoordinates

  const AZ_INTERVAL: RightOpenInterval := RightOpenOf(0.0, 360.0).value
  const ALT_INTERVAL: ClosedInterval := ClosedOf(5.0, 90.0).value
  const FOV_INTERVAL: ClosedInterval := ClosedOf(30.0, 150.0).value
  const AZ_CHANGE: real := 10.0
  const ALT_CHANGE: real := 5.0

  /** The keys the handler distinguishes; `Other` is every other key. */
  datatype Key = Left | Right | Up | Down | Other

  /** The key handler: LEFT and RIGHT turn the azimuth by `AZ_CHANGE`
      degrees, reduced to `[0, 360)`; UP and DOWN move the altitude by
      `ALT_CHANGE` degrees, clipped to `[5, 90]`; any other key keeps the
      centre. The new centre is built with `HorizontalCoordinates.ofDeg`,
      which never fails here. */
  function OnKey(center: H.HorizontalCoordinates, key: Key): (r: Result<H.HorizontalCoordinates>)
    requires center.Valid()
    ensures r.Success? && r.value.Valid()
    ensures key == Other ==> r.value == center
    ensures key == Left || key == Right ==> r.value.AltDeg() == center.AltDeg()
    ensures key == Up || key == Down ==> r.value.AzDeg() == center.AzDeg() && 5.0 <= r.value.AltDeg() <= 90.0
    ensures key == Up || key == Down ==>
      var moved := if key == Up then center.AltDeg() + ALT_CHANGE else center.AltDeg() - ALT_CHANGE;
      && (5.0 <= moved <= 90.0 ==> r.value.AltDeg() == moved)
      && (moved > 90.0 ==> r.value.AltDeg() == 90.0)
      && (moved < 5.0 ==> r.value.AltDeg() == 5.0)
  {
    H.ValidInDegrees(center);
    var centerAz := center.AzDeg();
    var centerAlt := center.AltDeg();
    match key
    case Left => H.OfDeg(Reduce(AZ_INTERVAL, centerAz - AZ_CHANGE), centerAlt)
    case Right => H.OfDeg(Reduce(AZ_INTERVAL, centerAz + AZ_CHANGE), centerAlt)
    case Up => H.OfDeg(centerAz, Clip(ALT_INTERVAL, centerAlt + ALT_CHANGE))
    case Down => H.OfDeg(centerAz, Clip(ALT_INTERVAL, centerAlt - ALT_CHANGE))
    case Other => Success(center)
  }

  /** LEFT and RIGHT turn the azimuth by `AZ_CHANGE` degrees, wrapping past
      north: the new azimuth differs from the old one by exactly that turn,
      give or take one full circle. */
  lemma TurnIsRotation(center: H.HorizontalCoordinates, key: Key)
    requires center.Valid() && (key == Left || key == Right)
    ensures var delta := if key == Left then -AZ_CHANGE else AZ_CHANGE;
      var az := OnKey(center, key).value.AzDeg();
      && 0.0 <= az < 360.0
      && (az == center.AzDeg() + delta || az == center.AzDeg() + delta + 360.0 || az == center.AzDeg() + delta - 360.0)
  {
    H.ValidInDegrees(center);
    var a := center.AzDeg();
    var delta := if key == Left then -AZ_CHANGE else AZ_CHANGE;
    var v := a + delta;
    if v < 0.0 {
      ReduceUnique(AZ_INTERVAL, v, v + 360.0, 1);
    } else if v < 360.0 {
      ReduceIdentity(AZ_INTERVAL, v);
    } else {
      ReduceUnique(AZ_INTERVAL, v, v - 360.0, -1);
    }
  }

  /** RIGHT undoes LEFT and LEFT undoes RIGHT: the centre comes back. */
  lemma LeftRightInverse(center: H.HorizontalCoordinates)
    requires center.Valid()
    ensures OnKey(OnKey(center, Left).value, Right) == Success(center)
    ensures OnKey(OnKey(center, Right).value, Left) == Success(center)
  {
    H.ValidInDegrees(center);
    var a := center.AzDeg();
    var l := OnKey(center, Left).value;
    var r := OnKey(center, Right).value;
    TurnIsRotation(center, Left);
    TurnIsRotation(l, Right);
    TurnIsRotation(center, Right);
    TurnIsRotation(r, Left);
    ReduceUnique(AZ_INTERVAL, l.AzDeg() + AZ_CHANGE, a, if l.AzDeg() + AZ_CHANGE >= 360.0 then -1 else 0);
    ReduceUnique(AZ_INTERVAL, r.AzDeg() - AZ_CHANGE, a, if r.AzDeg() - AZ_CHANGE < 0.0 then 1 else 0);
    H.ValidInDegrees(OnKey(l, Right).value);
    H.ValidInDegrees(OnKey(r, Left).value);
  }

  /** Away from the limits, DOWN undoes UP. */
  lemma UpDownInverse(center: H.HorizontalCoordinates)
    requires center.Valid() && 5.0 <= center.AltDeg() <= 85.0
    ensures OnKey(OnKey(center, Up).value, Down) == Success(center)
  {
    H.ValidInDegrees(center);
    var u := OnKey(center, Up).value;
    H.ValidInDegrees(u);
    H.ValidInDegrees(OnKey(u, Down).value);
  }

  /** UP at the zenith limit and DOWN at the lower limit change nothing. */
  lemma AltitudeSaturates(center: H.HorizontalCoordinates)
    requires center.Valid()
    ensures center.AltDeg() == 90.0 ==> OnKey(center, Up) == Success(center)
    ensures center.AltDeg() == 5.0 ==> OnKey(center, Down) == Success(center)
  {
    H.ValidInDegrees(center);
  }

  function Abs(x: real): real {
    if x < 0.0 then -x else x
  }

  /** The scroll amount: the horizontal delta when it is strictly larger in
      magnitude, otherwise the vertical one. */
  function ScrollDelta(deltaX: real, deltaY: real): (d: real)
    ensures Abs(d) >= Abs(deltaX) && Abs(d) >= Abs(deltaY)
    ensures d == deltaX || d == deltaY
    ensures Abs(deltaX) <= Abs(deltaY) ==> d == deltaY
  {
    if Abs(deltaX) > Abs(deltaY) then deltaX else deltaY
  }

  /** The scroll handler: the field of view, in degrees, moves by the
      scroll amount and saturates to `[30, 150]`. */
  function OnScroll(fieldOfViewDeg: real, deltaX: real, deltaY: real): (r: real)
    ensures FOV_INTERVAL.Contains(r) && 30.0 <= r <= 150.0
    ensures FOV_INTERVAL.Contains(fieldOfViewDeg + ScrollDelta(deltaX, deltaY)) ==>
              r == fieldOfViewDeg + ScrollDelta(deltaX, deltaY)
    ensures fieldOfViewDeg + ScrollDelta(deltaX, deltaY) >= 150.0 ==> r == 150.0
    ensures fieldOfViewDeg + ScrollDelta(deltaX, deltaY) <= 30.0 ==> r == 30.0
  {
    Clip(FOV_INTERVAL, ScrollDelta(deltaX, deltaY) + fieldOfViewDeg)
  }

  /** Scrolling further in one direction never moves the field of view the
      other way, and a scroll of nothing keeps a field of view in range. */
  lemma ScrollMonotone(fov: real, dy: real, dy': real)
    requires dy <= dy'
    ensures OnScroll(fov, 0.0, dy) <= OnScroll(fov, 0.0, dy')
    ensures FOV_INTERVAL.Contains(fov) ==> OnScroll(fov, 0.0, 0.0) == fov
  {
    ClipMonotone(FOV_INTERVAL, dy + fov, dy' + fov);
  }
}
