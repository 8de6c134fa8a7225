/** The longitude/latitude pair shared by every angular coordinate frame,
    with its degree accessors. Each frame wraps one of these. */
module SphericalCoordinates {
  import opened Angle

  datatype SphericalCoordinates = SphericalCoordinates(lon: real, lat: real) {
    function LonDeg(): real {
      ToDeg(lon)
    }

    function LatDeg(): real {
      ToDeg(lat)
    }
  }
}
