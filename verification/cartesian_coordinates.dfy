/** A point of the projection plane; every pair of reals is one. */
module CartesianCoordinates {

  datatype CartesianCoordinates = CartesianCoordinates(x: real, y: real)

  /** `CartesianCoordinates.of`: accepts every pair and keeps it. */
  function Of(x: real, y: real): (c: CartesianCoordinates)
    ensures c.x == x && c.y == y
  {
    CartesianCoordinates(x, y)
  }
}
