/**
 * The values of geometry.py that the rest of the globe passes around: the
 * Tait-Bryan angles of the view, a point, and the latitude and longitude of
 * a valid `SphericalCoordinates`. The floating-point geometry itself
 * (rotation, ray-sphere intersection, spherical conversion) is not part of
 * this model.
 */
module Geometry {

  /** Three angles in degrees, as a value. */
  datatype Angles = Angles(alpha: real, beta: real, gamma: real)

  /** Every angle has been reduced into [0, 360). */
  predicate Normalised(a: Angles) {
    0.0 <= a.alpha < 360.0 && 0.0 <= a.beta < 360.0 && 0.0 <= a.gamma < 360.0
  }

  /** `EulerAngles`: the three angles as an object whose fields are updated in
      place and which several holders may share. */
  class EulerAngles {
    var alpha: real
    var beta: real
    var gamma: real

    function Value(): Angles
      reads this
    {
      Angles(alpha, beta, gamma)
    }

    constructor (alpha: real, beta: real, gamma: real)
      ensures Value() == Angles(alpha, beta, gamma)
    {
      this.alpha := alpha;
      this.beta := beta;
      this.gamma := gamma;
    }
  }

  datatype Point3d = Point3d(x: real, y: real, z: real)

  /** A `SphericalCoordinates` whose latitude and longitude are not NaN. */
  datatype LatLon = LatLon(lat: real, lon: real)
}
