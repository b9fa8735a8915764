/**
 * The camera of the screen (lighthousecamera.py), reduced to what the
 * model needs: its centre, its view direction and the angles object it
 * rotates by. The rotated queries are floating-point geometry and are not
 * part of this model.
 */
module Camera {
  import opened Geometry

  class LighthouseCamera {
    const center: Point3d
    const viewDirection: Point3d
    /** The angles object the camera rotates by; `set_rotation_tait_bryan_xyz`
        stores the caller's object, so later changes to it are seen here too. */
    var rotation: EulerAngles

    /** A camera at `center` looking along +z, not rotated. */
    constructor (center: Point3d)
      ensures this.center == center && viewDirection == Point3d(0.0, 0.0, 1.0)
      ensures fresh(rotation) && rotation.Value() == Angles(0.0, 0.0, 0.0)
    {
      this.center := center;
      viewDirection := Point3d(0.0, 0.0, 1.0);
      rotation := new EulerAngles(0.0, 0.0, 0.0);
    }

    method SetRotationTaitBryanXyz(angles: EulerAngles)
      modifies this`rotation
      ensures rotation == angles
    {
      rotation := angles;
    }
  }
}
