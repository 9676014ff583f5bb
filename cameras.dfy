/** The camera record the frame orchestrator owns. Only its fields and its
    initial value are modelled: the view/projection derivation and the
    yaw/pitch integration are f32 matrix and quaternion math. */
module Cameras {
  import opened Types

  datatype Camera = Camera(
    position: Vec3,
    rotation: Quat,
    fov: real,
    aspectRatio: real,
    yaw: real,
    pitch: real,
    speed: real,
    sensitivity: real)

  /** The f32 nearest to 90 degrees in radians (`90.0_f32.to_radians()`). */
  const FOV_90_DEGREES: real := 1.57079637050628662109375

  /** `Camera::new`: at the origin, looking down -Z, with the given aspect ratio. */
  function New(aspectRatio: real): (c: Camera)
    ensures c.aspectRatio == aspectRatio
    ensures c.position == VEC3_ZERO && c.rotation == QUAT_IDENTITY && c.yaw == 0.0 && c.pitch == 0.0
    ensures c.fov == FOV_90_DEGREES && c.speed == 5.0 && c.sensitivity == 0.002
  {
    Camera(VEC3_ZERO, QUAT_IDENTITY, FOV_90_DEGREES, aspectRatio, 0.0, 0.0, 5.0, 0.002)
  }

  /** The part of the camera that per-frame movement and mouse look change. */
  datatype Pose = Pose(position: Vec3, rotation: Quat, yaw: real, pitch: real)

  function WithPose(c: Camera, p: Pose): (r: Camera)
    ensures r.fov == c.fov && r.aspectRatio == c.aspectRatio
    ensures r.speed == c.speed && r.sensitivity == c.sensitivity
  {
    c.(position := p.position, rotation := p.rotation, yaw := p.yaw, pitch := p.pitch)
  }
}
