/** The simulation state record shared by the integrator and the store. */
module SimTypes {

  /** A triple of numbers: x, y, z, or pitch, roll, yaw. */
  type Vec3 = (real, real, real)

  /**
   * `SimState`: world position, rotation (pitch, roll, yaw in radians),
   * velocity, throttle, speed, altitude, heading in degrees, the display
   * latitude and longitude, and the seed of the procedural world.
   */
  datatype SimState = SimState(
    position: Vec3,
    rotation: Vec3,
    velocity: Vec3,
    throttle: real,
    speed: real,
    altitude: real,
    heading: real,
    latitude: real,
    longitude: real,
    worldSeed: int)
}
