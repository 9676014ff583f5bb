/** Vocabulary shared by every module: Rust's fixed-width integers, the
    monotonic clock and the glam vectors the renderer stores. */
module Types {

  datatype Option<T> = None | Some(value: T)

  /** Rust `u32` and `u64`. */
  type U32 = x: nat | x < 0x1_0000_0000
  type U64 = x: nat | x < 0x1_0000_0000_0000_0000

  const U32_MODULUS: nat := 0x1_0000_0000
  const U64_MODULUS: nat := 0x1_0000_0000_0000_0000

  /** A `u32` wrapping add, or an `as u32` cast of a wider unsigned value. */
  function WrapU32(x: nat): (r: U32)
    ensures r < U32_MODULUS
    ensures x < U32_MODULUS ==> r == x
  {
    x % U32_MODULUS
  }

  /** A `u64` wrapping multiplication result (overflow checks off, as in a release build). */
  function WrapU64(x: nat): (r: U64)
    ensures x < U64_MODULUS ==> r == x
  {
    x % U64_MODULUS
  }

  /** `std::time::Instant`, as ticks of the monotonic clock. */
  type Tick = nat

  /** `later - earlier` on two instants, which saturates at zero. */
  function Elapsed(earlier: Tick, later: Tick): (d: nat)
    ensures earlier <= later ==> earlier + d == later
    ensures later <= earlier ==> d == 0
  {
    if earlier <= later then later - earlier else 0
  }

  /** glam `Vec2`, `Vec3` and `Quat`; f32 components are modelled as reals. */
  datatype Vec2 = Vec2(x: real, y: real)
  datatype Vec3 = Vec3(x: real, y: real, z: real)
  datatype Quat = Quat(x: real, y: real, z: real, w: real)

  const VEC2_ZERO: Vec2 := Vec2(0.0, 0.0)
  const VEC3_ZERO: Vec3 := Vec3(0.0, 0.0, 0.0)
  const QUAT_IDENTITY: Quat := Quat(0.0, 0.0, 0.0, 1.0)

  function AddVec2(a: Vec2, b: Vec2): Vec2 {
    Vec2(a.x + b.x, a.y + b.y)
  }
}
