/**
 * The numeric vocabulary of the model: three-component vectors (the
 * `{x, y, z}` records the game passes to and from the physics engine),
 * the physics body a controller writes velocities and impulses to, and the
 * two scalar helpers the controllers use (clamping and linear interpolation).
 * Floating point is modelled by `real`: no rounding, no NaN, no infinity.
 */
module Physics {

  /** `Math.PI` as the double the JavaScript engine holds. */
  const PI: real := 3.141592653589793

  datatype Vec3 = Vec3(x: real, y: real, z: real)

  const Zero: Vec3 := Vec3(0.0, 0.0, 0.0)

  /** `v.length() > 0` holds exactly when some component is nonzero. */
  predicate IsZero(v: Vec3) {
    v.x == 0.0 && v.y == 0.0 && v.z == 0.0
  }

  /** `Math.max(lo, Math.min(hi, x))`. */
  function Clamp(lo: real, hi: real, x: real): (r: real)
    requires lo <= hi
    ensures lo <= r <= hi
    ensures lo <= x <= hi ==> r == x
    ensures x < lo ==> r == lo
    ensures hi < x ==> r == hi
  {
    if x < lo then lo else if hi < x then hi else x
  }

  /** `start + (end - start) * t`, the interpolation the weapon code uses. */
  function Lerp(start: real, end: real, t: real): (r: real)
    ensures t == 0.0 ==> r == start
    ensures t == 1.0 ==> r == end
    ensures 0.0 <= t <= 1.0 && start <= end ==> start <= r <= end
    ensures 0.0 <= t <= 1.0 && end <= start ==> end <= r <= start
  {
    LerpBetween(start, end, t);
    start + (end - start) * t
  }

  lemma LerpBetween(start: real, end: real, t: real)
    ensures 0.0 <= t <= 1.0 && start <= end ==> 0.0 <= (end - start) * t <= end - start
    ensures 0.0 <= t <= 1.0 && end <= start ==> end - start <= (end - start) * t <= 0.0
  {
    if 0.0 <= t <= 1.0 {
      ProductSign(end - start, t);
      ProductSign(end - start, 1.0 - t);
      assert (end - start) * (1.0 - t) == (end - start) - (end - start) * t;
    }
  }

  lemma ProductSign(a: real, b: real)
    requires b >= 0.0
    ensures a >= 0.0 ==> a * b >= 0.0
    ensures a <= 0.0 ==> a * b <= 0.0
  {
  }

  /** `RAPIER.RigidBodyType`, as far as the game sets it. */
  datatype BodyType = Dynamic | Fixed

  /**
   * A rigid body of the physics engine, as far as the game sees it: its
   * linear velocity (`linvel`/`setLinvel`), the impulses applied to it
   * (`applyImpulse`), in call order, and its body type (`setBodyType`).
   * Integration is the physics engine's business and is not modelled.
   */
  class RigidBody {
    var linvel: Vec3
    var impulses: seq<Vec3>
    var bodyType: BodyType

    constructor(linvel: Vec3)
      ensures this.linvel == linvel && impulses == [] && bodyType == Dynamic
    {
      this.linvel := linvel;
      impulses := [];
      bodyType := Dynamic;
    }
  }

  /** The velocity with both horizontal components zeroed and the vertical one kept. */
  function Halted(v: Vec3): (r: Vec3)
    ensures IsZero(r.(y := 0.0)) && r.y == v.y
  {
    Vec3(0.0, v.y, 0.0)
  }
}
