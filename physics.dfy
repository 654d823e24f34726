/**
 * The slice of the physics backend the controllers act on: a dynamic rigid
 * body reached through its handle, and the downward grounding ray.
 */
module Physics {
  import opened Wrappers
  import opened Maths

  /**
   * An isometry: a translation and a rotation. The rotation is kept as its
   * scaled axis (axis times angle), the vector `UnitQuaternion::new` takes.
   */
  datatype Isometry = Isometry(translation: Vec3, rotation: Vec3)

  /** A rigid-body builder as the systems configure it. */
  datatype RigidBodyDesc =
    | StaticBody
    | DynamicBody(rotationsLocked: bool, linvel: Vec3, mass: real, userData: nat)

  /**
   * The inverse mass an impulse is scaled by. A body that is not dynamic does
   * not respond to impulses, and a zero mass stands for an infinite one.
   */
  function InverseMass(desc: RigidBodyDesc): (m: real)
    ensures m >= 0.0
    ensures desc.DynamicBody? && desc.mass > 0.0 ==> m * desc.mass == 1.0
    ensures desc.StaticBody? || desc.mass <= 0.0 ==> m == 0.0
  {
    if desc.DynamicBody? && desc.mass > 0.0 then 1.0 / desc.mass else 0.0
  }

  /** Everything a controller can observe of a body. */
  datatype BodyState = BodyState(linvel: Vec3, position: Isometry, invMass: real)

  /** A rigid body in the backend's body set. */
  class RigidBody {
    var linvel: Vec3
    var position: Isometry
    var invMass: real

    /** The body a builder creates, placed at `position`. */
    constructor (desc: RigidBodyDesc, position: Isometry)
      ensures State() == BodyState(if desc.DynamicBody? then desc.linvel else ZERO3, position, InverseMass(desc))
    {
      this.linvel := if desc.DynamicBody? then desc.linvel else ZERO3;
      this.position := position;
      this.invMass := InverseMass(desc);
    }

    function State(): BodyState
      reads this
    {
      BodyState(linvel, position, invMass)
    }

    /** `set_linvel`. */
    method SetLinvel(v: Vec3)
      modifies this
      ensures State() == old(State()).(linvel := v)
    {
      linvel := v;
    }

    /** `apply_impulse`: the velocity changes at once by the impulse over the mass. */
    method ApplyImpulse(impulse: Vec3)
      modifies this
      ensures State() == old(State()).(linvel := old(linvel).Plus(impulse.Times(old(invMass))))
    {
      linvel := linvel.Plus(impulse.Times(invMass));
    }

    /** `set_position`. */
    method SetPosition(p: Isometry)
      modifies this
      ensures State() == old(State()).(position := p)
    {
      position := p;
    }
  }

  /** A ray: an origin and a direction. */
  datatype Ray = Ray(origin: Vec3, dir: Vec3) {
    /** The point at time of impact `toi` along the ray. */
    function At(toi: real): Vec3 { origin.Plus(dir.Times(toi)) }
  }

  const DOWN: Vec3 := Vec3(0.0, -1.0, 0.0)

  /**
   * The first collider a ray meets among those its groups admit: the time of
   * impact along the ray and the angle, in degrees, between the surface normal
   * there and world up (`normal.dot(up).acos().to_degrees()`).
   */
  datatype RayHit = RayHit(toi: real, slopeDegrees: real)

  /**
   * `cast_ray` with a maximum time of impact, given the first admitted hit
   * along the unbounded ray: a hit further than `maxToi` is not reported.
   */
  function CastRay(nearest: Option<RayHit>, maxToi: real): (r: Option<RayHit>)
    ensures r.Some? <==> nearest.Some? && nearest.value.toi <= maxToi
    ensures r.Some? ==> r == nearest
  {
    if nearest.Some? && nearest.value.toi <= maxToi then nearest else None
  }
}
