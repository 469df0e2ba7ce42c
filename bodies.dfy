/** The rigid bodies of the physics engine, reduced to the fields the tick reads and writes. */
module Bodies {
  import opened Geometry

  class Body {
    var position: Vec
    var mass: real
    var angle: real
    var angularVelocity: real
    var force: Vec   // force accumulated for the engine's next integration step
    var torque: real // torque accumulated for the same step

    constructor (position: Vec, mass: real, angle: real)
      ensures this.position == position && this.mass == mass && this.angle == angle
      ensures angularVelocity == 0.0 && force == Zero && torque == 0.0
    {
      this.position := position;
      this.mass := mass;
      this.angle := angle;
      angularVelocity := 0.0;
      force := Zero;
      torque := 0.0;
    }

    /** `Body.applyForce(body, body.position, f)`: every call in the game applies the force at
        the body's own position, so the lever arm, and with it the torque added, is zero. */
    method ApplyForce(f: Vec)
      modifies this`force
      ensures force == Add(old(force), f)
    {
      force := Add(force, f);
    }
  }

  /** What the gravitation law reads of a body. */
  datatype Particle = Particle(position: Vec, mass: real)

  function ParticleOf(b: Body): Particle
    reads b
  {
    Particle(b.position, b.mass)
  }

  /** No body appears twice in the list. */
  ghost predicate Distinct(bs: seq<Body>)
  {
    forall a, b :: 0 <= a < b < |bs| ==> bs[a] != bs[b]
  }

  ghost function Forces(bs: seq<Body>): seq<Vec>
    reads bs
  {
    seq(|bs|, k requires 0 <= k < |bs| reads bs => bs[k].force)
  }

  /** Everything of a body except its force accumulator. */
  datatype Pose = Pose(particle: Particle, angle: real, angularVelocity: real, torque: real)

  ghost function Poses(bs: seq<Body>): seq<Pose>
    reads bs
  {
    seq(|bs|, k requires 0 <= k < |bs| reads bs => Pose(ParticleOf(bs[k]), bs[k].angle, bs[k].angularVelocity, bs[k].torque))
  }

  ghost function Particles(bs: seq<Body>): seq<Particle>
    reads bs
  {
    seq(|bs|, k requires 0 <= k < |bs| reads bs => ParticleOf(bs[k]))
  }
}
