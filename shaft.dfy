/** The engine's rotating shaft. Its helpers are declared in a header that is
    not part of this model; they are given the rigid-shaft definitions
    (momentum relative to another shaft, an impulse changing the angular
    velocity, revolutions per minute from radians per second). The properties
    of the engine are stated through these names, not their bodies, with one
    exception: the concrete example Engine.SaveOmitsNosMass computes with
    them, and relies on Rpm converting rad/s to rpm and on ApplyMomentum
    adding invInertia times the impulse to the angular velocity. */
module ShaftHelpers {

  /** M_PI as a double. */
  const Pi: real := 3.141592653589793

  datatype Shaft = Shaft(angVelocity: real, invInertia: real)
  {
    /** The angular momentum of this shaft relative to one turning at angVel. */
    function GetMomentum(angVel: real): real
      requires invInertia != 0.0
    {
      (angVelocity - angVel) / invInertia
    }

    /** The shaft after an angular impulse m. */
    function ApplyMomentum(m: real): (s: Shaft)
      ensures s.invInertia == invInertia
    {
      this.(angVelocity := angVelocity + invInertia * m)
    }

    /** Revolutions per minute. */
    function Rpm(): real
    {
      angVelocity * 30.0 / Pi
    }
  }
}
