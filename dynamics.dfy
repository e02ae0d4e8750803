/**
 * The structure of `equation_of_motion(t, y, Orbit, Satellite)`
 * (python/dynamics.py): the six-element state is split into position and
 * velocity, the acceleration is point-mass gravity plus a drag term scaled
 * by the orbit's `Drag` flag, and the derivative is the velocity followed
 * by that acceleration.
 *
 * Square root and exponential are parameters; the model fixes which
 * quantities are combined and how, not their floating-point values.
 */
module Dynamics {
  import Atmosphere

  /** A three-component vector of the inertial frame. */
  datatype Vec3 = Vec3(x: real, y: real, z: real) {
    /** The components in order, as the six-element state stores them. */
    function Components(): (s: seq<real>)
      ensures |s| == 3 && s[0] == x && s[1] == y && s[2] == z
    {
      [x, y, z]
    }
  }

  function Add(u: Vec3, w: Vec3): Vec3 {
    Vec3(u.x + w.x, u.y + w.y, u.z + w.z)
  }

  function Sub(u: Vec3, w: Vec3): Vec3 {
    Vec3(u.x - w.x, u.y - w.y, u.z - w.z)
  }

  function Scale(k: real, u: Vec3): Vec3 {
    Vec3(k * u.x, k * u.y, k * u.z)
  }

  function Div(u: Vec3, k: real): Vec3
    requires k != 0.0
  {
    Vec3(u.x / k, u.y / k, u.z / k)
  }

  function Cross(u: Vec3, w: Vec3): Vec3 {
    Vec3(u.y * w.z - u.z * w.y, u.z * w.x - u.x * w.z, u.x * w.y - u.y * w.x)
  }

  function SumOfSquares(u: Vec3): real {
    u.x * u.x + u.y * u.y + u.z * u.z
  }

  /** The Euclidean norm, through the given square root. */
  function Norm(u: Vec3, sqrt: real -> real): real {
    sqrt(SumOfSquares(u))
  }

  /** A Python `bool` used as a number: `True` is 1, `False` is 0. */
  function AsNumber(b: bool): (n: real)
    ensures b ==> n == 1.0
    ensures !b ==> n == 0.0
  {
    if b then 1.0 else 0.0
  }

  /** What the equation of motion reads from the orbit. */
  datatype OrbitParams = OrbitParams(R: real, mu: real, we: real, drag: bool)

  /**
   * What it reads from the satellite: mass, drag coefficient and area.
   * The source reads the coefficient as `Satellite.CD`.
   */
  datatype Ballistics = Ballistics(mass: real, cd: real, area: real)

  /** Position: the first three state elements. */
  function Position(y: seq<real>): Vec3
    requires |y| == 6
  {
    Vec3(y[0], y[1], y[2])
  }

  /** Velocity: the last three state elements. */
  function Velocity(y: seq<real>): Vec3
    requires |y| == 6
  {
    Vec3(y[3], y[4], y[5])
  }

  /** Velocity relative to the atmosphere turning with the body at rate `we` about Z. */
  function RelativeVelocity(y: seq<real>, body: OrbitParams): Vec3
    requires |y| == 6
  {
    Sub(Velocity(y), Cross(Vec3(0.0, 0.0, body.we), Position(y)))
  }

  /**
   * The divisions the source performs unguarded are defined: the position
   * and the relative velocity have non-zero norm and the mass is non-zero.
   */
  predicate NonDegenerate(y: seq<real>, body: OrbitParams, sat: Ballistics, sqrt: real -> real) {
    |y| == 6 &&
    Norm(Position(y), sqrt) != 0.0 &&
    Norm(RelativeVelocity(y, body), sqrt) != 0.0 &&
    sat.mass != 0.0
  }

  /** Point-mass gravity `-(mu / |r|^3) r`. */
  function PointMass(r: Vec3, mu: real, sqrt: real -> real): Vec3
    requires Norm(r, sqrt) != 0.0
  {
    var n := Norm(r, sqrt);
    Scale(-(mu / (n * n * n)), r)
  }

  /**
   * Drag in m/s^2 as the source writes it: `-(CD area / mass) * rho *
   * (1000 |Vrel|)^2 / 2` along the unit vector of `Vrel`, with `rho` the
   * atmosphere at altitude `|r| - R`.
   */
  function DragTerm(y: seq<real>, body: OrbitParams, sat: Ballistics, sqrt: real -> real, exp: real -> real): Vec3
    requires NonDegenerate(y, body, sat, sqrt)
  {
    var vrel := RelativeVelocity(y, body);
    var vrelNorm := Norm(vrel, sqrt);
    var versor := Div(vrel, vrelNorm);
    var altitude := Norm(Position(y), sqrt) - body.R;
    var rho := Atmosphere.DensityAt(altitude, exp);
    var speed := 1000.0 * vrelNorm;
    Scale(-(sat.cd * sat.area / sat.mass) * (rho * (speed * speed) / 2.0), versor)
  }

  /** `a0 + a_drag / 1000 * drag`. */
  function Acceleration(y: seq<real>, body: OrbitParams, sat: Ballistics, sqrt: real -> real, exp: real -> real): Vec3
    requires NonDegenerate(y, body, sat, sqrt)
  {
    Add(PointMass(Position(y), body.mu, sqrt),
        Scale(AsNumber(body.drag), Div(DragTerm(y, body, sat, sqrt, exp), 1000.0)))
  }

  /**
   * `equation_of_motion`: the derivative of the state is its velocity
   * followed by the acceleration. `t` is not read.
   */
  function EquationOfMotion(t: real, y: seq<real>, body: OrbitParams, sat: Ballistics,
                            sqrt: real -> real, exp: real -> real): (dy: seq<real>)
    requires NonDegenerate(y, body, sat, sqrt)
    ensures |dy| == 6
    ensures dy[..3] == y[3..]
    ensures dy[3..] == Acceleration(y, body, sat, sqrt, exp).Components()
  {
    var v := Velocity(y);
    var a := Acceleration(y, body, sat, sqrt, exp);
    v.Components() + a.Components()
  }

  // ---------------------------------------------------------------------
  // Properties

  /** With drag off, the derivative is the pure two-body one. */
  lemma DragOffIsTwoBody(t: real, y: seq<real>, body: OrbitParams, sat: Ballistics,
                         sqrt: real -> real, exp: real -> real)
    requires NonDegenerate(y, body, sat, sqrt) && !body.drag
    ensures EquationOfMotion(t, y, body, sat, sqrt, exp)
         == y[3..] + PointMass(Position(y), body.mu, sqrt).Components()
  {
  }

  /** With drag on, the drag term is added in km/s^2, on top of gravity. */
  lemma DragOnAddsDrag(t: real, y: seq<real>, body: OrbitParams, sat: Ballistics,
                       sqrt: real -> real, exp: real -> real)
    requires NonDegenerate(y, body, sat, sqrt) && body.drag
    ensures EquationOfMotion(t, y, body, sat, sqrt, exp)[3..]
         == Add(PointMass(Position(y), body.mu, sqrt), Div(DragTerm(y, body, sat, sqrt, exp), 1000.0)).Components()
  {
  }

  /** The derivative does not depend on the time argument. */
  lemma Autonomous(t1: real, t2: real, y: seq<real>, body: OrbitParams, sat: Ballistics,
                   sqrt: real -> real, exp: real -> real)
    requires NonDegenerate(y, body, sat, sqrt)
    ensures EquationOfMotion(t1, y, body, sat, sqrt, exp) == EquationOfMotion(t2, y, body, sat, sqrt, exp)
  {
  }
}
