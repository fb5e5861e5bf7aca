/** Plane geometry used by the turtle: points standing for `complex<double>`,
    the construction `rho * cos(angle), rho * sin(angle)` standing for
    `std::polar`, and degree-to-radian conversion. For a negative `rho` that
    construction is an assumption of the model: `std::polar` requires a
    non-negative `rho`. Doubles are modelled as reals; cosine and sine are
    supplied by the caller as a `Trig` value, and only the sample-program
    results assume values for them. */
module Geometry {

  /** A point of the turtle's plane: `x` is the real part, `y` the imaginary part. */
  datatype Point = Point(x: real, y: real)

  const Origin: Point := Point(0.0, 0.0)

  /** The value of `M_PI`. */
  const Pi: real := 3.14159265358979323846

  /** The cosine and sine functions the polar construction uses. */
  datatype Trig = Trig(cos: real -> real, sin: real -> real)

  /** `p + q` on complex numbers. */
  function Add(p: Point, q: Point): Point
  {
    Point(p.x + q.x, p.y + q.y)
  }

  /** `polar(rho, angle)`: the point at distance `rho` from the origin in direction `angle`.
      A negative `rho` is taken as `rho * cos(angle), rho * sin(angle)` too, which is
      what moving backwards needs of it. */
  function Polar(trig: Trig, rho: real, angle: real): Point
  {
    Point(rho * trig.cos(angle), rho * trig.sin(angle))
  }

  /** `degrees * M_PI / 180`. */
  function Radians(degrees: real): real
  {
    degrees * Pi / 180.0
  }

  /** Negating the distance gives the opposite displacement, which is what moving backwards relies on. */
  lemma PolarNegate(trig: Trig, rho: real, angle: real)
    ensures Add(Polar(trig, rho, angle), Polar(trig, -rho, angle)) == Origin
  {
  }

  /** Conversion to radians distributes over a sum of degrees, so opposite turns cancel. */
  lemma RadiansAdd(a: real, b: real)
    ensures Radians(a + b) == Radians(a) + Radians(b)
    ensures Radians(-a) == -Radians(a)
  {
  }
}
