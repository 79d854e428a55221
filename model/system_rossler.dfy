/** The Rossler system, registered as "rossler". */
module Rossler {
  import opened Errors
  import opened Vectors
  import opened TypeDefs
  import opened Registration
  import SystemRegistry

  /** The arguments of the registration call. */
  const Args := SystemRegistry.RegisterArgs(
    Str("rossler"),
    Some([0.2, 0.2, 5.7]),
    Some(["a", "b", "c"]),
    "Rossler, O. E. \"An Equation for Continuous Chaos,\" "
    + "Physics Letters A, 57(5), 397-398, 1976.",
    Some([0.1, 0.0, -0.1]),
    Some(PlotLims(Lim(-15.0, 15.0), Lim(-15.0, 15.0), Lim(-1.0, 20.0))))

  lemma Metadata()
    ensures SystemRegistry.Shipped(Args, 3)
  {
  }

  /** The rates `(dx, dy, dz)` at `(x, y, z)`. */
  function Rates(x: real, y: real, z: real, a: real, b: real, c: real): Vec3 {
    Vec3(-(y + z),
         x + a * y,
         b + z * (x - c))
  }

  /** `rossler`: `a, b, c = params` demands exactly three parameters. */
  function Derivative(state: Vec3, p: seq<real>): (r: Result<Vec3>)
    ensures r.Ok? <==> |p| == 3
    ensures r.Err? ==> r == Err(UnpackCheck(p, 3).error)
  {
    var _ :- UnpackCheck(p, 3);
    Ok(Rates(state.x, state.y, state.z, p[0], p[1], p[2]))
  }

  /** On the plane `z == 0` the rate `dz` is the constant `b`. */
  lemma OnZeroPlane(s: Vec3, p: seq<real>)
    requires |p| == 3 && s.z == 0.0
    ensures Derivative(s, p).value.z == p[1]
  {
  }

  /** `dx` depends neither on `x` nor on the parameters. */
  lemma RateOfXIndependent(s: Vec3, p: seq<real>, x': real, p': seq<real>)
    requires |p| == 3 && |p'| == 3
    ensures Derivative(Vec3(x', s.y, s.z), p').value.x == Derivative(s, p).value.x
  {
  }
}
