/** The generalised Lotka-Volterra system, registered as "lotka_volterra". */
module LotkaVolterra {
  import opened Errors
  import opened Vectors
  import opened TypeDefs
  import opened Registration
  import SystemRegistry

  /** The arguments of the registration call. */
  const Args := SystemRegistry.RegisterArgs(
    Str("lotka_volterra"),
    Some([2.9851, 3.0, 2.0]),
    Some(["a", "b", "c"]),
    "J. S. Costello, “Synchronization of chaos in a generalized Lotka-Volterra attractor,” "
    + "The Nonlinear Journal, vol. 1, pp. 11 - 17, 1999.",
    Some([1.0, 1.0, 1.0]),
    Some(PlotLims(Lim(0.7, 1.3), Lim(0.7, 1.3), Lim(0.5, 1.1))))

  lemma Metadata()
    ensures SystemRegistry.Shipped(Args, 3)
  {
  }

  /** The rates `(dx, dy, dz)` at `(x, y, z)`. */
  function Rates(x: real, y: real, z: real, a: real, b: real, c: real): Vec3 {
    Vec3(x - x * y + c * x * x - a * z * x * x,
         -y + x * y,
         -b * z + a * z * x * x)
  }

  /** `lotka_volterra`: `a, b, c = params` demands exactly three parameters. */
  function Derivative(state: Vec3, p: seq<real>): (r: Result<Vec3>)
    ensures r.Ok? <==> |p| == 3
    ensures r.Err? ==> r == Err(UnpackCheck(p, 3).error)
  {
    var _ :- UnpackCheck(p, 3);
    Ok(Rates(state.x, state.y, state.z, p[0], p[1], p[2]))
  }

  lemma OriginIsEquilibrium(p: seq<real>)
    requires |p| == 3
    ensures Derivative(Zero, p) == Ok(Zero)
  {
  }

  /** Each coordinate plane is invariant: a zero coordinate has a zero rate. */
  lemma InvariantPlanes(s: Vec3, p: seq<real>)
    requires |p| == 3
    ensures s.x == 0.0 ==> Derivative(s, p).value.x == 0.0
    ensures s.y == 0.0 ==> Derivative(s, p).value.y == 0.0
    ensures s.z == 0.0 ==> Derivative(s, p).value.z == 0.0
  {
  }
}
