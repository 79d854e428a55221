/** The finance system, registered as "finance". */
module Finance {
  import opened Errors
  import opened Vectors
  import opened TypeDefs
  import opened Registration
  import SystemRegistry

  /** The arguments of the registration call. */
  const Args := SystemRegistry.RegisterArgs(
    Str("finance"),
    Some([0.00001, 0.1, 1.0]),
    Some(["a", "b", "c"]),
    "Cai & Huang (2007). A new finance chaotic attractor. International Journal of "
    + "Nonlinear Science. vol 3. pp. 1479-3889.",
    Some([0.0, -10.0, 0.1]),
    Some(PlotLims(Lim(-3.0, 3.0), Lim(-15.0, -5.0), Lim(-1.5, 1.5))))

  lemma Metadata()
    ensures SystemRegistry.Shipped(Args, 3)
  {
  }

  /** The rates `(dx, dy, dz)` at `(x, y, z)`, for a nonzero `b`. */
  function Rates(x: real, y: real, z: real, a: real, b: real, c: real): Vec3
    requires b != 0.0
  {
    Vec3((1.0 / b - a) * x + x * y + z,
         -b * y - x * x,
         -x - c * z)
  }

  /**
   * `finance`: `a, b, c = params` demands exactly three parameters, and the
   * term `1 / b` has no finite value when `b == 0`.
   */
  function Derivative(state: Vec3, p: seq<real>): (r: Result<Vec3>)
    ensures r.Ok? <==> |p| == 3 && p[1] != 0.0
    ensures |p| != 3 ==> r == Err(UnpackCheck(p, 3).error)
    ensures |p| == 3 && p[1] == 0.0 ==> r.Err? && r.error.NonFinite?
  {
    var _ :- UnpackCheck(p, 3);
    if p[1] == 0.0 then Err(NonFinite("1 / b with b == 0"))
    else Ok(Rates(state.x, state.y, state.z, p[0], p[1], p[2]))
  }

  lemma OriginIsEquilibrium(p: seq<real>)
    requires |p| == 3 && p[1] != 0.0
    ensures Derivative(Zero, p) == Ok(Zero)
  {
  }
}
