/** The Newton-Leipnik system, registered as "newton_leipnik". */
module NewtonLeipnik {
  import opened Errors
  import opened Vectors
  import opened TypeDefs
  import opened Registration
  import SystemRegistry

  /** The arguments of the registration call. */
  const Args := SystemRegistry.RegisterArgs(
    Str("newton_leipnik"),
    Some([0.4, 0.175]),
    Some(["alpha", "beta"]),
    "Leipnik, R. B. & Newton, T. A. \"Double strange attractors in rigid body motion "
    + "with linear feedback control,\" Phys. Lett. A86, 63 - 67. (1981)",
    Some([0.349, 0.0, -0.160]),
    Some(PlotLims(Lim(-0.7, 0.7), Lim(-0.4, 0.4), Lim(-0.4, 0.6))))

  lemma Metadata()
    ensures SystemRegistry.Shipped(Args, 2)
  {
  }

  /** The rates `(dx, dy, dz)` at `(x, y, z)`. */
  function Rates(x: real, y: real, z: real, alpha: real, beta: real): Vec3 {
    Vec3(-alpha * x + y + 10.0 * y * z,
         -x - 0.4 * y + 5.0 * x * z,
         beta * z - 5.0 * x * y)
  }

  /** `newton_leipnik`: `alpha, beta = params` demands exactly two parameters; 10, 0.4 and 5 are fixed. */
  function Derivative(state: Vec3, p: seq<real>): (r: Result<Vec3>)
    ensures r.Ok? <==> |p| == 2
    ensures r.Err? ==> r == Err(UnpackCheck(p, 2).error)
  {
    var _ :- UnpackCheck(p, 2);
    Ok(Rates(state.x, state.y, state.z, p[0], p[1]))
  }

  lemma OriginIsEquilibrium(p: seq<real>)
    requires |p| == 2
    ensures Derivative(Zero, p) == Ok(Zero)
  {
  }

  /** The rates at `(-x, -y, z)` are `(-dx, -dy, dz)`. */
  lemma RatesFlip(x: real, y: real, z: real, alpha: real, beta: real)
    ensures Rates(-x, -y, z, alpha, beta) == FlipXY(Rates(x, y, z, alpha, beta))
  {
    var d, e := Rates(x, y, z, alpha, beta), Rates(-x, -y, z, alpha, beta);
    assert e.x == -d.x;
    assert e.y == -d.y;
    assert e.z == d.z;
  }

  /** Reflecting the state about the z-axis negates `dx` and `dy` and keeps `dz`. */
  lemma FlipSymmetry(s: Vec3, p: seq<real>)
    requires |p| == 2
    ensures Derivative(FlipXY(s), p) == Ok(FlipXY(Derivative(s, p).value))
  {
    RatesFlip(s.x, s.y, s.z, p[0], p[1]);
  }
}
