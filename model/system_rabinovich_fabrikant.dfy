/** The Rabinovich-Fabrikant system, registered as "rabinovich_fabrikant". */
module RabinovichFabrikant {
  import opened Errors
  import opened Vectors
  import opened TypeDefs
  import opened Registration
  import SystemRegistry

  /** The arguments of the registration call. */
  const Args := SystemRegistry.RegisterArgs(
    Str("rabinovich_fabrikant"),
    Some([1.1, 0.87]),
    Some(["alpha", "gamma"]),
    "Rabinovich, M. I. and Fabrikant, A. L., “Stochastic self-modulation of waves in "
    + "nonequilibrium media”, Soviet Journal of Experimental and Theoretical Physics, "
    + "vol. 50, p. 311, 1979.",
    Some([-1.0, 0.0, 0.5]),
    Some(PlotLims(Lim(-2.0, 0.0), Lim(-0.5, 3.0), Lim(0.0, 1.5))))

  lemma Metadata()
    ensures SystemRegistry.Shipped(Args, 2)
  {
  }

  /** The rates `(dx, dy, dz)` at `(x, y, z)`. */
  function Rates(x: real, y: real, z: real, alpha: real, gamma: real): Vec3 {
    Vec3(y * (z - 1.0 + x * x) + gamma * x,
         x * (3.0 * z + 1.0 - x * x) + gamma * y,
         -2.0 * z * (alpha + x * y))
  }

  /** `rabinovich_fabrikant`: `alpha, gamma = params` demands exactly two parameters. */
  function Derivative(state: Vec3, p: seq<real>): (r: Result<Vec3>)
    ensures r.Ok? <==> |p| == 2
    ensures r.Err? ==> r == Err(UnpackCheck(p, 2).error)
  {
    var _ :- UnpackCheck(p, 2);
    Ok(Rates(state.x, state.y, state.z, p[0], p[1]))
  }

  lemma OriginIsEquilibrium(p: seq<real>)
    requires |p| == 2
    ensures Derivative(Zero, p) == Ok(Zero)
  {
  }

  /** The rates at `(-x, -y, z)` are `(-dx, -dy, dz)`. */
  lemma RatesFlip(x: real, y: real, z: real, alpha: real, gamma: real)
    ensures Rates(-x, -y, z, alpha, gamma) == FlipXY(Rates(x, y, z, alpha, gamma))
  {
    var d, e := Rates(x, y, z, alpha, gamma), Rates(-x, -y, z, alpha, gamma);
    assert e.x == -d.x;
    assert e.y == -d.y;
    assert e.z == d.z;
  }

  /** Reflecting the state about the z-axis negates `dx` and `dy` and keeps `dz`. */
  lemma FlipSymmetry(s: Vec3, p: seq<real>)
    requires |p| == 2
    ensures Derivative(FlipXY(s), p) == Ok(FlipXY(Derivative(s, p).value))
  {
    RatesFlip(s.x, s.y, s.z, p[0], p[1]);
  }

  /** The plane `z == 0` is invariant. */
  lemma InvariantPlane(s: Vec3, p: seq<real>)
    requires |p| == 2 && s.z == 0.0
    ensures Derivative(s, p).value.z == 0.0
  {
  }
}
