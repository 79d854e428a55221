/** The Shimizu-Morioka system, registered as "shimizu_morioka". */
module ShimizuMorioka {
  import opened Errors
  import opened Vectors
  import opened TypeDefs
  import opened Registration
  import SystemRegistry

  /** The arguments of the registration call. */
  const Args := SystemRegistry.RegisterArgs(
    Str("shimizu_morioka"),
    Some([0.45, 0.75]),
    Some(["a", "B"]),
    "Shimizu, T.; Morioka, N. On the bifurcation of a symmetric limit cycle to an "
    + "asymmetric one in a simple model. Phys. Lett. A 1980, 76, 201 - 204.",
    Some([-1.0, 2.0, 1.0]),
    Some(PlotLims(Lim(-10.0, 10.0), Lim(-10.0, 10.0), Lim(-10.0, 10.0))))

  lemma Metadata()
    ensures SystemRegistry.Shipped(Args, 2)
  {
  }

  /** The rates `(dx, dy, dz)` at `(x, y, z)`. */
  function Rates(x: real, y: real, z: real, a: real, B: real): Vec3 {
    Vec3(y,
         x - B * y - x * z,
         -a * z + x * x)
  }

  /** `shimizu_morioka`: `a, B = params` demands exactly two parameters. */
  function Derivative(state: Vec3, p: seq<real>): (r: Result<Vec3>)
    ensures r.Ok? <==> |p| == 2
    ensures r.Err? ==> r == Err(UnpackCheck(p, 2).error)
  {
    var _ :- UnpackCheck(p, 2);
    Ok(Rates(state.x, state.y, state.z, p[0], p[1]))
  }

  lemma OriginIsEquilibrium(p: seq<real>)
    requires |p| == 2
    ensures Derivative(Zero, p) == Ok(Zero)
  {
  }

  /** The rates at `(-x, -y, z)` are `(-dx, -dy, dz)`. */
  lemma RatesFlip(x: real, y: real, z: real, a: real, B: real)
    ensures Rates(-x, -y, z, a, B) == FlipXY(Rates(x, y, z, a, B))
  {
    var d, e := Rates(x, y, z, a, B), Rates(-x, -y, z, a, B);
    assert e.x == -d.x;
    assert e.y == -d.y;
    assert e.z == d.z;
  }

  /** Reflecting the state about the z-axis negates `dx` and `dy` and keeps `dz`. */
  lemma FlipSymmetry(s: Vec3, p: seq<real>)
    requires |p| == 2
    ensures Derivative(FlipXY(s), p) == Ok(FlipXY(Derivative(s, p).value))
  {
    RatesFlip(s.x, s.y, s.z, p[0], p[1]);
  }
}
