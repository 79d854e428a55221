/** The Wang-Sun four-wing system, registered as "wang_sun". */
module WangSun {
  import opened Errors
  import opened Vectors
  import opened TypeDefs
  import opened Registration
  import SystemRegistry

  /** The arguments of the registration call. */
  const Args := SystemRegistry.RegisterArgs(
    Str("wang_sun"),
    Some([0.2, -0.01, 1.0, -0.4, -1.0, -1.0]),
    Some(["a", "b", "c", "d", "e", "f"]),
    "Wang, Z., Sun, Y., van Wyk, B. J., Qi, G. & van Wyk, M. A. "
    + "“A 3-D four-wing attractor and its analysis,” Brazilian J. Phys. 39, (2009) 547-553.",
    Some([0.5, 0.1, 0.1]),
    Some(PlotLims(Lim(-4.0, 4.0), Lim(-4.0, 4.0), Lim(-3.0, 2.0))))

  lemma Metadata()
    ensures SystemRegistry.Shipped(Args, 6)
  {
  }

  /** The rates `(dx, dy, dz)` at `(x, y, z)`. */
  function Rates(x: real, y: real, z: real, a: real, b: real, c: real, d: real, e: real, f: real): Vec3 {
    Vec3(a * x + c * y * z,
         b * x + d * y - x * z,
         e * z + f * x * y)
  }

  /** `wang_sun`: `a, b, c, d, e, f = params` demands exactly six parameters. */
  function Derivative(state: Vec3, p: seq<real>): (r: Result<Vec3>)
    ensures r.Ok? <==> |p| == 6
    ensures r.Err? ==> r == Err(UnpackCheck(p, 6).error)
  {
    var _ :- UnpackCheck(p, 6);
    Ok(Rates(state.x, state.y, state.z, p[0], p[1], p[2], p[3], p[4], p[5]))
  }

  lemma OriginIsEquilibrium(p: seq<real>)
    requires |p| == 6
    ensures Derivative(Zero, p) == Ok(Zero)
  {
  }

  /** The rates at `(-x, -y, z)` are `(-dx, -dy, dz)`. */
  lemma RatesFlip(x: real, y: real, z: real, a: real, b: real, c: real, d: real, e: real, f: real)
    ensures Rates(-x, -y, z, a, b, c, d, e, f) == FlipXY(Rates(x, y, z, a, b, c, d, e, f))
  {
    var d, e := Rates(x, y, z, a, b, c, d, e, f), Rates(-x, -y, z, a, b, c, d, e, f);
    assert e.x == -d.x;
    assert e.y == -d.y;
    assert e.z == d.z;
  }

  /** Reflecting the state about the z-axis negates `dx` and `dy` and keeps `dz`. */
  lemma FlipSymmetry(s: Vec3, p: seq<real>)
    requires |p| == 6
    ensures Derivative(FlipXY(s), p) == Ok(FlipXY(Derivative(s, p).value))
  {
    RatesFlip(s.x, s.y, s.z, p[0], p[1], p[2], p[3], p[4], p[5]);
  }
}
