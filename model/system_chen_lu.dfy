/** The Chen-Lu system, registered as "chen_lu". */
module ChenLu {
  import opened Errors
  import opened Vectors
  import opened TypeDefs
  import opened Registration
  import SystemRegistry

  /** The arguments of the registration call. */
  const Args := SystemRegistry.RegisterArgs(
    Str("chen_lu"),
    Some([36.0, 3.0, 17.0]),
    Some(["a", "b", "c"]),
    "Lu, Jinhu & Chen, Guanrong. (2002). \"A New Chaotic Attractor Coined.\"."
    + " International Journal of Bifurcation and Chaos. vol. 12. pp-659-661.",
    Some([1.0, 1.0, 30.0]),
    Some(PlotLims(Lim(-30.0, 30.0), Lim(-30.0, 30.0), Lim(0.0, 30.0))))

  lemma Metadata()
    ensures SystemRegistry.Shipped(Args, 3)
  {
  }

  /** The rates `(dx, dy, dz)` at `(x, y, z)`. */
  function Rates(x: real, y: real, z: real, a: real, b: real, c: real): Vec3 {
    Vec3(a * (y - x),
         -(x * z) + c * y,
         x * y - b * z)
  }

  /** `chen_lu`: `a, b, c = params` demands exactly three parameters. */
  function Derivative(state: Vec3, p: seq<real>): (r: Result<Vec3>)
    ensures r.Ok? <==> |p| == 3
    ensures r.Err? ==> r == Err(UnpackCheck(p, 3).error)
  {
    var _ :- UnpackCheck(p, 3);
    Ok(Rates(state.x, state.y, state.z, p[0], p[1], p[2]))
  }

  lemma OriginIsEquilibrium(p: seq<real>)
    requires |p| == 3
    ensures Derivative(Zero, p) == Ok(Zero)
  {
  }

  /** The rates at `(-x, -y, z)` are `(-dx, -dy, dz)`. */
  lemma RatesFlip(x: real, y: real, z: real, a: real, b: real, c: real)
    ensures Rates(-x, -y, z, a, b, c) == FlipXY(Rates(x, y, z, a, b, c))
  {
    var d, e := Rates(x, y, z, a, b, c), Rates(-x, -y, z, a, b, c);
    assert e.x == -d.x;
    assert e.y == -d.y;
    assert e.z == d.z;
  }

  /** Reflecting the state about the z-axis negates `dx` and `dy` and keeps `dz`. */
  lemma FlipSymmetry(s: Vec3, p: seq<real>)
    requires |p| == 3
    ensures Derivative(FlipXY(s), p) == Ok(FlipXY(Derivative(s, p).value))
  {
    RatesFlip(s.x, s.y, s.z, p[0], p[1], p[2]);
  }
}
