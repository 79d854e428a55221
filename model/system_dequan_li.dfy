/** The Dequan-Li system, registered as "dequan_li". */
module DequanLi {
  import opened Errors
  import opened Vectors
  import opened TypeDefs
  import opened Registration
  import SystemRegistry

  /** The arguments of the registration call. */
  const Args := SystemRegistry.RegisterArgs(
    Str("dequan_li"),
    Some([40.0, 1.833, 0.16, 0.65, 55.0, 20.0]),
    Some(["a", "c", "d", "e", "k", "f"]),
    "Li, Dequan., \"A three-scroll chaotic attractor.\" Physics Letters A. 372. 387-393. (2008).",
    Some([0.01, 0.0, 0.0]),
    Some(PlotLims(Lim(-200.0, 200.0), Lim(-200.0, 250.0), Lim(-50.0, 250.0))))

  lemma Metadata()
    ensures SystemRegistry.Shipped(Args, 6)
  {
  }

  /** The rates `(dx, dy, dz)` at `(x, y, z)`. */
  function Rates(x: real, y: real, z: real, a: real, c: real, d: real, e: real, k: real, f: real): Vec3 {
    Vec3(a * (y - x) + d * x * z,
         k * x + f * y - x * z,
         c * z + x * y - e * x * x)
  }

  /** `dequan_li`: `a, c, d, e, k, f = params` demands exactly six parameters. */
  function Derivative(state: Vec3, p: seq<real>): (r: Result<Vec3>)
    ensures r.Ok? <==> |p| == 6
    ensures r.Err? ==> r == Err(UnpackCheck(p, 6).error)
  {
    var _ :- UnpackCheck(p, 6);
    Ok(Rates(state.x, state.y, state.z, p[0], p[1], p[2], p[3], p[4], p[5]))
  }

  lemma OriginIsEquilibrium(p: seq<real>)
    requires |p| == 6
    ensures Derivative(Zero, p) == Ok(Zero)
  {
  }

  /** The rates at `(-x, -y, z)` are `(-dx, -dy, dz)`. */
  lemma RatesFlip(x: real, y: real, z: real, a: real, c: real, d: real, e: real, k: real, f: real)
    ensures Rates(-x, -y, z, a, c, d, e, k, f) == FlipXY(Rates(x, y, z, a, c, d, e, k, f))
  {
    var d, e := Rates(x, y, z, a, c, d, e, k, f), Rates(-x, -y, z, a, c, d, e, k, f);
    assert e.x == -d.x;
    assert e.y == -d.y;
    assert e.z == d.z;
  }

  /** Reflecting the state about the z-axis negates `dx` and `dy` and keeps `dz`. */
  lemma FlipSymmetry(s: Vec3, p: seq<real>)
    requires |p| == 6
    ensures Derivative(FlipXY(s), p) == Ok(FlipXY(Derivative(s, p).value))
  {
    RatesFlip(s.x, s.y, s.z, p[0], p[1], p[2], p[3], p[4], p[5]);
  }
}
