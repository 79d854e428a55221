/** The Sakarya system, registered as "sakarya" with reference "NA". */
module Sakarya {
  import opened Errors
  import opened Vectors
  import opened TypeDefs
  import opened Registration
  import SystemRegistry

  /** The arguments of the registration call. */
  const Args := SystemRegistry.RegisterArgs(
    Str("sakarya"),
    Some([0.4, 0.3]),
    Some(["a", "b"]),
    "NA",
    Some([1.0, -1.0, 1.0]),
    Some(PlotLims(Lim(-35.0, 30.0), Lim(-17.0, 15.0), Lim(-13.0, 17.0))))

  lemma Metadata()
    ensures SystemRegistry.Shipped(Args, 2)
  {
  }

  /** The rates `(dx, dy, dz)` at `(x, y, z)`. */
  function Rates(x: real, y: real, z: real, a: real, b: real): Vec3 {
    Vec3(-x + y + y * z,
         -x - y + a * x * z,
         z - b * x * y)
  }

  /** `sakarya`: `a, b = params` demands exactly two parameters. */
  function Derivative(state: Vec3, p: seq<real>): (r: Result<Vec3>)
    ensures r.Ok? <==> |p| == 2
    ensures r.Err? ==> r == Err(UnpackCheck(p, 2).error)
  {
    var _ :- UnpackCheck(p, 2);
    Ok(Rates(state.x, state.y, state.z, p[0], p[1]))
  }

  lemma OriginIsEquilibrium(p: seq<real>)
    requires |p| == 2
    ensures Derivative(Zero, p) == Ok(Zero)
  {
  }

  /** The rates at `(-x, -y, z)` are `(-dx, -dy, dz)`. */
  lemma RatesFlip(x: real, y: real, z: real, a: real, b: real)
    ensures Rates(-x, -y, z, a, b) == FlipXY(Rates(x, y, z, a, b))
  {
    var d, e := Rates(x, y, z, a, b), Rates(-x, -y, z, a, b);
    assert e.x == -d.x;
    assert e.y == -d.y;
    assert e.z == d.z;
  }

  /** Reflecting the state about the z-axis negates `dx` and `dy` and keeps `dz`. */
  lemma FlipSymmetry(s: Vec3, p: seq<real>)
    requires |p| == 2
    ensures Derivative(FlipXY(s), p) == Ok(FlipXY(Derivative(s, p).value))
  {
    RatesFlip(s.x, s.y, s.z, p[0], p[1]);
  }
}
