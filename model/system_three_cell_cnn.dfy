/** The three-cell cellular neural network, registered as "three_cell_cnn". */
module ThreeCellCnn {
  import opened Errors
  import opened Vectors
  import opened TypeDefs
  import opened Registration
  import SystemRegistry

  /** The arguments of the registration call. */
  const Args := SystemRegistry.RegisterArgs(
    Str("three_cell_cnn"),
    Some([1.24, 1.1, 4.4, 3.21]),
    Some(["p1", "p2", "r", "s"]),
    "Arena, P., et al. (1998). Bifurcation and Chaos in Noninteger Order Cellular "
    + "Neural Networks. International Journal of Bifurcation and Chaos, 8(7), 1527-1539.",
    Some([0.1, 0.1, 0.1]),
    Some(PlotLims(Lim(-1.5, 1.5), Lim(-1.5, 1.5), Lim(-2.0, 1.5))))

  lemma Metadata()
    ensures SystemRegistry.Shipped(Args, 4)
  {
  }

  function Abs(v: real): real {
    if v < 0.0 then -v else v
  }

  /** The cell output `0.5 * (|v + 1| - |v - 1|)`. */
  function Sat(v: real): real {
    0.5 * (Abs(v + 1.0) - Abs(v - 1.0))
  }

  /** `v` clamped to `[-1, 1]`. */
  function Clamp(v: real): (c: real)
    ensures -1.0 <= c <= 1.0
    ensures -1.0 <= v <= 1.0 <==> c == v
  {
    if v < -1.0 then -1.0 else if v > 1.0 then 1.0 else v
  }

  /** The output is the input clamped to `[-1, 1]`. */
  lemma SatIsClamp(v: real)
    ensures Sat(v) == Clamp(v)
  {
    if v < -1.0 {
      assert Sat(v) == 0.5 * (-(v + 1.0) - -(v - 1.0));
    } else if v > 1.0 {
      assert Sat(v) == 0.5 * ((v + 1.0) - (v - 1.0));
    } else {
      assert Sat(v) == 0.5 * ((v + 1.0) - -(v - 1.0));
    }
  }

  /** The rates `(dx, dy, dz)` at `(x, y, z)`. */
  function Rates(x: real, y: real, z: real, p1: real, p2: real, r: real, s: real): Vec3 {
    var fx, fy, fz := Sat(x), Sat(y), Sat(z);
    Vec3(-x + p1 * fx - s * fy - s * fz,
         -y - s * fx + p2 * fy - r * fz,
         -z - s * fx + r * fy + fz)
  }

  /** `three_cell_cnn`: `p1, p2, r, s = params` demands exactly four parameters. */
  function Derivative(state: Vec3, p: seq<real>): (r: Result<Vec3>)
    ensures r.Ok? <==> |p| == 4
    ensures r.Err? ==> r == Err(UnpackCheck(p, 4).error)
  {
    var _ :- UnpackCheck(p, 4);
    Ok(Rates(state.x, state.y, state.z, p[0], p[1], p[2], p[3]))
  }

  lemma OriginIsEquilibrium(p: seq<real>)
    requires |p| == 4
    ensures Derivative(Zero, p) == Ok(Zero)
  {
    assert Sat(0.0) == 0.0 by { SatIsClamp(0.0); }
    assert Rates(0.0, 0.0, 0.0, p[0], p[1], p[2], p[3]) == Zero;
  }

  /** The coupling terms are the clamped coordinates, each in `[-1, 1]`. */
  lemma RatesOfClamped(s: Vec3, p: seq<real>)
    requires |p| == 4
    ensures var d := Derivative(s, p).value;
      var (fx, fy, fz) := (Clamp(s.x), Clamp(s.y), Clamp(s.z));
      && d.x == -s.x + p[0] * fx - p[3] * fy - p[3] * fz
      && d.y == -s.y - p[3] * fx + p[1] * fy - p[2] * fz
      && d.z == -s.z - p[3] * fx + p[2] * fy + fz
  {
    SatIsClamp(s.x);
    SatIsClamp(s.y);
    SatIsClamp(s.z);
  }
}
