/** The Moore-Spiegel oscillator, registered as "moore_spiegel". */
module MooreSpiegel {
  import opened Errors
  import opened Vectors
  import opened TypeDefs
  import opened Registration
  import SystemRegistry

  /** The arguments of the registration call. */
  const Args := SystemRegistry.RegisterArgs(
    Str("moore_spiegel"),
    Some([20.0, 100.0]),
    Some(["t", "r"]),
    "Moore, D. W., & Spiegel, E. A. (1966). \"A thermally excited nonlinear oscillator,\" "
    + "The Astrophysical Journal, 143, 871-887.",
    Some([0.0, 0.8, 0.0]),
    Some(PlotLims(Lim(-10.0, 10.0), Lim(-20.0, 20.0), Lim(-250.0, 250.0))))

  lemma Metadata()
    ensures SystemRegistry.Shipped(Args, 2)
  {
  }

  /** The rates `(dx, dy, dz)` at `(x, y, z)`. */
  function Rates(x: real, y: real, z: real, t: real, r: real): Vec3 {
    Vec3(y,
         z,
         -z - (t - r * (1.0 - x * x)) * y - t * x)
  }

  /** `moore_spiegel`: `t, r = params` demands exactly two parameters. */
  function Derivative(state: Vec3, p: seq<real>): (r: Result<Vec3>)
    ensures r.Ok? <==> |p| == 2
    ensures r.Err? ==> r == Err(UnpackCheck(p, 2).error)
  {
    var _ :- UnpackCheck(p, 2);
    Ok(Rates(state.x, state.y, state.z, p[0], p[1]))
  }

  lemma OriginIsEquilibrium(p: seq<real>)
    requires |p| == 2
    ensures Derivative(Zero, p) == Ok(Zero)
  {
  }

  /** The rates at `(-x, -y, -z)` are `(-dx, -dy, -dz)`. */
  lemma RatesOdd(x: real, y: real, z: real, t: real, r: real)
    ensures Rates(-x, -y, -z, t, r) == Neg(Rates(x, y, z, t, r))
  {
    var d, e := Rates(x, y, z, t, r), Rates(-x, -y, -z, t, r);
    assert e.z == -d.z;
  }

  /** The field is odd: `F(-s) == -F(s)`. */
  lemma OddSymmetry(s: Vec3, p: seq<real>)
    requires |p| == 2
    ensures Derivative(Neg(s), p) == Ok(Neg(Derivative(s, p).value))
  {
    RatesOdd(s.x, s.y, s.z, p[0], p[1]);
  }
}
