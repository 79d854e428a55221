/** The Rikitake two-disk dynamo, registered as "rikitake". */
module Rikitake {
  import opened Errors
  import opened Vectors
  import opened TypeDefs
  import opened Registration
  import SystemRegistry

  /** The arguments of the registration call. */
  const Args := SystemRegistry.RegisterArgs(
    Str("rikitake"),
    Some([5.0, 2.0]),
    Some(["a", "mu"]),
    "Rikitake, Tsuneji. “Oscillations of a System of Disk Dynamos.” "
    + "Mathematical Proceedings of the Cambridge Philosophical Society, "
    + "vol. 54, no. 1, 1958, pp. 89 - 105.",
    Some([-0.7, 0.0, 5.0]),
    Some(PlotLims(Lim(-7.0, 6.0), Lim(-5.0, 3.0), Lim(3.0, 9.0))))

  lemma Metadata()
    ensures SystemRegistry.Shipped(Args, 2)
  {
  }

  /** The rates `(dx, dy, dz)` at `(x, y, z)`. */
  function Rates(x: real, y: real, z: real, a: real, mu: real): Vec3 {
    Vec3(-mu * x + z * y,
         -mu * y + x * (z - a),
         1.0 - x * y)
  }

  /** `rikitake`: `a, mu = params` demands exactly two parameters. */
  function Derivative(state: Vec3, p: seq<real>): (r: Result<Vec3>)
    ensures r.Ok? <==> |p| == 2
    ensures r.Err? ==> r == Err(UnpackCheck(p, 2).error)
  {
    var _ :- UnpackCheck(p, 2);
    Ok(Rates(state.x, state.y, state.z, p[0], p[1]))
  }

  /** The rates at `(-x, -y, z)` are `(-dx, -dy, dz)`. */
  lemma RatesFlip(x: real, y: real, z: real, a: real, mu: real)
    ensures Rates(-x, -y, z, a, mu) == FlipXY(Rates(x, y, z, a, mu))
  {
    var d, e := Rates(x, y, z, a, mu), Rates(-x, -y, z, a, mu);
    assert e.x == -d.x;
    assert e.y == -d.y;
    assert e.z == d.z;
  }

  /** Reflecting the state about the z-axis negates `dx` and `dy` and keeps `dz`. */
  lemma FlipSymmetry(s: Vec3, p: seq<real>)
    requires |p| == 2
    ensures Derivative(FlipXY(s), p) == Ok(FlipXY(Derivative(s, p).value))
  {
    RatesFlip(s.x, s.y, s.z, p[0], p[1]);
  }

  /** At the origin `dz == 1`, so the origin is no equilibrium. */
  lemma AtOrigin(p: seq<real>)
    requires |p| == 2
    ensures Derivative(Zero, p) == Ok(Vec3(0.0, 0.0, 1.0))
  {
  }
}
