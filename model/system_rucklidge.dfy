/** The Rucklidge double-convection system, registered as "rucklidge". */
module Rucklidge {
  import opened Errors
  import opened Vectors
  import opened TypeDefs
  import opened Registration
  import SystemRegistry

  /** The arguments of the registration call. */
  const Args := SystemRegistry.RegisterArgs(
    Str("rucklidge"),
    Some([2.0, 6.7]),
    Some(["k", "alpha"]),
    "Rucklidge, A. Chaos in models of double convection. J. Fluid Mech. 1992, 237, 209–229.",
    Some([1.0, 0.0, 4.5]),
    Some(PlotLims(Lim(-10.0, 10.0), Lim(-10.0, 10.0), Lim(-10.0, 10.0))))

  lemma Metadata()
    ensures SystemRegistry.Shipped(Args, 2)
  {
  }

  /** The rates `(dx, dy, dz)` at `(x, y, z)`. */
  function Rates(x: real, y: real, z: real, k: real, alpha: real): Vec3 {
    Vec3(-k * x + alpha * y - y * z,
         x,
         -z + y * y)
  }

  /** `rucklidge`: `k, alpha = params` demands exactly two parameters. */
  function Derivative(state: Vec3, p: seq<real>): (r: Result<Vec3>)
    ensures r.Ok? <==> |p| == 2
    ensures r.Err? ==> r == Err(UnpackCheck(p, 2).error)
  {
    var _ :- UnpackCheck(p, 2);
    Ok(Rates(state.x, state.y, state.z, p[0], p[1]))
  }

  lemma OriginIsEquilibrium(p: seq<real>)
    requires |p| == 2
    ensures Derivative(Zero, p) == Ok(Zero)
  {
  }

  /** The rates at `(-x, -y, z)` are `(-dx, -dy, dz)`. */
  lemma RatesFlip(x: real, y: real, z: real, k: real, alpha: real)
    ensures Rates(-x, -y, z, k, alpha) == FlipXY(Rates(x, y, z, k, alpha))
  {
    var d, e := Rates(x, y, z, k, alpha), Rates(-x, -y, z, k, alpha);
    assert e.x == -d.x;
    assert e.y == -d.y;
    assert e.z == d.z;
  }

  /** Reflecting the state about the z-axis negates `dx` and `dy` and keeps `dz`. */
  lemma FlipSymmetry(s: Vec3, p: seq<real>)
    requires |p| == 2
    ensures Derivative(FlipXY(s), p) == Ok(FlipXY(Derivative(s, p).value))
  {
    RatesFlip(s.x, s.y, s.z, p[0], p[1]);
  }

  /** `dz >= -z`: the forcing `y * y` never pulls `z` down. */
  lemma ForcingBound(s: Vec3, p: seq<real>)
    requires |p| == 2
    ensures Derivative(s, p).value.z >= -s.z
  {
    assert s.y * s.y >= 0.0;
  }
}
