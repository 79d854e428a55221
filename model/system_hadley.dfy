/** The Hadley circulation system, registered as "hadley". */
module Hadley {
  import opened Errors
  import opened Vectors
  import opened TypeDefs
  import opened Registration
  import SystemRegistry

  /** The arguments of the registration call. */
  const Args := SystemRegistry.RegisterArgs(
    Str("hadley"),
    Some([0.2, 4.0, 8.0, 1.0]),
    Some(["a", "b", "f", "g"]),
    "J. C. Sprott and J. C. Sprott, Chaos and time-series analysis, Vol. 69 (Citeseer, 2003)",
    Some([0.0, 0.0, 1.0]),
    Some(PlotLims(Lim(-1.0, 3.0), Lim(-2.0, 2.0), Lim(-2.0, 2.0))))

  lemma Metadata()
    ensures SystemRegistry.Shipped(Args, 4)
  {
  }

  /** The rates `(dx, dy, dz)` at `(x, y, z)`. */
  function Rates(x: real, y: real, z: real, a: real, b: real, f: real, g: real): Vec3 {
    Vec3(-y * y - z * z - a * (x - f),
         x * y - b * x * z - y + g,
         b * x * y + z * (x - 1.0))
  }

  /** `hadley`: `a, b, f, g = params` demands exactly four parameters. */
  function Derivative(state: Vec3, p: seq<real>): (r: Result<Vec3>)
    ensures r.Ok? <==> |p| == 4
    ensures r.Err? ==> r == Err(UnpackCheck(p, 4).error)
  {
    var _ :- UnpackCheck(p, 4);
    Ok(Rates(state.x, state.y, state.z, p[0], p[1], p[2], p[3]))
  }

  /** The squares only pull `x` down: `dx <= -a * (x - f)`. */
  lemma RelaxationBound(s: Vec3, p: seq<real>)
    requires |p| == 4
    ensures Derivative(s, p).value.x <= -p[0] * (s.x - p[2])
  {
    assert s.y * s.y >= 0.0 && s.z * s.z >= 0.0;
  }
}
