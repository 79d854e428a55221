/** The Burke-Shaw system, registered as "burke_shaw". */
module BurkeShaw {
  import opened Errors
  import opened Vectors
  import opened TypeDefs
  import opened Registration
  import SystemRegistry

  /** The arguments of the registration call. */
  const Args := SystemRegistry.RegisterArgs(
    Str("burke_shaw"),
    Some([10.0, 4.272]),
    Some(["s", "v"]),
    "Shaw, Robert. \"Strange Attractors, Chaotic Behavior, and Information Flow\" "
    + "Zeitschrift für Naturforschung A, vol. 36, no. 1, 1981, pp. 80-112.",
    Some([1.0, 0.0, 0.0]),
    Some(PlotLims(Lim(-2.5, 2.5), Lim(-2.5, 2.5), Lim(-2.0, 2.0))))

  lemma Metadata()
    ensures SystemRegistry.Shipped(Args, 2)
  {
  }

  /** The rates `(dx, dy, dz)` at `(x, y, z)`. */
  function Rates(x: real, y: real, z: real, s: real, v: real): Vec3 {
    Vec3(-s * (x + y),
         -y - s * x * z,
         s * x * y + v)
  }

  /** `burke_shaw`: `s, v = params` demands exactly two parameters. */
  function Derivative(state: Vec3, p: seq<real>): (r: Result<Vec3>)
    ensures r.Ok? <==> |p| == 2
    ensures r.Err? ==> r == Err(UnpackCheck(p, 2).error)
  {
    var _ :- UnpackCheck(p, 2);
    Ok(Rates(state.x, state.y, state.z, p[0], p[1]))
  }

  /** The rates at `(-x, -y, z)` are `(-dx, -dy, dz)`. */
  lemma RatesFlip(x: real, y: real, z: real, s: real, v: real)
    ensures Rates(-x, -y, z, s, v) == FlipXY(Rates(x, y, z, s, v))
  {
    var d, e := Rates(x, y, z, s, v), Rates(-x, -y, z, s, v);
    assert e.x == -d.x;
    assert e.y == -d.y;
    assert e.z == d.z;
  }

  /** Reflecting the state about the z-axis negates `dx` and `dy` and keeps `dz`. */
  lemma FlipSymmetry(s: Vec3, p: seq<real>)
    requires |p| == 2
    ensures Derivative(FlipXY(s), p) == Ok(FlipXY(Derivative(s, p).value))
  {
    RatesFlip(s.x, s.y, s.z, p[0], p[1]);
  }

  /** At the origin only `dz` is nonzero, and it is `v`: the origin is an equilibrium exactly when `v == 0`. */
  lemma AtOrigin(p: seq<real>)
    requires |p| == 2
    ensures Derivative(Zero, p) == Ok(Vec3(0.0, 0.0, p[1]))
    ensures Derivative(Zero, p) == Ok(Zero) <==> p[1] == 0.0
  {
  }
}
