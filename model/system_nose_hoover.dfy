/** The Nose-Hoover oscillator, registered as "nose_hoover". */
module NoseHoover {
  import opened Errors
  import opened Vectors
  import opened TypeDefs
  import opened Registration
  import SystemRegistry

  /** The arguments of the registration call. */
  const Args := SystemRegistry.RegisterArgs(
    Str("nose_hoover"),
    Some([1.0]),
    Some(["a"]),
    "Posch et al. \"Canonical dynamics of the Nosé oscillator: Stability, order, "
    + "and chaos.\" Physical Review A, 33(6), 4253-4265, 1986.",
    Some([0.1, 0.0, -0.1]),
    Some(PlotLims(Lim(-3.0, 1.0), Lim(-3.0, 3.0), Lim(-3.0, 3.0))))

  lemma Metadata()
    ensures SystemRegistry.Shipped(Args, 1)
  {
  }

  /** The rates `(dx, dy, dz)` at `(x, y, z)`. */
  function Rates(x: real, y: real, z: real, a: real): Vec3 {
    Vec3(a * y,
         -x + y * z,
         1.0 - y * y)
  }

  /** `nose_hoover`: only `params[0]` is read, so extra parameters are ignored and none is an IndexError. */
  function Derivative(state: Vec3, p: seq<real>): (r: Result<Vec3>)
    ensures r.Ok? <==> |p| >= 1
    ensures r.Err? ==> r == Err(First(p).error)
  {
    var a :- First(p);
    Ok(Rates(state.x, state.y, state.z, a))
  }

  /** `dz <= 1` everywhere, and `dz == 1` at the origin, which is therefore no equilibrium. */
  lemma ThermostatBound(s: Vec3, p: seq<real>)
    requires |p| >= 1
    ensures Derivative(s, p).value.z <= 1.0
    ensures Derivative(Zero, p) == Ok(Vec3(0.0, 0.0, 1.0)) && Derivative(Zero, p) != Ok(Zero)
  {
    assert s.y * s.y >= 0.0;
  }
}
