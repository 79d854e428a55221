/** The three Bouali systems, registered as "bouali_type_1", "bouali_type_2" and "bouali_type_3". */
module Bouali {
  import opened Errors
  import opened Vectors
  import opened TypeDefs
  import opened Registration
  import SystemRegistry

  /** The arguments of the three registration calls. */
  const Type1Args := SystemRegistry.RegisterArgs(
    Str("bouali_type_1"),
    Some([0.02, 0.2, 0.4, 10.0, 0.1, 50.0]),
    Some(["k", "b", "mu", "p", "q", "s"]),
    "S. Bouali, et al. (2012). Emulating complex business cycles by using an "
    + "electronic analogue",
    Some([0.012, 3.69, -0.09]),
    Some(PlotLims(Lim(-0.05, 0.05), Lim(-5.0, 5.0), Lim(-0.2, 0.2))))

  const Type2Args := SystemRegistry.RegisterArgs(
    Str("bouali_type_2"),
    Some([4.0, 1.0, 1.4, 2.8, 1.0, 1.0]),
    Some(["a", "b", "c", "s", "alpha", "beta"]),
    "Bouali, S. (2012). A novel strange attractor with a stretched loop",
    Some([0.1, 3.0, 0.2]),
    Some(PlotLims(Lim(-8.0, 8.0), Lim(-3.0, 13.0), Lim(-20.0, 1.5))))

  const Type3Args := SystemRegistry.RegisterArgs(
    Str("bouali_type_3"),
    Some([1.0, 0.001, 3.0, 2.2]),
    Some(["gamma", "mu", "alpha", "beta"]),
    "Bouali, S. (2013). A 3D Strange Attractor with a Distinctive Silhouette",
    Some([1.0, 1.0, 0.0]),
    Some(PlotLims(Lim(-3.0, 3.0), Lim(0.0, 3.0), Lim(-0.15, 0.15))))

  lemma Metadata()
    ensures SystemRegistry.Shipped(Type1Args, 6)
    ensures SystemRegistry.Shipped(Type2Args, 6)
    ensures SystemRegistry.Shipped(Type3Args, 4)
  {
  }

  /** The rates of type 1 at `(x, y, z)`. */
  function Type1Rates(x: real, y: real, z: real, k: real, b: real, mu: real, p: real, q: real, s: real): Vec3 {
    Vec3(k * y + mu * x * (b - y * y),
         -x + s * z,
         p * x - q * y)
  }

  /** `bouali_type_1`: `k, b, mu, p, q, s = params` demands exactly six parameters. */
  function Type1(state: Vec3, p: seq<real>): (r: Result<Vec3>)
    ensures r.Ok? <==> |p| == 6
    ensures r.Err? ==> r == Err(UnpackCheck(p, 6).error)
  {
    var _ :- UnpackCheck(p, 6);
    Ok(Type1Rates(state.x, state.y, state.z, p[0], p[1], p[2], p[3], p[4], p[5]))
  }

  /** The rates of type 2 at `(x, y, z)`. */
  function Type2Rates(x: real, y: real, z: real, a: real, b: real, c: real, s: real, alpha: real, beta: real)
    : Vec3
  {
    Vec3(x * (a - y) + alpha * z,
         -y * (b - x * x),
         -x * (c - s * z) - beta * z)
  }

  /** `bouali_type_2`: `a, b, c, s, alpha, beta = params` demands exactly six parameters. */
  function Type2(state: Vec3, p: seq<real>): (r: Result<Vec3>)
    ensures r.Ok? <==> |p| == 6
    ensures r.Err? ==> r == Err(UnpackCheck(p, 6).error)
  {
    var _ :- UnpackCheck(p, 6);
    Ok(Type2Rates(state.x, state.y, state.z, p[0], p[1], p[2], p[3], p[4], p[5]))
  }

  /** The rates of type 3 at `(x, y, z)`. */
  function Type3Rates(x: real, y: real, z: real, gamma: real, mu: real, alpha: real, beta: real): Vec3 {
    Vec3(alpha * x * (1.0 - y) - beta * z,
         -gamma * y * (1.0 - x * x),
         mu * x)
  }

  /** `bouali_type_3`: `gamma, mu, alpha, beta = params` demands exactly four parameters. */
  function Type3(state: Vec3, p: seq<real>): (r: Result<Vec3>)
    ensures r.Ok? <==> |p| == 4
    ensures r.Err? ==> r == Err(UnpackCheck(p, 4).error)
  {
    var _ :- UnpackCheck(p, 4);
    Ok(Type3Rates(state.x, state.y, state.z, p[0], p[1], p[2], p[3]))
  }

  /** The origin is an equilibrium of all three, whatever the parameters. */
  lemma OriginIsEquilibrium(p6: seq<real>, p4: seq<real>)
    requires |p6| == 6 && |p4| == 4
    ensures Type1(Zero, p6) == Ok(Zero)
    ensures Type2(Zero, p6) == Ok(Zero)
    ensures Type3(Zero, p4) == Ok(Zero)
  {
  }

  /** For types 2 and 3 the plane `y == 0` is invariant. */
  lemma InvariantPlane(s: Vec3, p6: seq<real>, p4: seq<real>)
    requires |p6| == 6 && |p4| == 4 && s.y == 0.0
    ensures Type2(s, p6).value.y == 0.0
    ensures Type3(s, p4).value.y == 0.0
  {
  }
}
