/** The Langford (Aizawa) system, registered as "langford". */
module Langford {
  import opened Errors
  import opened Vectors
  import opened TypeDefs
  import opened Registration
  import SystemRegistry

  /** The arguments of the registration call. */
  const Args := SystemRegistry.RegisterArgs(
    Str("langford"),
    Some([0.95, 0.7, 0.6, 3.5, 0.25, 0.1]),
    Some(["alpha", "beta", "lmbda", "omega", "rho", "epsilon"]),
    "W. F. Langford, Numerical studies of torus bifurcations, Numerical methods for "
    + "bifurcation problems  (Dortmund, 1983), Internat. Schriftenreihe Numer. Math., vol. 70, "
    + "Birkhäuser, Basel, 1984,  pp. 285 - 295.",
    Some([0.1, 0.0, 0.0]),
    Some(PlotLims(Lim(-2.0, 2.0), Lim(-2.0, 2.0), Lim(-0.5, 2.0))))

  lemma Metadata()
    ensures SystemRegistry.Shipped(Args, 6)
  {
  }

  /** The rates `(dx, dy, dz)` at `(x, y, z)`. */
  function Rates(x: real, y: real, z: real, alpha: real, beta: real, lmbda: real, omega: real, rho: real,
                 epsilon: real): Vec3
  {
    Vec3((z - beta) * x - omega * y,
         omega * x + (z - beta) * y,
         lmbda + alpha * z - z * z * z / 3.0 - (x * x + y * y) * (1.0 + rho * z) + epsilon * z * x * x * x)
  }

  /** `langford`: `alpha, beta, lmbda, omega, rho, epsilon = params` demands exactly six parameters. */
  function Derivative(state: Vec3, p: seq<real>): (r: Result<Vec3>)
    ensures r.Ok? <==> |p| == 6
    ensures r.Err? ==> r == Err(UnpackCheck(p, 6).error)
  {
    var _ :- UnpackCheck(p, 6);
    Ok(Rates(state.x, state.y, state.z, p[0], p[1], p[2], p[3], p[4], p[5]))
  }

  /** The rotation by `omega` cancels: `x * dx + y * dy == (z - beta) * (x² + y²)`. */
  lemma RatesRadial(x: real, y: real, z: real, alpha: real, beta: real, lmbda: real, omega: real, rho: real,
                    epsilon: real)
    ensures var d := Rates(x, y, z, alpha, beta, lmbda, omega, rho, epsilon);
      x * d.x + y * d.y == (z - beta) * (x * x + y * y)
  {
    var d := Rates(x, y, z, alpha, beta, lmbda, omega, rho, epsilon);
    calc {
      x * d.x + y * d.y;
      x * ((z - beta) * x - omega * y) + y * (omega * x + (z - beta) * y);
      (z - beta) * (x * x) - omega * (x * y) + omega * (x * y) + (z - beta) * (y * y);
      (z - beta) * (x * x + y * y);
    }
  }

  /** The radial rate in the `(x, y)` plane depends only on `z - beta`. */
  lemma RadialRate(s: Vec3, p: seq<real>)
    requires |p| == 6
    ensures var d := Derivative(s, p).value;
      s.x * d.x + s.y * d.y == (s.z - p[1]) * (s.x * s.x + s.y * s.y)
  {
    RatesRadial(s.x, s.y, s.z, p[0], p[1], p[2], p[3], p[4], p[5]);
  }

  /** On the z-axis the state does not leave it: `dx == dy == 0`. */
  lemma OnAxis(s: Vec3, p: seq<real>)
    requires |p| == 6 && s.x == 0.0 && s.y == 0.0
    ensures Derivative(s, p).value.x == 0.0 && Derivative(s, p).value.y == 0.0
  {
  }
}
