/** The Halvorsen system, registered as "halvorsen". */
module Halvorsen {
  import opened Errors
  import opened Vectors
  import opened TypeDefs
  import opened Registration
  import SystemRegistry

  /** The arguments of the registration call. */
  const Args := SystemRegistry.RegisterArgs(
    Str("halvorsen"),
    Some([1.89]),
    Some(["a"]),
    "J. C. Sprott and J. C. Sprott, Chaos and time-series analysis, Vol. 69 (Citeseer, 2003)",
    Some([-1.48, 1.51, 2.04]),
    Some(PlotLims(Lim(-20.0, 15.0), Lim(-12.0, 8.0), Lim(-12.0, 8.0))))

  lemma Metadata()
    ensures SystemRegistry.Shipped(Args, 1)
  {
  }

  /** The rates `(dx, dy, dz)` at `(x, y, z)`. */
  function Rates(x: real, y: real, z: real, a: real): Vec3 {
    Vec3(-a * x - 4.0 * y - 4.0 * z - y * y,
         -a * y - 4.0 * z - 4.0 * x - z * z,
         -a * z - 4.0 * x - 4.0 * y - x * x)
  }

  /** `halvorsen`: only `params[0]` is read, so extra parameters are ignored and none is an IndexError. */
  function Derivative(state: Vec3, p: seq<real>): (r: Result<Vec3>)
    ensures r.Ok? <==> |p| >= 1
    ensures r.Err? ==> r == Err(First(p).error)
  {
    var a :- First(p);
    Ok(Rates(state.x, state.y, state.z, a))
  }

  lemma OriginIsEquilibrium(p: seq<real>)
    requires |p| >= 1
    ensures Derivative(Zero, p) == Ok(Zero)
  {
  }

  /** Cyclic symmetry: the derivative at `(y, z, x)` is `(dy, dz, dx)`. */
  lemma CyclicSymmetry(s: Vec3, p: seq<real>)
    requires |p| >= 1
    ensures Derivative(Rotate(s), p) == Ok(Rotate(Derivative(s, p).value))
  {
  }
}
