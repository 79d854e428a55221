/** The Dadras system, registered as "dadras". */
module Dadras {
  import opened Errors
  import opened Vectors
  import opened TypeDefs
  import opened Registration
  import SystemRegistry

  /** The arguments of the registration call. */
  const Args := SystemRegistry.RegisterArgs(
    Str("dadras"),
    Some([3.0, 2.7, 1.7, 2.0, 9.0]),
    Some(["a", "b", "c", "d", "h"]),
    "Dadras, Sara & Momeni, Hamid. (2009). A novel three-dimensional autonomous chaotic system "
    + "generating two, three and four-scroll attractors. Physics Letters A. 373. 3637-3642.",
    Some([5.0, 0.0, -4.0]),
    Some(PlotLims(Lim(-15.0, 15.0), Lim(-10.0, 8.0), Lim(-12.0, 12.0))))

  lemma Metadata()
    ensures SystemRegistry.Shipped(Args, 5)
  {
  }

  /** The rates `(dx, dy, dz)` at `(x, y, z)`. */
  function Rates(x: real, y: real, z: real, a: real, b: real, c: real, d: real, h: real): Vec3 {
    Vec3(y - a * x + b * y * z,
         c * y - x * z + z,
         d * x * y - h * z)
  }

  /** `dadras`: `a, b, c, d, h = params` demands exactly five parameters. */
  function Derivative(state: Vec3, p: seq<real>): (r: Result<Vec3>)
    ensures r.Ok? <==> |p| == 5
    ensures r.Err? ==> r == Err(UnpackCheck(p, 5).error)
  {
    var _ :- UnpackCheck(p, 5);
    Ok(Rates(state.x, state.y, state.z, p[0], p[1], p[2], p[3], p[4]))
  }

  lemma OriginIsEquilibrium(p: seq<real>)
    requires |p| == 5
    ensures Derivative(Zero, p) == Ok(Zero)
  {
  }
}
