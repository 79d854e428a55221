/** The callable shapes shared by systems, solvers and the engine. */
module TypeDefs {
  import opened Errors
  import opened Vectors

  /** A derivative function `(state, params) -> [dx, dy, dz]`; it may raise. */
  type SystemCallable = (Vec3, seq<real>) -> Result<Vec3>

  /** A single-step update `(system_func, state, params, dt) -> next state`. */
  type SolverCallable = (SystemCallable, Vec3, seq<real>, real) -> Result<Vec3>

  /** One axis' plot range `(lo, hi)`. */
  datatype Lim = Lim(lo: real, hi: real)

  /** The `{"xlim": .., "ylim": .., "zlim": ..}` plot limits of a system. */
  datatype PlotLims = PlotLims(xlim: Lim, ylim: Lim, zlim: Lim) {
    predicate Ordered() {
      xlim.lo < xlim.hi && ylim.lo < ylim.hi && zlim.lo < zlim.hi
    }
  }
}
