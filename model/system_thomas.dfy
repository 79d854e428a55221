/**
 * Thomas' cyclically symmetric system, registered as "thomas". numpy's `sin`
 * is a parameter of the model; the lemmas state the laws of it they use.
 */
module Thomas {
  import opened Errors
  import opened Vectors
  import opened TypeDefs
  import opened Registration
  import SystemRegistry

  /** The arguments of the registration call. */
  const Args := SystemRegistry.RegisterArgs(
    Str("thomas"),
    Some([0.208]),
    Some(["b"]),
    "Thomas, René. \"DETERMINISTIC CHAOS SEEN IN TERMS OF FEEDBACK CIRCUITS: "
    + "ANALYSIS, SYNTHESIS, \"LABYRINTH CHAOS\".\" International Journal of "
    + "Bifurcation and Chaos 9 (1999): 1889-1905.",
    Some([0.01, 0.0, 0.0]),
    Some(PlotLims(Lim(-2.0, 5.0), Lim(-2.0, 4.0), Lim(-2.0, 4.0))))

  lemma Metadata()
    ensures SystemRegistry.Shipped(Args, 1)
  {
  }

  /** The rates `(dx, dy, dz)` at `(x, y, z)`. */
  function Rates(sin: real -> real, x: real, y: real, z: real, b: real): Vec3 {
    Vec3(sin(y) - b * x, sin(z) - b * y, sin(x) - b * z)
  }

  /** `thomas`: only `params[0]` is read, so extra parameters are ignored and none is an IndexError. */
  function Derivative(sin: real -> real, state: Vec3, p: seq<real>): (r: Result<Vec3>)
    ensures r.Ok? <==> |p| >= 1
    ensures r.Err? ==> r == Err(First(p).error)
  {
    var b :- First(p);
    Ok(Rates(sin, state.x, state.y, state.z, b))
  }

  /** The system callable for a given `sin`. */
  function Callable(sin: real -> real): (f: SystemCallable)
    ensures forall s, p :: f(s, p) == Derivative(sin, s, p)
  {
    (s, p) => Derivative(sin, s, p)
  }

  /** Cyclic symmetry: the derivative at `(y, z, x)` is `(dy, dz, dx)`. */
  lemma CyclicSymmetry(sin: real -> real, s: Vec3, p: seq<real>)
    requires |p| >= 1
    ensures Derivative(sin, Rotate(s), p) == Ok(Rotate(Derivative(sin, s, p).value))
  {
  }

  /** With `|sin| <= 1`, each rate stays within 1 of its damping term: `|dx + b * x| <= 1`. */
  lemma Bounded(sin: real -> real, s: Vec3, p: seq<real>)
    requires forall t :: -1.0 <= sin(t) <= 1.0
    requires |p| >= 1
    ensures var d := Derivative(sin, s, p).value;
      && -1.0 <= d.x + p[0] * s.x <= 1.0
      && -1.0 <= d.y + p[0] * s.y <= 1.0
      && -1.0 <= d.z + p[0] * s.z <= 1.0
  {
    assert -1.0 <= sin(s.y) <= 1.0 && -1.0 <= sin(s.z) <= 1.0 && -1.0 <= sin(s.x) <= 1.0;
  }

  /** With `sin 0 == 0` the origin is an equilibrium. */
  lemma OriginIsEquilibrium(sin: real -> real, p: seq<real>)
    requires sin(0.0) == 0.0 && |p| >= 1
    ensures Derivative(sin, Zero, p) == Ok(Zero)
  {
  }
}
