/**
 * The Yu-Wang four-wing system, registered as "yu_wang". numpy's `exp` is a
 * parameter of the model; the lemmas state the law of it they use.
 */
module YuWang {
  import opened Errors
  import opened Vectors
  import opened TypeDefs
  import opened Registration
  import SystemRegistry

  /** The arguments of the registration call. */
  const Args := SystemRegistry.RegisterArgs(
    Str("yu_wang"),
    Some([10.0, 40.0, 2.0, 2.5]),
    Some(["a", "b", "c", "d"]),
    "F. Yu, C. H. Wang, and J. W. Yin, \"A 4-D chaos with fully qualified four-wing type,\" "
    + "Acta Physica Sinica, vol. 61, (2012).",
    Some([0.1, 0.0, 15.0]),
    Some(PlotLims(Lim(-3.0, 3.0), Lim(-5.0, 5.0), Lim(0.0, 45.0))))

  lemma Metadata()
    ensures SystemRegistry.Shipped(Args, 4)
  {
  }

  /** The rates `(dx, dy, dz)` at `(x, y, z)`. */
  function Rates(exp: real -> real, x: real, y: real, z: real, a: real, b: real, c: real, d: real): Vec3 {
    Vec3(a * (y - x), b * x - c * x * z, exp(x * y) - d * z)
  }

  /** `yu_wang`: `a, b, c, d = params` demands exactly four parameters. */
  function Derivative(exp: real -> real, state: Vec3, p: seq<real>): (r: Result<Vec3>)
    ensures r.Ok? <==> |p| == 4
    ensures r.Err? ==> r == Err(UnpackCheck(p, 4).error)
  {
    var _ :- UnpackCheck(p, 4);
    Ok(Rates(exp, state.x, state.y, state.z, p[0], p[1], p[2], p[3]))
  }

  /** The system callable for a given `exp`. */
  function Callable(exp: real -> real): (f: SystemCallable)
    ensures forall s, p :: f(s, p) == Derivative(exp, s, p)
  {
    (s, p) => Derivative(exp, s, p)
  }

  /** With `exp > 0`, `dz + d * z` is positive everywhere. */
  lemma GrowthPositive(exp: real -> real, s: Vec3, p: seq<real>)
    requires forall t :: exp(t) > 0.0
    requires |p| == 4
    ensures Derivative(exp, s, p).value.z + p[3] * s.z > 0.0
  {
    assert exp(s.x * s.y) > 0.0;
  }

  /** The rates at `(-x, -y, z)` are `(-dx, -dy, dz)`. */
  lemma RatesFlip(exp: real -> real, x: real, y: real, z: real, a: real, b: real, c: real, d: real)
    ensures Rates(exp, -x, -y, z, a, b, c, d) == FlipXY(Rates(exp, x, y, z, a, b, c, d))
  {
    assert -x * -y == x * y;
    var u, v := Rates(exp, x, y, z, a, b, c, d), Rates(exp, -x, -y, z, a, b, c, d);
    assert v.x == -u.x;
    assert v.y == -u.y;
    assert v.z == u.z;
  }

  /** Reflecting the state about the z-axis negates `dx` and `dy` and keeps `dz`. */
  lemma FlipSymmetry(exp: real -> real, s: Vec3, p: seq<real>)
    requires |p| == 4
    ensures Derivative(exp, FlipXY(s), p) == Ok(FlipXY(Derivative(exp, s, p).value))
  {
    RatesFlip(exp, s.x, s.y, s.z, p[0], p[1], p[2], p[3]);
  }
}
