/**
 * The root `Lorenz` prototype: a class holding `sigma`, `beta`, `rho`, the
 * state `r` and the lists `X`, `Y`, `Z`, with its own derivative
 * `lorenz_func` and the integrators `Euler`, `RK2` to `RK5`. The stage
 * arithmetic is that of the other legacy integrators; the derivative is
 * `BaseAttractors.lorenz`'s as written, whose `dy` ends in `- z`.
 */
module LegacyLorenz {
  import opened Errors
  import opened Vectors
  import opened LegacySteps
  import LegacyBase
  import LorenzSystem = Lorenz

  /** The `method` argument of `RK2` when the caller gives none. */
  const DefaultRk2: Call := Rk2Call("heun")

  /** `lorenz_func` as a map on states, for the prototype's parameters. */
  function RatesAt(sigma: real, rho: real, beta: real): Vec3 -> Vec3 {
    (v: Vec3) => LegacyBase.WrittenLorenzRates(v.x, v.y, v.z, sigma, rho, beta)
  }

  /** The default `RK2` call runs Heun's method. */
  lemma DefaultIsHeun()
    ensures SchemeOf(DefaultRk2) == Ok(Rk2Scheme(Heun))
  {
  }

  class Prototype {
    const sigma: real
    const beta: real
    const rho: real
    var r: Vec3
    var X: seq<real>
    var Y: seq<real>
    var Z: seq<real>

    /** `Lorenz(sigma, beta, rho, initial_r)`: empty sample lists. */
    constructor(sigma: real, beta: real, rho: real, initialR: Vec3)
      ensures this.sigma == sigma && this.beta == beta && this.rho == rho && r == initialR
      ensures X == [] && Y == [] && Z == []
    {
      this.sigma, this.beta, this.rho := sigma, beta, rho;
      r := initialR;
      X, Y, Z := [], [], [];
    }

    /**
     * `lorenz_func()`: the rates at the current state `r`, those of
     * `BaseAttractors.lorenz` on an object with the same `sigma`, `rho` and
     * `beta`. They are what the current `lorenz` system returns for the
     * parameter vector `(sigma, rho, beta)` exactly when `r.y == r.z`.
     */
    function LorenzFunc(): (d: Vec3)
      reads this
      ensures LegacyBase.Derive("Lorenz", LegacyBase.Kind.Lorenz,
                                map["sigma" := sigma, "rho" := rho, "beta" := beta], LegacyBase.Numpy(x => x, x => x), r)
              == Ok(d)
      ensures LorenzSystem.Derivative(r, [sigma, rho, beta]) == Ok(d) <==> r.y == r.z
      ensures d == RatesAt(sigma, rho, beta)(r)
    {
      var attrs := map["sigma" := sigma, "rho" := rho, "beta" := beta];
      LegacyBase.AgreesLorenz("Lorenz", attrs, LegacyBase.Numpy(x => x, x => x), r);
      assert LegacyBase.Values(attrs, LegacyBase.ParamNames(LegacyBase.Kind.Lorenz)) == [sigma, rho, beta];
      LegacyBase.WrittenLorenzRates(r.x, r.y, r.z, sigma, rho, beta)
    }

    /**
     * The loop of every integrator, over `count` samples of the time scale:
     * append the components of `r`, then step. `RK2` evaluates its method
     * name after the append, so an undefined name (`nameError`) fails the
     * first pass with one sample appended and `r` where it was.
     */
    method Sample(nameError: Option<Error>, next: Vec3 -> Vec3, count: nat) returns (res: Result<()>)
      modifies this
      ensures nameError.Some? && count > 0 ==>
        res == Err(nameError.value) && r == old(r)
        && X == old(X) + [old(r).x] && Y == old(Y) + [old(r).y] && Z == old(Z) + [old(r).z]
      ensures nameError.None? || count == 0 ==>
        && res == Ok(())
        && r == Iterate(next, old(r), count)
        && X == old(X) + Coords(Path(next, old(r), count), 0)
        && Y == old(Y) + Coords(Path(next, old(r), count), 1)
        && Z == old(Z) + Coords(Path(next, old(r), count), 2)
    {
      ghost var r0 := r;
      var i: nat := 0;
      while i < count
        invariant i <= count
        invariant nameError.Some? ==> i == 0
        invariant r == Iterate(next, r0, i)
        invariant X == old(X) + Coords(Path(next, r0, i), 0)
        invariant Y == old(Y) + Coords(Path(next, r0, i), 1)
        invariant Z == old(Z) + Coords(Path(next, r0, i), 2)
      {
        SampleStep(next, r0, i);
        X, Y, Z := X + [r.x], Y + [r.y], Z + [r.z];
        if nameError.Some? {
          return Err(nameError.value);
        }
        r := next(r);
        i := i + 1;
      }
      return Ok(());
    }

    /**
     * `Euler(a, b, N)`, `RK2(a, b, N, method)`, `RK3`, `RK4` or `RK5`:
     * `h = (b - a) / N` (refused for `N == 0`), then `np.arange(a, b, h)`
     * (refused for the zero step of `a == b`), then one pass per element of
     * the time scale, `count` of them.
     */
    method Integrate(call: Call, a: real, b: real, n: int, count: nat) returns (res: Result<()>)
      modifies this
      ensures n == 0 ==> res == Err(ZeroDivisionError("float division by zero"))
                         && r == old(r) && X == old(X) && Y == old(Y) && Z == old(Z)
      ensures n != 0 && a == b ==> res == Err(ZeroDivisionError("division by zero"))
                                   && r == old(r) && X == old(X) && Y == old(Y) && Z == old(Z)
      ensures n != 0 && a != b && SchemeOf(call).Err? ==>
        r == old(r)
        && (count == 0 ==> res == Ok(()) && X == old(X) && Y == old(Y) && Z == old(Z))
        && (count > 0 ==> res == Err(SchemeOf(call).error)
                          && X == old(X) + [old(r).x] && Y == old(Y) + [old(r).y] && Z == old(Z) + [old(r).z])
      ensures n != 0 && a != b && SchemeOf(call).Ok? ==>
        var next := Advance(SchemeOf(call).value, RatesAt(sigma, rho, beta), StepSize(a, b, n));
        && res == Ok(())
        && r == Iterate(next, old(r), count)
        && X == old(X) + Coords(Path(next, old(r), count), 0)
        && Y == old(Y) + Coords(Path(next, old(r), count), 1)
        && Z == old(Z) + Coords(Path(next, old(r), count), 2)
    {
      if n == 0 {
        return Err(ZeroDivisionError("float division by zero"));
      }
      var h := StepSize(a, b, n);
      if a == b {
        return Err(ZeroDivisionError("division by zero"));
      }
      var scheme := SchemeOf(call);
      if scheme.Err? {
        res := Sample(Some(scheme.error), v => v, count);
      } else {
        res := Sample(None, Advance(scheme.value, RatesAt(sigma, rho, beta), h), count);
      }
    }
  }
}
