/**
 * The first-generation `RK` class: an attractor object that keeps its
 * coordinate in `coord` and appends the coordinate before every step to
 * the lists `X`, `Y` and `Z`. Its base class, which defines the attractor
 * methods, is not part of this model: the method found by name is a
 * parameter, `None` when the class has no attribute of that name.
 */
module LegacyRungeKutta {
  import opened Errors
  import opened Vectors
  import opened LegacySteps
  import Core

  /** The failure of `getattr(RK, name)`. */
  function NoMethod(name: string): Error {
    AttributeError("type object 'RK' has no attribute '" + name + "'")
  }

  /** Under an attribute method that never fails, the legacy samples follow the current solver's iteration. */
  lemma RkIsCurrentIteration(scheme: Scheme, f: Vec3 -> Vec3, c: Vec3, h: real, n: nat)
    ensures Core.Iter(Reference(scheme), Lift(Total(f)), c, [], h, n) == Ok(Iterate(Advance(scheme, f, h), c, n))
  {
    IterateIsOrbit(scheme, f, c, h, n);
    OrbitIsIter(scheme, Total(f), c, h, n);
  }

  class Rk {
    const attractor: string
    var coord: Vec3
    var X: seq<real>
    var Y: seq<real>
    var Z: seq<real>

    /** `RK(initial_coord, attractor, params)`: empty sample lists. */
    constructor(initCoord: Vec3, attractor: string)
      ensures this.attractor == attractor && coord == initCoord && X == [] && Y == [] && Z == []
    {
      this.attractor := attractor;
      coord := initCoord;
      X, Y, Z := [], [], [];
    }

    /**
     * The loop of every integrator method, over `count` samples of the time
     * scale: append the coordinate, then step. `rk2` evaluates its method
     * name after the append, so an undefined name (`nameError`) fails the
     * first pass with one sample appended and `coord` where it was.
     */
    method Sample(nameError: Option<Error>, next: Vec3 -> Vec3, count: nat) returns (r: Result<()>)
      modifies this
      ensures nameError.Some? && count > 0 ==>
        r == Err(nameError.value) && coord == old(coord)
        && X == old(X) + [old(coord).x] && Y == old(Y) + [old(coord).y] && Z == old(Z) + [old(coord).z]
      ensures nameError.None? || count == 0 ==>
        && r == Ok(())
        && coord == Iterate(next, old(coord), count)
        && X == old(X) + Coords(Path(next, old(coord), count), 0)
        && Y == old(Y) + Coords(Path(next, old(coord), count), 1)
        && Z == old(Z) + Coords(Path(next, old(coord), count), 2)
    {
      ghost var c0 := coord;
      var i: nat := 0;
      while i < count
        invariant i <= count
        invariant nameError.Some? ==> i == 0
        invariant coord == Iterate(next, c0, i)
        invariant X == old(X) + Coords(Path(next, c0, i), 0)
        invariant Y == old(Y) + Coords(Path(next, c0, i), 1)
        invariant Z == old(Z) + Coords(Path(next, c0, i), 2)
      {
        SampleStep(next, c0, i);
        X, Y, Z := X + [coord.x], Y + [coord.y], Z + [coord.z];
        if nameError.Some? {
          return Err(nameError.value);
        }
        coord := next(coord);
        i := i + 1;
      }
      return Ok(());
    }

    /**
     * `euler(a, b, N)`, `rk2(a, b, N, method)`, `rk3`, `rk4` or `rk5`:
     * `h = (b - a) / N` (refused for `N == 0`), then `np.arange(a, b, h)`
     * (refused for the zero step of `a == b`), then the attribute method
     * is looked up, then the loop runs once per element of the time
     * scale, `count` of them. `afunc` is the attribute method `getattr`
     * finds, if any.
     */
    method Integrate(call: Call, a: real, b: real, n: int, count: nat, afunc: Option<Vec3 -> Vec3>) returns (r: Result<()>)
      modifies this
      ensures n == 0 ==> r == Err(ZeroDivisionError("float division by zero"))
      ensures n != 0 && a == b ==> r == Err(ZeroDivisionError("division by zero"))
      ensures n != 0 && a != b && afunc.None? ==> r == Err(NoMethod(attractor))
      ensures n == 0 || a == b || afunc.None? ==> coord == old(coord) && X == old(X) && Y == old(Y) && Z == old(Z)
      ensures n != 0 && a != b && afunc.Some? && SchemeOf(call).Err? ==>
        coord == old(coord)
        && (count == 0 ==> r == Ok(()) && X == old(X) && Y == old(Y) && Z == old(Z))
        && (count > 0 ==> r == Err(SchemeOf(call).error)
                          && X == old(X) + [old(coord).x] && Y == old(Y) + [old(coord).y] && Z == old(Z) + [old(coord).z])
      ensures n != 0 && a != b && afunc.Some? && SchemeOf(call).Ok? ==>
        var next := Advance(SchemeOf(call).value, afunc.value, StepSize(a, b, n));
        && r == Ok(())
        && coord == Iterate(next, old(coord), count)
        && X == old(X) + Coords(Path(next, old(coord), count), 0)
        && Y == old(Y) + Coords(Path(next, old(coord), count), 1)
        && Z == old(Z) + Coords(Path(next, old(coord), count), 2)
    {
      if n == 0 {
        return Err(ZeroDivisionError("float division by zero"));
      }
      var h := StepSize(a, b, n);
      if a == b {
        return Err(ZeroDivisionError("division by zero"));
      }
      if afunc.None? {
        return Err(NoMethod(attractor));
      }
      var scheme := SchemeOf(call);
      if scheme.Err? {
        r := Sample(Some(scheme.error), v => v, count);
      } else {
        r := Sample(None, Advance(scheme.value, afunc.value, h), count);
      }
    }
  }
}
