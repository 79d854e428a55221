/**
 * The first-generation `DES` class: a `BaseAttractors` whose integrator
 * methods are generators. Each step first copies the coordinate into
 * `X`, `Y`, `Z`, then advances `coord` by one legacy step of the attractor
 * method found by name, records the step index in `ts` and yields the
 * object itself.
 *
 * A generator yields the same object every time; a consumer reading it at
 * each yield sees the values a `Snapshot` records, and the model returns
 * those snapshots in order.
 */
module LegacyDes {
  import opened Errors
  import opened Vectors
  import opened LegacySteps
  import opened LegacyBase
  import Core

  /** What a consumer reads from the yielded object. */
  datatype Snapshot = Snapshot(x: real, y: real, z: real, ts: nat, coord: Vec3)

  /** `afunc(self, coord)` for the attractor method `k` on a `DES` object. */
  function AttractorField(k: Kind, attrs: map<string, real>, np: Numpy): Field {
    (v: Vec3) => Derive("DES", k, attrs, np, v)
  }

  /** The failure of `getattr(DES, name)`. */
  function NoMethod(name: string): Error {
    AttributeError("type object 'DES' has no attribute '" + name + "'")
  }

  /** The snapshot yielded after step `i` of a walk that has reached step `i + 1`. */
  function Trace(next: Vec3 -> Result<Vec3>, c: Vec3, i: nat): (s: Snapshot)
    requires Walk(next, c, i + 1).Ok?
    ensures Walk(next, c, i) == Ok(Vec3(s.x, s.y, s.z))
    ensures Walk(next, c, i + 1) == Ok(s.coord) && s.ts == i
  {
    var before := Walk(next, c, i).value;
    Snapshot(before.x, before.y, before.z, i, Walk(next, c, i + 1).value)
  }

  /** The snapshots yielded by the first `m` steps of a walk that has reached step `m`. */
  function Traces(next: Vec3 -> Result<Vec3>, c: Vec3, m: nat): (r: seq<Snapshot>)
    requires Walk(next, c, m).Ok?
    ensures |r| == m
  {
    if m == 0 then [] else Traces(next, c, m - 1) + [Trace(next, c, m - 1)]
  }

  /** Snapshot `j` of the run is the one of step `j`: its time index is `j` and it holds the coordinates before and after that step. */
  lemma {:induction false} TracesAt(next: Vec3 -> Result<Vec3>, c: Vec3, m: nat, j: nat)
    requires Walk(next, c, m).Ok? && j < m
    ensures Walk(next, c, j + 1).Ok? && Traces(next, c, m)[j] == Trace(next, c, j)
    ensures Traces(next, c, m)[j].ts == j
  {
    if j < m - 1 {
      TracesAt(next, c, m - 1, j);
    }
  }

  /**
   * An attribute-reading method fails at every point or at none, so a
   * `DES` run either fails at the first stage of its first step, with that
   * method's error, or never fails.
   */
  lemma FieldFailsAtOnce(scheme: Scheme, k: Kind, attrs: map<string, real>, np: Numpy, c: Vec3, h: real)
    ensures var g := AttractorField(k, attrs, np);
      && (Derive("DES", k, attrs, np, c).Err? ==> Orbit(scheme, g, c, h, 1) == Err(Derive("DES", k, attrs, np, c).error))
      && (Derive("DES", k, attrs, np, c).Ok? ==> forall n: nat :: Orbit(scheme, g, c, h, n).Ok?)
  {
    var g := AttractorField(k, attrs, np);
    if Derive("DES", k, attrs, np, c).Err? {
      FirstStageFails(scheme, g, c, h);
      assert Walk(StepOf(scheme, g, h), c, 1) == StepOf(scheme, g, h)(c);
    } else {
      forall v ensures g(v).Ok? {
        if g(v).Err? {
          FailureIgnoresPoint("DES", k, attrs, np, v, c);
        }
      }
      forall n: nat ensures Orbit(scheme, g, c, h, n).Ok? {
        OrbitNeverFails(scheme, g, c, h, n);
      }
    }
  }

  class Des {
    const attractor: string
    const attrs: map<string, real>
    var coord: Vec3
    var X: real
    var Y: real
    var Z: real
    var ts: Option<nat>
    var N: Option<int>

    /** `DES(attractor, init_coord, params)` once `_func_params` has set `attrs`. */
    constructor(attractor: string, attrs: map<string, real>, initCoord: Vec3)
      ensures this.attractor == attractor && this.attrs == attrs && coord == initCoord
      ensures X == 0.0 && Y == 0.0 && Z == 0.0 && ts == None && N == None
    {
      this.attractor := attractor;
      this.attrs := attrs;
      coord := initCoord;
      X, Y, Z := 0.0, 0.0, 0.0;
      ts := None;
      N := None;
    }

    /**
     * `len(des)`: `N` as the last run set it. Before any run `N` is `None`,
     * which `len` refuses; a negative `N` is refused too.
     */
    function Len(): (r: Result<nat>)
      reads this
      ensures r.Ok? <==> N.Some? && N.value >= 0
      ensures r.Ok? ==> r.value == N.value
    {
      if N.None? then Err(TypeError("'NoneType' object cannot be interpreted as an integer"))
      else if N.value < 0 then Err(ValueError("__len__() should return >= 0"))
      else Ok(N.value as nat)
    }

    /**
     * The loop of every integrator method, for `n` steps of `next`: each
     * step sets `X`, `Y`, `Z` from `coord`, then `rk2` evaluates its method
     * name (`nameError`, when the name is not defined), then the step runs;
     * a failure ends the run with `coord` where it was. Every snapshot is
     * that of the walk.
     */
    method Run(nameError: Option<Error>, next: Vec3 -> Result<Vec3>, n: nat) returns (snapshots: seq<Snapshot>, r: Result<()>)
      modifies this
      ensures N == old(N)
      ensures |snapshots| <= n
      ensures n == 0 ==> r == Ok(()) && snapshots == [] && coord == old(coord)
                         && X == old(X) && Y == old(Y) && Z == old(Z) && ts == old(ts)
      ensures n > 0 && nameError.Some? ==>
        r == Err(nameError.value) && snapshots == [] && coord == old(coord)
        && Vec3(X, Y, Z) == old(coord) && ts == old(ts)
      ensures n > 0 && nameError.None? ==>
        var m := |snapshots|;
        && Walk(next, old(coord), m) == Ok(coord)
        && snapshots == Traces(next, old(coord), m)
        && (r.Ok? <==> m == n)
        && (r.Ok? ==> r == Ok(()))
        && (r.Err? ==> Walk(next, old(coord), m + 1) == Err(r.error) && Vec3(X, Y, Z) == coord)
        && (m == 0 ==> ts == old(ts))
        && (m > 0 ==> ts == Some(m - 1))
        && (r.Ok? ==> Walk(next, old(coord), m - 1) == Ok(Vec3(X, Y, Z)))
    {
      ghost var c0 := coord;
      snapshots := [];
      var i := 0;
      while i < n
        invariant 0 <= i <= n && |snapshots| == i
        invariant nameError.None? ==> Walk(next, c0, i) == Ok(coord) && snapshots == Traces(next, c0, i)
        invariant i == 0 ==> coord == c0 && X == old(X) && Y == old(Y) && Z == old(Z) && ts == old(ts)
        invariant i > 0 ==> nameError.None? && Walk(next, c0, i - 1) == Ok(Vec3(X, Y, Z)) && ts == Some(i - 1)
        invariant N == old(N)
      {
        X, Y, Z := coord.x, coord.y, coord.z;
        if nameError.Some? {
          return snapshots, Err(nameError.value);
        }
        var stepped := next(coord);
        assert Walk(next, c0, i + 1) == stepped;
        if stepped.Err? {
          return snapshots, Err(stepped.error);
        }
        coord := stepped.value;
        ts := Some(i);
        snapshots := snapshots + [Snapshot(X, Y, Z, i, coord)];
        i := i + 1;
      }
      return snapshots, Ok(());
    }

    /**
     * `euler(a, b, N)`, `rk2(a, b, N, method)`, `rk3`, `rk4` or `rk5`, run
     * until the generator is exhausted or raises. `_unwrap` sets `N`, then
     * divides by it and looks the attractor method up; then `range(N)` runs
     * no step for a negative `N`. Since the attractor method fails at every
     * point or at none, the run fails before its first step or never, and
     * its snapshots are those of the legacy orbit, which is the current
     * solver's iteration (`RunIsCurrentIteration`).
     */
    method Generate(call: Call, a: real, b: real, n: int, np: Numpy) returns (snapshots: seq<Snapshot>, r: Result<()>)
      modifies this
      ensures N == Some(n)
      ensures n == 0 ==> r == Err(ZeroDivisionError("float division by zero"))
      ensures n != 0 && KindOf(attractor).None? ==> r == Err(NoMethod(attractor))
      ensures n <= 0 || KindOf(attractor).None? ==>
        snapshots == [] && coord == old(coord) && X == old(X) && Y == old(Y) && Z == old(Z) && ts == old(ts)
      ensures n < 0 && KindOf(attractor).Some? ==> r == Ok(())
      ensures n > 0 && KindOf(attractor).Some? && SchemeOf(call).Err? ==>
        r == Err(SchemeOf(call).error) && snapshots == [] && coord == old(coord)
        && Vec3(X, Y, Z) == old(coord) && ts == old(ts)
      ensures n > 0 && KindOf(attractor).Some? && SchemeOf(call).Ok? ==>
        var k := KindOf(attractor).value;
        Derive("DES", k, attrs, np, old(coord)).Err? ==>
          r == Err(Derive("DES", k, attrs, np, old(coord)).error) && snapshots == []
          && coord == old(coord) && Vec3(X, Y, Z) == old(coord) && ts == old(ts)
      ensures n > 0 && KindOf(attractor).Some? && SchemeOf(call).Ok? ==>
        var k := KindOf(attractor).value;
        var next := StepOf(SchemeOf(call).value, AttractorField(k, attrs, np), StepSize(a, b, n));
        Derive("DES", k, attrs, np, old(coord)).Ok? ==>
          && r == Ok(())
          && |snapshots| == n
          && Walk(next, old(coord), n) == Ok(coord)
          && snapshots == Traces(next, old(coord), n)
          && Walk(next, old(coord), n - 1) == Ok(Vec3(X, Y, Z))
          && ts == Some(n - 1)
    {
      N := Some(n);
      if n == 0 {
        return [], Err(ZeroDivisionError("float division by zero"));
      }
      var h := StepSize(a, b, n);
      var kind := KindOf(attractor);
      if kind.None? {
        return [], Err(NoMethod(attractor));
      }
      if n < 0 {
        return [], Ok(());
      }
      var scheme := SchemeOf(call);
      if scheme.Err? {
        snapshots, r := Run(Some(scheme.error), v => Ok(v), n);
        return;
      }
      snapshots, r := Stepped(scheme.value, kind.value, h, n, np);
    }

    /** The run of a generator whose scheme and attractor method were both found. */
    method Stepped(scheme: Scheme, k: Kind, h: real, n: nat, np: Numpy) returns (snapshots: seq<Snapshot>, r: Result<()>)
      requires n > 0
      modifies this
      ensures N == old(N)
      ensures Derive("DES", k, attrs, np, old(coord)).Err? ==>
        r == Err(Derive("DES", k, attrs, np, old(coord)).error) && snapshots == []
        && coord == old(coord) && Vec3(X, Y, Z) == old(coord) && ts == old(ts)
      ensures
        var next := StepOf(scheme, AttractorField(k, attrs, np), h);
        Derive("DES", k, attrs, np, old(coord)).Ok? ==>
          && r == Ok(())
          && |snapshots| == n
          && Walk(next, old(coord), n) == Ok(coord)
          && snapshots == Traces(next, old(coord), n)
          && Walk(next, old(coord), n - 1) == Ok(Vec3(X, Y, Z))
          && ts == Some(n - 1)
    {
      ghost var c0 := coord;
      var next := StepOf(scheme, AttractorField(k, attrs, np), h);
      FieldFailsAtOnce(scheme, k, attrs, np, c0, h);
      snapshots, r := Run(None, next, n);
      if Derive("DES", k, attrs, np, c0).Err? {
        if |snapshots| > 0 {
          TracesAt(next, c0, |snapshots|, 0);
        }
        assert Walk(next, c0, 1).Err?;
      } else {
        assert Orbit(scheme, AttractorField(k, attrs, np), c0, h, |snapshots| + 1).Ok?;
        assert r.Ok?;
        assert r == Ok(());
      }
    }
  }

  /** `DES(attractor, init_coord, params)`: the object, or the error `_func_params` raised. */
  method NewDes(attractor: string, initCoord: Vec3, table: map<string, seq<string>>, params: map<string, real>)
    returns (r: Result<Des>)
    ensures r.Ok? <==> attractor in table && AllPresent(table[attractor], params)
    ensures r.Err? ==> r.error == ParamError(attractor)
    ensures r.Ok? ==> fresh(r.value) && r.value.attractor == attractor && r.value.coord == initCoord
                      && r.value.attrs == Assign(map[], table[attractor], params)
                      && r.value.N == None && r.value.ts == None
  {
    var base :- NewBase(attractor, table, params);
    var des := new Des(attractor, base.attrs, initCoord);
    return Ok(des);
  }

  /**
   * The coordinate after `n` steps of a `DES` run is the current solver's
   * iteration of the same step on the attractor method.
   */
  lemma RunIsCurrentIteration(scheme: Scheme, k: Kind, attrs: map<string, real>, np: Numpy, c: Vec3, h: real, n: nat)
    requires Derive("DES", k, attrs, np, c).Ok?
    ensures Core.Iter(Reference(scheme), Lift(AttractorField(k, attrs, np)), c, [], h, n).Ok?
    ensures Orbit(scheme, AttractorField(k, attrs, np), c, h, n)
         == Core.Iter(Reference(scheme), Lift(AttractorField(k, attrs, np)), c, [], h, n)
  {
    FieldFailsAtOnce(scheme, k, attrs, np, c, h);
    OrbitIsIter(scheme, AttractorField(k, attrs, np), c, h, n);
  }
}
