/**
 * The stage arithmetic of the first-generation integrators. `des.py`,
 * `runge_kutta.py` and `lorenz.py` all write a step the same way: every
 * stage is `k = h * afunc(point)`, already scaled by the step, and the
 * update adds a combination of those `k`s to the coordinate. Over the
 * reals each of these steps is one of the current solver steps, which the
 * lemmas below prove; Ralston's variant has no current counterpart and is
 * given its own tableau.
 */
module LegacySteps {
  import opened Errors
  import opened Vectors
  import opened TypeDefs
  import opened Tableau
  import Euler
  import Rk2
  import Rk3
  import Rk4
  import Rk5
  import StormerVerlet
  import Core

  /** A derivative with its parameters already bound: `afunc(self, coord)`. */
  type Field = Vec3 -> Result<Vec3>

  /** The field as a current system callable that ignores its parameter vector. */
  function Lift(g: Field): SystemCallable {
    (v: Vec3, p: seq<real>) => g(v)
  }

  /** The three local step functions `rk2` can pick. */
  datatype Rk2Method = Heun | ImpPoly | Ralston

  /**
   * `eval(method)`, as far as the model goes: the names of the three local
   * step functions resolve to them, and every other name is taken to be
   * undefined (a NameError). Python's `eval` would also resolve the other
   * locals of `rk2` and the builtins; those are not modelled.
   */
  function Rk2MethodOf(name: string): (r: Result<Rk2Method>)
    ensures r.Ok? <==> name == "heun" || name == "imp_poly" || name == "ralston"
    ensures r == Ok(Heun) <==> name == "heun"
    ensures r == Ok(ImpPoly) <==> name == "imp_poly"
    ensures r == Ok(Ralston) <==> name == "ralston"
    ensures r.Err? ==> r == Err(NameError("name '" + name + "' is not defined"))
  {
    if name == "heun" then Ok(Heun)
    else if name == "imp_poly" then Ok(ImpPoly)
    else if name == "ralston" then Ok(Ralston)
    else Err(NameError("name '" + name + "' is not defined"))
  }

  /** The integrator methods of the legacy classes. */
  datatype Scheme = EulerScheme | Rk2Scheme(m: Rk2Method) | Rk3Scheme | Rk4Scheme | Rk5Scheme

  /** `k1 = h*afunc(coord)`; `coord += k1`. */
  function EulerStep(g: Field, c: Vec3, h: real): Result<Vec3> {
    var d1 :- g(c);
    var k1 := Scale(h, d1);
    Ok(Add(c, k1))
  }

  /** `heun`: `k2` at `coord + k1`; `coord += (k1 + k2)/2`. */
  function HeunStep(g: Field, c: Vec3, h: real): Result<Vec3> {
    var d1 :- g(c);
    var k1 := Scale(h, d1);
    var d2 :- g(Add(c, k1));
    var k2 := Scale(h, d2);
    Ok(Add(c, Div(Add(k1, k2), 2.0)))
  }

  /** `imp_poly`: `k2` at `coord + k1/2`; `coord += k2`. */
  function ImpPolyStep(g: Field, c: Vec3, h: real): Result<Vec3> {
    var d1 :- g(c);
    var k1 := Scale(h, d1);
    var d2 :- g(Add(c, Div(k1, 2.0)));
    var k2 := Scale(h, d2);
    Ok(Add(c, k2))
  }

  /** `ralston`: `k2` at `coord + 3*k1/4`; `coord += (k1 + 2*k2)/3`. */
  function RalstonStep(g: Field, c: Vec3, h: real): Result<Vec3> {
    var d1 :- g(c);
    var k1 := Scale(h, d1);
    var d2 :- g(Add(c, Div(Scale(3.0, k1), 4.0)));
    var k2 := Scale(h, d2);
    Ok(Add(c, Div(Add(k1, Scale(2.0, k2)), 3.0)))
  }

  /** `rk3`: stages at `coord`, `coord + k1/2`, `coord - k1 + 2*k2`; `coord += (k1 + 4*k2 + k3)/6`. */
  function Rk3Step(g: Field, c: Vec3, h: real): Result<Vec3> {
    var d1 :- g(c);
    var k1 := Scale(h, d1);
    var d2 :- g(Add(c, Div(k1, 2.0)));
    var k2 := Scale(h, d2);
    var d3 :- g(Add(Sub(c, k1), Scale(2.0, k2)));
    var k3 := Scale(h, d3);
    Ok(Add(c, Div(Add(Add(k1, Scale(4.0, k2)), k3), 6.0)))
  }

  /** `rk4`: stages at `coord`, `coord + k1/2`, `coord + k2/2`, `coord + k3`; weights 1, 2, 2, 1 over 6. */
  function Rk4Step(g: Field, c: Vec3, h: real): Result<Vec3> {
    var d1 :- g(c);
    var k1 := Scale(h, d1);
    var d2 :- g(Add(c, Div(k1, 2.0)));
    var k2 := Scale(h, d2);
    var d3 :- g(Add(c, Div(k2, 2.0)));
    var k3 := Scale(h, d3);
    var d4 :- g(Add(c, k3));
    var k4 := Scale(h, d4);
    Ok(Add(c, Div(Add(Add(Add(k1, Scale(2.0, k2)), Scale(2.0, k3)), k4), 6.0)))
  }

  // The `rk5` stage points, each as the legacy code writes it on scaled stages.

  function Rk5At2(c: Vec3, k1: Vec3): Vec3 {
    Add(c, Div(k1, 4.0))
  }

  function Rk5At3(c: Vec3, k1: Vec3, k2: Vec3): Vec3 {
    Add(Add(c, Div(k2, 8.0)), Div(k1, 8.0))
  }

  function Rk5At4(c: Vec3, k2: Vec3, k3: Vec3): Vec3 {
    Add(Sub(Add(c, k3), Div(k2, 2.0)), k3)
  }

  function Rk5At5(c: Vec3, k1: Vec3, k4: Vec3): Vec3 {
    Add(Sub(c, Div(Scale(3.0, k1), 16.0)), Div(Scale(9.0, k4), 16.0))
  }

  function Rk5At6(c: Vec3, k1: Vec3, k2: Vec3, k3: Vec3, k4: Vec3, k5: Vec3): Vec3 {
    Add(Sub(Add(Add(Sub(c, Div(Scale(3.0, k1), 7.0)), Div(Scale(2.0, k2), 7.0)), Div(Scale(12.0, k3), 7.0)),
            Div(Scale(12.0, k4), 7.0)),
        Div(Scale(8.0, k5), 7.0))
  }

  /** `rk5`: the six stages above; `coord += (7*k1 + 32*k3 + 12*k4 + 32*k5 + 7*k6)/90`. */
  function Rk5Step(g: Field, c: Vec3, h: real): Result<Vec3> {
    var d1 :- g(c);
    var k1 := Scale(h, d1);
    var d2 :- g(Rk5At2(c, k1));
    var k2 := Scale(h, d2);
    var d3 :- g(Rk5At3(c, k1, k2));
    var k3 := Scale(h, d3);
    var d4 :- g(Rk5At4(c, k2, k3));
    var k4 := Scale(h, d4);
    var d5 :- g(Rk5At5(c, k1, k4));
    var k5 := Scale(h, d5);
    var d6 :- g(Rk5At6(c, k1, k2, k3, k4, k5));
    var k6 := Scale(h, d6);
    Ok(Add(c, Div(Add(Add(Add(Add(Scale(7.0, k1), Scale(32.0, k3)), Scale(12.0, k4)), Scale(32.0, k5)),
                      Scale(7.0, k6)), 90.0)))
  }

  /** One step of the chosen scheme. */
  function Step(scheme: Scheme, g: Field, c: Vec3, h: real): Result<Vec3> {
    match scheme
    case EulerScheme => EulerStep(g, c, h)
    case Rk2Scheme(Heun) => HeunStep(g, c, h)
    case Rk2Scheme(ImpPoly) => ImpPolyStep(g, c, h)
    case Rk2Scheme(Ralston) => RalstonStep(g, c, h)
    case Rk3Scheme => Rk3Step(g, c, h)
    case Rk4Scheme => Rk4Step(g, c, h)
    case Rk5Scheme => Rk5Step(g, c, h)
  }

  /** The step size `(b - a) / N` every integrator method computes first; `N == 0` is refused before. */
  function StepSize(a: real, b: real, n: int): real
    requires n != 0
  {
    (b - a) / (n as real)
  }

  /** `n` applications of a step that can fail, from `c`, or the first failure. */
  function Walk(next: Vec3 -> Result<Vec3>, c: Vec3, n: nat): Result<Vec3> {
    if n == 0 then Ok(c)
    else
      var prev :- Walk(next, c, n - 1);
      next(prev)
  }

  /** One step of the scheme as a function of the coordinate. */
  function StepOf(scheme: Scheme, g: Field, h: real): Vec3 -> Result<Vec3> {
    (v: Vec3) => Step(scheme, g, v, h)
  }

  /** `n` legacy steps from `c`, or the first failure. */
  function Orbit(scheme: Scheme, g: Field, c: Vec3, h: real, n: nat): Result<Vec3> {
    Walk(StepOf(scheme, g, h), c, n)
  }

  /** Ralston's second-order method: stage at 3/4 of the step, weights 1/3 and 2/3. */
  const RalstonTableau: Tableau := Tableau([[], [0.75]], [1.0 / 3.0, 2.0 / 3.0])

  /** The solver step each legacy scheme computes. */
  function Reference(scheme: Scheme): SolverCallable {
    match scheme
    case EulerScheme => Euler.Step
    case Rk2Scheme(Heun) => Rk2.Step
    case Rk2Scheme(ImpPoly) => StormerVerlet.Step
    case Rk2Scheme(Ralston) =>
      RalstonWellFormed();
      (f: SystemCallable, s: Vec3, p: seq<real>, dt: real) => ExplicitRk(RalstonTableau, f, s, p, dt)
    case Rk3Scheme => Rk3.Step
    case Rk4Scheme => Rk4.Step
    case Rk5Scheme => Rk5.Step
  }

  lemma RalstonWellFormed()
    ensures WellFormed(RalstonTableau) && Sum(RalstonTableau.b) == 1.0
  {
    Sum6(1.0 / 3.0, 2.0 / 3.0, 0.0, 0.0, 0.0, 0.0);
  }

  // Vector identities between the legacy stage points and the current ones.

  lemma HeunFinal(c: Vec3, h: real, d1: Vec3, d2: Vec3)
    ensures Add(c, Div(Add(Scale(h, d1), Scale(h, d2)), 2.0)) == Add(c, Div(Scale(h, Add(d1, d2)), 2.0))
  {
  }

  lemma ImpPolyPoint(c: Vec3, h: real, d1: Vec3)
    ensures Add(c, Div(Scale(h, d1), 2.0)) == Add(c, Scale(0.5 * h, d1))
  {
  }

  lemma Rk3Points(c: Vec3, h: real, d1: Vec3, d2: Vec3, d3: Vec3)
    ensures Add(Sub(c, Scale(h, d1)), Scale(2.0, Scale(h, d2))) == Add(Sub(c, Scale(h, d1)), Scale(2.0 * h, d2))
    ensures Add(c, Div(Add(Add(Scale(h, d1), Scale(4.0, Scale(h, d2))), Scale(h, d3)), 6.0))
         == Add(c, Div(Scale(h, Add(Add(d1, Scale(4.0, d2)), d3)), 6.0))
  {
  }

  lemma Rk4Final(c: Vec3, h: real, d1: Vec3, d2: Vec3, d3: Vec3, d4: Vec3)
    ensures Add(c, Div(Add(Add(Add(Scale(h, d1), Scale(2.0, Scale(h, d2))), Scale(2.0, Scale(h, d3))), Scale(h, d4)), 6.0))
         == Add(c, Div(Scale(h, Add(Add(Add(d1, Scale(2.0, d2)), Scale(2.0, d3)), d4)), 6.0))
  {
  }

  lemma Rk5Point3(c: Vec3, h: real, d1: Vec3, d2: Vec3)
    ensures Rk5At3(c, Scale(h, d1), Scale(h, d2)) == Rk5.Point3(c, h, d1, d2)
  {
  }

  lemma Rk5Point4(c: Vec3, h: real, d2: Vec3, d3: Vec3)
    ensures Rk5At4(c, Scale(h, d2), Scale(h, d3)) == Rk5.Point4(c, h, d2, d3)
  {
  }

  lemma Rk5Point5(c: Vec3, h: real, d1: Vec3, d4: Vec3)
    ensures Rk5At5(c, Scale(h, d1), Scale(h, d4)) == Rk5.Point5(c, h, d1, d4)
  {
  }

  lemma Rk5Point6(c: Vec3, h: real, d1: Vec3, d2: Vec3, d3: Vec3, d4: Vec3, d5: Vec3)
    ensures Rk5At6(c, Scale(h, d1), Scale(h, d2), Scale(h, d3), Scale(h, d4), Scale(h, d5))
         == Rk5.Point6(c, h, d1, d2, d3, d4, d5)
  {
    var a1, a2, a3, a4, a5 := Div(Scale(-3.0, d1), 7.0), Div(Scale(2.0, d2), 7.0), Div(Scale(12.0, d3), 7.0),
                              Div(Scale(12.0, d4), 7.0), Div(Scale(8.0, d5), 7.0);
    SubSevenths(c, h, d1);
    ScaledSevenths(2.0, h, d2);
    ScaledSevenths(12.0, h, d3);
    ScaledSevenths(12.0, h, d4);
    ScaledSevenths(8.0, h, d5);
    Distribute(h, a1, a2);
    Distribute(h, Add(a1, a2), a3);
    DistributeSub(h, Add(Add(a1, a2), a3), a4);
    Distribute(h, Sub(Add(Add(a1, a2), a3), a4), a5);
    Regroup(c, Scale(h, a1), Scale(h, a2), Scale(h, a3), Scale(h, a4), Scale(h, a5));
  }

  lemma SubSevenths(c: Vec3, h: real, d: Vec3)
    ensures Sub(c, Div(Scale(3.0, Scale(h, d)), 7.0)) == Add(c, Scale(h, Div(Scale(-3.0, d), 7.0)))
  {
    assert (3.0 * (h * d.x)) / 7.0 == -(h * ((-3.0 * d.x) / 7.0));
    assert (3.0 * (h * d.y)) / 7.0 == -(h * ((-3.0 * d.y) / 7.0));
    assert (3.0 * (h * d.z)) / 7.0 == -(h * ((-3.0 * d.z) / 7.0));
  }

  lemma ScaledSevenths(k: real, h: real, d: Vec3)
    ensures Div(Scale(k, Scale(h, d)), 7.0) == Scale(h, Div(Scale(k, d), 7.0))
  {
    assert (k * (h * d.x)) / 7.0 == h * ((k * d.x) / 7.0);
    assert (k * (h * d.y)) / 7.0 == h * ((k * d.y) / 7.0);
    assert (k * (h * d.z)) / 7.0 == h * ((k * d.z) / 7.0);
  }

  lemma DistributeSub(h: real, a: Vec3, b: Vec3)
    ensures Sub(Scale(h, a), Scale(h, b)) == Scale(h, Sub(a, b))
  {
  }

  lemma Regroup(c: Vec3, x1: Vec3, x2: Vec3, x3: Vec3, x4: Vec3, x5: Vec3)
    ensures Add(Sub(Add(Add(Add(c, x1), x2), x3), x4), x5) == Add(c, Add(Sub(Add(Add(x1, x2), x3), x4), x5))
  {
  }

  lemma Rk5Final(c: Vec3, h: real, d1: Vec3, d3: Vec3, d4: Vec3, d5: Vec3, d6: Vec3)
    ensures Add(c, Div(Add(Add(Add(Add(Scale(7.0, Scale(h, d1)), Scale(32.0, Scale(h, d3))), Scale(12.0, Scale(h, d4))),
                               Scale(32.0, Scale(h, d5))), Scale(7.0, Scale(h, d6))), 90.0))
         == Add(c, Div(Scale(h, Rk5.Final(d1, d3, d4, d5, d6)), 90.0))
  {
    var a1, a3, a4, a5, a6 := Scale(7.0, d1), Scale(32.0, d3), Scale(12.0, d4), Scale(32.0, d5), Scale(7.0, d6);
    Commute(7.0, h, d1);
    Commute(32.0, h, d3);
    Commute(12.0, h, d4);
    Commute(32.0, h, d5);
    Commute(7.0, h, d6);
    Distribute(h, a1, a3);
    Distribute(h, Add(a1, a3), a4);
    Distribute(h, Add(Add(a1, a3), a4), a5);
    Distribute(h, Add(Add(Add(a1, a3), a4), a5), a6);
  }

  lemma Commute(k: real, h: real, v: Vec3)
    ensures Scale(k, Scale(h, v)) == Scale(h, Scale(k, v))
  {
  }

  lemma Distribute(h: real, a: Vec3, b: Vec3)
    ensures Add(Scale(h, a), Scale(h, b)) == Scale(h, Add(a, b))
  {
  }

  /** `heun` is the current "rk2" step. */
  lemma HeunIsRk2(g: Field, c: Vec3, h: real)
    ensures HeunStep(g, c, h) == Rk2.Step(Lift(g), c, [], h)
  {
    match g(c)
    case Err(_) =>
    case Ok(d1) =>
      match g(Add(c, Scale(h, d1)))
      case Err(_) =>
      case Ok(d2) => HeunFinal(c, h, d1, d2);
  }

  /** `imp_poly` is the current "stormer_verlet" midpoint step. */
  lemma ImpPolyIsMidpoint(g: Field, c: Vec3, h: real)
    ensures ImpPolyStep(g, c, h) == StormerVerlet.Step(Lift(g), c, [], h)
  {
    match g(c)
    case Err(_) =>
    case Ok(d1) => ImpPolyPoint(c, h, d1);
  }

  /** `ralston` is the explicit Runge-Kutta method of `RalstonTableau`. */
  lemma RalstonIsExplicitRk(g: Field, c: Vec3, h: real)
    ensures WellFormed(RalstonTableau)
    ensures RalstonStep(g, c, h) == ExplicitRk(RalstonTableau, Lift(g), c, [], h)
  {
    RalstonWellFormed();
    var t, f := RalstonTableau, Lift(g);
    assert StagePoint(t, c, h, 0, []) == c;
    match g(c)
    case Err(e) =>
      StagesFail(t, f, c, [], h, 0, e);
    case Ok(d1) =>
      StagesSnoc(t, f, c, [], h, 0, [], d1);
      assert [] + [d1] == [d1];
      Combo1(0.75, [d1]);
      RalstonPoint(c, h, d1);
      match g(Add(c, Div(Scale(3.0, Scale(h, d1)), 4.0)))
      case Err(e) =>
        StagesFail(t, f, c, [], h, 1, e);
      case Ok(d2) =>
        StagesSnoc(t, f, c, [], h, 1, [d1], d2);
        assert [d1] + [d2] == [d1, d2];
        Combo2(1.0 / 3.0, 2.0 / 3.0, [d1, d2]);
        RalstonFinal(c, h, d1, d2);
  }

  lemma RalstonPoint(c: Vec3, h: real, d1: Vec3)
    ensures Add(c, Div(Scale(3.0, Scale(h, d1)), 4.0)) == Add(c, Scale(h, Scale(0.75, d1)))
  {
  }

  lemma RalstonFinal(c: Vec3, h: real, d1: Vec3, d2: Vec3)
    ensures Add(c, Div(Add(Scale(h, d1), Scale(2.0, Scale(h, d2))), 3.0))
         == Add(c, Scale(h, Add(Scale(1.0 / 3.0, d1), Scale(2.0 / 3.0, d2))))
  {
  }

  /** The legacy `rk3` is the current "rk3" step. */
  lemma Rk3IsCurrent(g: Field, c: Vec3, h: real)
    ensures Rk3Step(g, c, h) == Rk3.Step(Lift(g), c, [], h)
  {
    match g(c)
    case Err(_) =>
    case Ok(d1) =>
      match g(Add(c, Div(Scale(h, d1), 2.0)))
      case Err(_) =>
      case Ok(d2) =>
        match g(Add(Sub(c, Scale(h, d1)), Scale(2.0 * h, d2)))
        case Err(_) =>
          Rk3Points(c, h, d1, d2, d2);
        case Ok(d3) =>
          Rk3Points(c, h, d1, d2, d3);
  }

  /** The legacy `rk4` is the current "rk4" step. */
  lemma Rk4IsCurrent(g: Field, c: Vec3, h: real)
    ensures Rk4Step(g, c, h) == Rk4.Step(Lift(g), c, [], h)
  {
    match g(c)
    case Err(_) =>
    case Ok(d1) =>
      match g(Add(c, Div(Scale(h, d1), 2.0)))
      case Err(_) =>
      case Ok(d2) =>
        match g(Add(c, Div(Scale(h, d2), 2.0)))
        case Err(_) =>
        case Ok(d3) =>
          match g(Add(c, Scale(h, d3)))
          case Err(_) =>
          case Ok(d4) => Rk4Final(c, h, d1, d2, d3, d4);
  }

  /** The legacy `rk5` is the current "rk5" step, stage for stage. */
  lemma Rk5IsCurrent(g: Field, c: Vec3, h: real)
    ensures Rk5Step(g, c, h) == Rk5.Step(Lift(g), c, [], h)
  {
    match g(c)
    case Err(_) =>
    case Ok(d1) =>
      assert Rk5At2(c, Scale(h, d1)) == Rk5.Point2(c, h, d1);
      match g(Rk5.Point2(c, h, d1))
      case Err(_) =>
      case Ok(d2) =>
        Rk5Point3(c, h, d1, d2);
        match g(Rk5.Point3(c, h, d1, d2))
        case Err(_) =>
        case Ok(d3) =>
          Rk5Point4(c, h, d2, d3);
          match g(Rk5.Point4(c, h, d2, d3))
          case Err(_) =>
          case Ok(d4) =>
            Rk5Point5(c, h, d1, d4);
            match g(Rk5.Point5(c, h, d1, d4))
            case Err(_) =>
            case Ok(d5) =>
              Rk5Point6(c, h, d1, d2, d3, d4, d5);
              match g(Rk5.Point6(c, h, d1, d2, d3, d4, d5))
              case Err(_) =>
              case Ok(d6) => Rk5Final(c, h, d1, d3, d4, d5, d6);
  }

  /** Every legacy step is the step of its reference solver, with the field's parameters bound. */
  lemma StepIsReference(scheme: Scheme, g: Field, c: Vec3, h: real)
    ensures Step(scheme, g, c, h) == Reference(scheme)(Lift(g), c, [], h)
  {
    match scheme
    case EulerScheme =>
    case Rk2Scheme(Heun) => HeunIsRk2(g, c, h);
    case Rk2Scheme(ImpPoly) => ImpPolyIsMidpoint(g, c, h);
    case Rk2Scheme(Ralston) => RalstonIsExplicitRk(g, c, h);
    case Rk3Scheme => Rk3IsCurrent(g, c, h);
    case Rk4Scheme => Rk4IsCurrent(g, c, h);
    case Rk5Scheme => Rk5IsCurrent(g, c, h);
  }

  /** `n` legacy steps visit the same state as `n` steps of the current engine's loop. */
  lemma {:induction false} OrbitIsIter(scheme: Scheme, g: Field, c: Vec3, h: real, n: nat)
    ensures Orbit(scheme, g, c, h, n) == Core.Iter(Reference(scheme), Lift(g), c, [], h, n)
  {
    if n > 0 {
      OrbitIsIter(scheme, g, c, h, n - 1);
      if Orbit(scheme, g, c, h, n - 1).Ok? {
        StepIsReference(scheme, g, Orbit(scheme, g, c, h, n - 1).value, h);
      }
    }
  }

  /** Every legacy scheme leaves an equilibrium of the field where it is. */
  lemma EquilibriumKept(scheme: Scheme, g: Field, c: Vec3, h: real)
    requires g(c) == Ok(Zero)
    ensures Step(scheme, g, c, h) == Ok(c)
  {
    StepIsReference(scheme, g, c, h);
    var f := Lift(g);
    match scheme
    case EulerScheme =>
    case Rk2Scheme(Heun) => Rk2.EquilibriumKept(f, c, [], h);
    case Rk2Scheme(ImpPoly) => StormerVerlet.EquilibriumKept(f, c, [], h);
    case Rk2Scheme(Ralston) =>
      RalstonWellFormed();
      FixesEquilibria(RalstonTableau, f, c, [], h);
    case Rk3Scheme => Rk3.EquilibriumKept(f, c, [], h);
    case Rk4Scheme => Rk4.EquilibriumKept(f, c, [], h);
    case Rk5Scheme => Rk5.EquilibriumKept(f, c, [], h);
  }

  /** Under a constant field every legacy scheme moves the coordinate by exactly `h * c`. */
  lemma ConstantDerivative(scheme: Scheme, g: Field, c: Vec3, h: real, v: Vec3)
    requires forall w :: g(w) == Ok(v)
    ensures Step(scheme, g, c, h) == Ok(Add(c, Scale(h, v)))
  {
    StepIsReference(scheme, g, c, h);
    var f := Lift(g);
    assert forall w :: f(w, []) == Ok(v);
    match scheme
    case EulerScheme =>
    case Rk2Scheme(Heun) => Rk2.ConstantDerivative(f, c, [], h, v);
    case Rk2Scheme(ImpPoly) => StormerVerlet.ConstantDerivative(f, c, [], h, v);
    case Rk2Scheme(Ralston) =>
      RalstonWellFormed();
      ConstantField(RalstonTableau, f, c, [], h, v);
    case Rk3Scheme => Rk3.ConstantDerivative(f, c, [], h, v);
    case Rk4Scheme => Rk4.ConstantDerivative(f, c, [], h, v);
    case Rk5Scheme => Rk5.ConstantDerivative(f, c, [], h, v);
  }

  /** A field that fails fails every step at its first stage, with the same error. */
  lemma FirstStageFails(scheme: Scheme, g: Field, c: Vec3, h: real)
    requires g(c).Err?
    ensures Step(scheme, g, c, h) == Err(g(c).error)
  {
  }

  /** A field that never fails never fails a step. */
  lemma StepNeverFails(scheme: Scheme, g: Field, c: Vec3, h: real)
    requires forall v :: g(v).Ok?
    ensures Step(scheme, g, c, h).Ok?
  {
  }

  /** Nor an orbit of any length. */
  lemma {:induction false} OrbitNeverFails(scheme: Scheme, g: Field, c: Vec3, h: real, n: nat)
    requires forall v :: g(v).Ok?
    ensures Orbit(scheme, g, c, h, n).Ok?
  {
    if n > 0 {
      OrbitNeverFails(scheme, g, c, h, n - 1);
      StepNeverFails(scheme, g, Orbit(scheme, g, c, h, n - 1).value, h);
    }
  }

  /** The integrator a legacy caller asks for; `rk2` names its local step function as a string. */
  datatype Call = EulerCall | Rk2Call(name: string) | Rk3Call | Rk4Call | Rk5Call

  /** The scheme a call runs, or the NameError of an `rk2` method name that is not defined. */
  function SchemeOf(call: Call): (r: Result<Scheme>)
    ensures r.Err? <==> call.Rk2Call? && Rk2MethodOf(call.name).Err?
    ensures r.Err? ==> r.error == Rk2MethodOf(call.name).error
  {
    match call
    case EulerCall => Ok(EulerScheme)
    case Rk2Call(name) =>
      var m :- Rk2MethodOf(name);
      Ok(Rk2Scheme(m))
    case Rk3Call => Ok(Rk3Scheme)
    case Rk4Call => Ok(Rk4Scheme)
    case Rk5Call => Ok(Rk5Scheme)
  }

  /** A derivative that never fails, as a field. */
  function Total(f: Vec3 -> Vec3): Field {
    (v: Vec3) => Ok(f(v))
  }

  /** One step under a field that never fails; it always succeeds. */
  function Next(scheme: Scheme, f: Vec3 -> Vec3, c: Vec3, h: real): (r: Vec3)
    ensures Step(scheme, Total(f), c, h) == Ok(r)
  {
    Step(scheme, Total(f), c, h).value
  }

  /** The step of a scheme under a field that never fails, as a map on states. */
  function Advance(scheme: Scheme, f: Vec3 -> Vec3, h: real): Vec3 -> Vec3 {
    (v: Vec3) => Next(scheme, f, v, h)
  }

  /** `next` applied `n` times. */
  function Iterate(next: Vec3 -> Vec3, c: Vec3, n: nat): Vec3 {
    if n == 0 then c else next(Iterate(next, c, n - 1))
  }

  /** Under a field that never fails the legacy orbit never fails either. */
  lemma {:induction false} IterateIsOrbit(scheme: Scheme, f: Vec3 -> Vec3, c: Vec3, h: real, n: nat)
    ensures Orbit(scheme, Total(f), c, h, n) == Ok(Iterate(Advance(scheme, f, h), c, n))
  {
    if n > 0 {
      IterateIsOrbit(scheme, f, c, h, n - 1);
    }
  }

  /** The states before each of `n` steps. */
  function Path(next: Vec3 -> Vec3, c: Vec3, n: nat): (r: seq<Vec3>)
    ensures |r| == n
    ensures forall i :: 0 <= i < n ==> r[i] == Iterate(next, c, i)
  {
    seq(n, i requires 0 <= i < n => Iterate(next, c, i))
  }

  /** A path starts where it is asked to, and each state is one step on from the one before. */
  lemma PathSteps(next: Vec3 -> Vec3, c: Vec3, n: nat)
    ensures n > 0 ==> Path(next, c, n)[0] == c
    ensures forall i :: 0 <= i < n - 1 ==> Path(next, c, n)[i + 1] == next(Path(next, c, n)[i])
  {
  }

  /** Running `m` steps and then `n` more from where they stopped is running `m + n` steps. */
  lemma {:induction false} IterateAdd(next: Vec3 -> Vec3, c: Vec3, m: nat, n: nat)
    ensures Iterate(next, Iterate(next, c, m), n) == Iterate(next, c, m + n)
  {
    if n > 0 {
      IterateAdd(next, c, m, n - 1);
    }
  }

  /** A second run continues the path of the first. */
  lemma PathAdd(next: Vec3 -> Vec3, c: Vec3, m: nat, n: nat)
    ensures Path(next, c, m) + Path(next, Iterate(next, c, m), n) == Path(next, c, m + n)
  {
    var first, second := Path(next, c, m), Path(next, Iterate(next, c, m), n);
    var whole := Path(next, c, m + n);
    forall i | 0 <= i < m + n
      ensures (first + second)[i] == whole[i]
    {
      if i >= m {
        IterateAdd(next, c, m, i - m);
      }
    }
  }

  /** One coordinate of every state: `0` for x, `1` for y, `2` for z. */
  function Coords(vs: seq<Vec3>, axis: nat): (r: seq<real>)
    requires axis < 3
    ensures |r| == |vs|
    ensures forall i :: 0 <= i < |vs| ==> r[i] == (if axis == 0 then vs[i].x else if axis == 1 then vs[i].y else vs[i].z)
  {
    seq(|vs|, i requires 0 <= i < |vs| => if axis == 0 then vs[i].x else if axis == 1 then vs[i].y else vs[i].z)
  }

  lemma CoordsAppend(us: seq<Vec3>, vs: seq<Vec3>, axis: nat)
    requires axis < 3
    ensures Coords(us + vs, axis) == Coords(us, axis) + Coords(vs, axis)
  {
  }

  /** Sampling one more state appends its coordinates and moves on by one step. */
  lemma SampleStep(next: Vec3 -> Vec3, c: Vec3, n: nat)
    ensures Iterate(next, c, n + 1) == next(Iterate(next, c, n))
    ensures Coords(Path(next, c, n + 1), 0) == Coords(Path(next, c, n), 0) + [Iterate(next, c, n).x]
    ensures Coords(Path(next, c, n + 1), 1) == Coords(Path(next, c, n), 1) + [Iterate(next, c, n).y]
    ensures Coords(Path(next, c, n + 1), 2) == Coords(Path(next, c, n), 2) + [Iterate(next, c, n).z]
  {
    assert Path(next, c, n + 1) == Path(next, c, n) + [Iterate(next, c, n)];
    CoordsAppend(Path(next, c, n), [Iterate(next, c, n)], 0);
    CoordsAppend(Path(next, c, n), [Iterate(next, c, n)], 1);
    CoordsAppend(Path(next, c, n), [Iterate(next, c, n)], 2);
  }

  /** Sampling `m` states and then `n` more from where the first run stopped samples `m + n` states. */
  lemma SamplesAdd(next: Vec3 -> Vec3, c: Vec3, m: nat, n: nat, axis: nat)
    requires axis < 3
    ensures Coords(Path(next, c, m), axis) + Coords(Path(next, Iterate(next, c, m), n), axis)
         == Coords(Path(next, c, m + n), axis)
    ensures Iterate(next, Iterate(next, c, m), n) == Iterate(next, c, m + n)
  {
    PathAdd(next, c, m, n);
    CoordsAppend(Path(next, c, m), Path(next, Iterate(next, c, m), n), axis);
    IterateAdd(next, c, m, n);
  }
}
