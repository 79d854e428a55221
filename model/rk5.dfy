/**
 * The six-stage step registered as "rk5", with its coefficients exactly as
 * the solver writes them, and a comparison with Butcher's fifth-order method.
 */
module Rk5 {
  import opened Errors
  import opened Vectors
  import opened TypeDefs
  import opened Tableau

  const Name: string := "rk5"

  /**
   * Stages at `s`, `s + dt*k1/4`, `s + dt*(k1 + k2)/8`, `s + dt*(k3 - k2/2 + k3)`,
   * `s + dt*(-3*k1/16 + 9*k4/16)` and
   * `s + dt*(-3*k1/7 + 2*k2/7 + 12*k3/7 - 12*k4/7 + 8*k5/7)`;
   * result `s + dt*(7*k1 + 32*k3 + 12*k4 + 32*k5 + 7*k6)/90` (no `k2` term).
   */
  function Step(f: SystemCallable, s: Vec3, p: seq<real>, dt: real): (r: Result<Vec3>)
    ensures f(s, p).Err? ==> r == Err(f(s, p).error)
  {
    var k1 :- f(s, p);
    var k2 :- f(Point2(s, dt, k1), p);
    var k3 :- f(Point3(s, dt, k1, k2), p);
    var k4 :- f(Point4(s, dt, k2, k3), p);
    var k5 :- f(Point5(s, dt, k1, k4), p);
    var k6 :- f(Point6(s, dt, k1, k2, k3, k4, k5), p);
    Ok(Add(s, Div(Scale(dt, Final(k1, k3, k4, k5, k6)), 90.0)))
  }

  // The stage points and the final combination, each as the solver writes it.

  function Point2(s: Vec3, dt: real, k1: Vec3): Vec3 {
    Add(s, Div(Scale(dt, k1), 4.0))
  }

  function Point3(s: Vec3, dt: real, k1: Vec3, k2: Vec3): Vec3 {
    Add(s, Div(Scale(dt, Add(k1, k2)), 8.0))
  }

  function Point4(s: Vec3, dt: real, k2: Vec3, k3: Vec3): Vec3 {
    Add(s, Scale(dt, Add(Sub(k3, Div(k2, 2.0)), k3)))
  }

  function Point5(s: Vec3, dt: real, k1: Vec3, k4: Vec3): Vec3 {
    Add(s, Scale(dt, Add(Div(Scale(-3.0, k1), 16.0), Div(Scale(9.0, k4), 16.0))))
  }

  function Point6(s: Vec3, dt: real, k1: Vec3, k2: Vec3, k3: Vec3, k4: Vec3, k5: Vec3): Vec3 {
    Add(s, Scale(dt, Add(Sub(Add(Add(Div(Scale(-3.0, k1), 7.0), Div(Scale(2.0, k2), 7.0)),
                                 Div(Scale(12.0, k3), 7.0)),
                             Div(Scale(12.0, k4), 7.0)),
                         Div(Scale(8.0, k5), 7.0))))
  }

  function Final(k1: Vec3, k3: Vec3, k4: Vec3, k5: Vec3, k6: Vec3): Vec3 {
    Add(Add(Add(Add(Scale(7.0, k1), Scale(32.0, k3)), Scale(12.0, k4)), Scale(32.0, k5)), Scale(7.0, k6))
  }

  /** The coefficients above as a tableau; `k4`'s row is `0, -1/2, 2`. */
  const Butcher: Tableau := Tableau(
    [[],
     [0.25],
     [0.125, 0.125],
     [0.0, -0.5, 2.0],
     [-3.0 / 16.0, 0.0, 0.0, 9.0 / 16.0],
     [-3.0 / 7.0, 2.0 / 7.0, 12.0 / 7.0, -12.0 / 7.0, 8.0 / 7.0]],
    [7.0 / 90.0, 0.0, 32.0 / 90.0, 12.0 / 90.0, 32.0 / 90.0, 7.0 / 90.0])

  /** The final weights are 90/90; the `k2` weight is zero. */
  lemma WeightsSumToOne()
    ensures WellFormed(Butcher) && Sum(Butcher.b) == 1.0 && Butcher.b[1] == 0.0
  {
    Sum6(7.0 / 90.0, 0.0, 32.0 / 90.0, 12.0 / 90.0, 32.0 / 90.0, 7.0 / 90.0);
  }

  lemma AtPoint2(s: Vec3, dt: real, k1: Vec3)
    ensures WellFormed(Butcher)
    ensures StagePoint(Butcher, s, dt, 1, [k1]) == Point2(s, dt, k1)
  {
    Combo1(0.25, [k1]);
    ScaleDiv(dt, k1, 4.0);
    assert Combo(Butcher.a[1], [k1]) == Div(k1, 4.0);
  }

  lemma AtPoint3(s: Vec3, dt: real, k1: Vec3, k2: Vec3)
    ensures WellFormed(Butcher)
    ensures StagePoint(Butcher, s, dt, 2, [k1, k2]) == Point3(s, dt, k1, k2)
  {
    Combo2(0.125, 0.125, [k1, k2]);
    ScaleDiv(dt, Add(k1, k2), 8.0);
    assert Combo(Butcher.a[2], [k1, k2]) == Div(Add(k1, k2), 8.0);
  }

  lemma AtPoint4(s: Vec3, dt: real, k1: Vec3, k2: Vec3, k3: Vec3)
    ensures WellFormed(Butcher)
    ensures StagePoint(Butcher, s, dt, 3, [k1, k2, k3]) == Point4(s, dt, k2, k3)
  {
    Combo3(0.0, -0.5, 2.0, [k1, k2, k3]);
    assert Combo(Butcher.a[3], [k1, k2, k3]) == Add(Sub(k3, Div(k2, 2.0)), k3);
  }

  lemma AtPoint5(s: Vec3, dt: real, k1: Vec3, k2: Vec3, k3: Vec3, k4: Vec3)
    ensures WellFormed(Butcher)
    ensures StagePoint(Butcher, s, dt, 4, [k1, k2, k3, k4]) == Point5(s, dt, k1, k4)
  {
    Combo4(-3.0 / 16.0, 0.0, 0.0, 9.0 / 16.0, [k1, k2, k3, k4]);
    assert Combo(Butcher.a[4], [k1, k2, k3, k4])
           == Add(Div(Scale(-3.0, k1), 16.0), Div(Scale(9.0, k4), 16.0));
  }

  lemma AtPoint6(s: Vec3, dt: real, k1: Vec3, k2: Vec3, k3: Vec3, k4: Vec3, k5: Vec3)
    ensures WellFormed(Butcher)
    ensures StagePoint(Butcher, s, dt, 5, [k1, k2, k3, k4, k5]) == Point6(s, dt, k1, k2, k3, k4, k5)
  {
    Combo5(-3.0 / 7.0, 2.0 / 7.0, 12.0 / 7.0, -12.0 / 7.0, 8.0 / 7.0, [k1, k2, k3, k4, k5]);
    assert Combo(Butcher.a[5], [k1, k2, k3, k4, k5])
           == Add(Sub(Add(Add(Div(Scale(-3.0, k1), 7.0), Div(Scale(2.0, k2), 7.0)),
                          Div(Scale(12.0, k3), 7.0)),
                      Div(Scale(12.0, k4), 7.0)),
                  Div(Scale(8.0, k5), 7.0));
  }

  lemma Combination(s: Vec3, dt: real, k1: Vec3, k2: Vec3, k3: Vec3, k4: Vec3, k5: Vec3, k6: Vec3)
    ensures Add(s, Scale(dt, Combo(Butcher.b, [k1, k2, k3, k4, k5, k6])))
            == Add(s, Div(Scale(dt, Final(k1, k3, k4, k5, k6)), 90.0))
  {
    Combo6(7.0 / 90.0, 0.0, 32.0 / 90.0, 12.0 / 90.0, 32.0 / 90.0, 7.0 / 90.0, [k1, k2, k3, k4, k5, k6]);
    ScaleDiv(dt, Final(k1, k3, k4, k5, k6), 90.0);
    assert Combo(Butcher.b, [k1, k2, k3, k4, k5, k6]) == Div(Final(k1, k3, k4, k5, k6), 90.0);
  }

  /** The step is the explicit Runge-Kutta method of `Butcher`. */
  lemma IsExplicitRk(f: SystemCallable, s: Vec3, p: seq<real>, dt: real)
    ensures WellFormed(Butcher)
    ensures Step(f, s, p, dt) == ExplicitRk(Butcher, f, s, p, dt)
  {
    var t := Butcher;
    assert StagePoint(t, s, dt, 0, []) == s;
    match f(s, p)
    case Err(e) =>
      StagesFail(t, f, s, p, dt, 0, e);
    case Ok(k1) =>
      StagesSnoc(t, f, s, p, dt, 0, [], k1);
      assert [] + [k1] == [k1];
      AtPoint2(s, dt, k1);
      match f(Point2(s, dt, k1), p)
      case Err(e) =>
        StagesFail(t, f, s, p, dt, 1, e);
      case Ok(k2) =>
        StagesSnoc(t, f, s, p, dt, 1, [k1], k2);
        assert [k1] + [k2] == [k1, k2];
        AtPoint3(s, dt, k1, k2);
        match f(Point3(s, dt, k1, k2), p)
        case Err(e) =>
          StagesFail(t, f, s, p, dt, 2, e);
        case Ok(k3) =>
          StagesSnoc(t, f, s, p, dt, 2, [k1, k2], k3);
          assert [k1, k2] + [k3] == [k1, k2, k3];
          AtPoint4(s, dt, k1, k2, k3);
          match f(Point4(s, dt, k2, k3), p)
          case Err(e) =>
            StagesFail(t, f, s, p, dt, 3, e);
          case Ok(k4) =>
            StagesSnoc(t, f, s, p, dt, 3, [k1, k2, k3], k4);
            assert [k1, k2, k3] + [k4] == [k1, k2, k3, k4];
            AtPoint5(s, dt, k1, k2, k3, k4);
            match f(Point5(s, dt, k1, k4), p)
            case Err(e) =>
              StagesFail(t, f, s, p, dt, 4, e);
            case Ok(k5) =>
              StagesSnoc(t, f, s, p, dt, 4, [k1, k2, k3, k4], k5);
              assert [k1, k2, k3, k4] + [k5] == [k1, k2, k3, k4, k5];
              AtPoint6(s, dt, k1, k2, k3, k4, k5);
              match f(Point6(s, dt, k1, k2, k3, k4, k5), p)
              case Err(e) =>
                StagesFail(t, f, s, p, dt, 5, e);
              case Ok(k6) =>
                StagesSnoc(t, f, s, p, dt, 5, [k1, k2, k3, k4, k5], k6);
                assert [k1, k2, k3, k4, k5] + [k6] == [k1, k2, k3, k4, k5, k6];
                Combination(s, dt, k1, k2, k3, k4, k5, k6);
  }

  /** An equilibrium of `f` is a fixed point of the step: all six stages are zero. */
  lemma EquilibriumKept(f: SystemCallable, s: Vec3, p: seq<real>, dt: real)
    requires f(s, p) == Ok(Zero)
    ensures Step(f, s, p, dt) == Ok(s)
  {
    IsExplicitRk(f, s, p, dt);
    FixesEquilibria(Butcher, f, s, p, dt);
  }

  /** A derivative that is `c` everywhere moves the state by `dt * c`. */
  lemma ConstantDerivative(f: SystemCallable, s: Vec3, p: seq<real>, dt: real, c: Vec3)
    requires forall v :: f(v, p) == Ok(c)
    ensures Step(f, s, p, dt) == Ok(Add(s, Scale(dt, c)))
  {
    IsExplicitRk(f, s, p, dt);
    WeightsSumToOne();
    ConstantField(Butcher, f, s, p, dt, c);
  }

  /**
   * Butcher's fifth-order six-stage method, for comparison: it differs from
   * `Butcher` above only in the rows of `k4` (`0, -1/2, 1`) and `k5` (`3/16, 0, 0, 9/16`).
   */
  const ReferenceRk5: Tableau := Tableau(
    [[],
     [0.25],
     [0.125, 0.125],
     [0.0, -0.5, 1.0],
     [3.0 / 16.0, 0.0, 0.0, 9.0 / 16.0],
     [-3.0 / 7.0, 2.0 / 7.0, 12.0 / 7.0, -12.0 / 7.0, 8.0 / 7.0]],
    [7.0 / 90.0, 0.0, 32.0 / 90.0, 12.0 / 90.0, 32.0 / 90.0, 7.0 / 90.0])

  /** The field `(1, x, y)`, whose flow from the origin is `(t, t^2/2, t^3/6)`. */
  function Ramp(v: Vec3, p: seq<real>): Result<Vec3> {
    Ok(Vec3(1.0, v.x, v.y))
  }

  /** The step is determined by the six derivatives it evaluates. */
  lemma StepOfStages(f: SystemCallable, s: Vec3, p: seq<real>, dt: real,
                     k1: Vec3, k2: Vec3, k3: Vec3, k4: Vec3, k5: Vec3, k6: Vec3)
    requires f(s, p) == Ok(k1) && f(Point2(s, dt, k1), p) == Ok(k2)
    requires f(Point3(s, dt, k1, k2), p) == Ok(k3) && f(Point4(s, dt, k2, k3), p) == Ok(k4)
    requires f(Point5(s, dt, k1, k4), p) == Ok(k5) && f(Point6(s, dt, k1, k2, k3, k4, k5), p) == Ok(k6)
    ensures Step(f, s, p, dt) == Ok(Add(s, Div(Scale(dt, Final(k1, k3, k4, k5, k6)), 90.0)))
  {
  }

  // The written step on `Ramp` from the origin with `dt = 1`, one stage at a time.

  lemma RampK2(s: Vec3, k1: Vec3)
    requires s == Vec3(0.0, 0.0, 0.0) && k1 == Vec3(1.0, 0.0, 0.0)
    ensures Ramp(Point2(s, 1.0, k1), []) == Ok(Vec3(1.0, 0.25, 0.0))
  {
  }

  lemma RampK3(s: Vec3, k1: Vec3, k2: Vec3)
    requires s == Vec3(0.0, 0.0, 0.0) && k1 == Vec3(1.0, 0.0, 0.0) && k2 == Vec3(1.0, 0.25, 0.0)
    ensures Ramp(Point3(s, 1.0, k1, k2), []) == Ok(Vec3(1.0, 0.25, 1.0 / 32.0))
  {
  }

  lemma RampK4(s: Vec3, k2: Vec3, k3: Vec3)
    requires s == Vec3(0.0, 0.0, 0.0) && k2 == Vec3(1.0, 0.25, 0.0) && k3 == Vec3(1.0, 0.25, 1.0 / 32.0)
    ensures Ramp(Point4(s, 1.0, k2, k3), []) == Ok(Vec3(1.0, 1.5, 3.0 / 8.0))
  {
  }

  lemma RampK5First(k1: Vec3)
    requires k1 == Vec3(1.0, 0.0, 0.0)
    ensures Div(Scale(-3.0, k1), 16.0) == Vec3(-3.0 / 16.0, 0.0, 0.0)
  {
    assert Scale(-3.0, k1) == Vec3(-3.0, 0.0, 0.0);
  }

  lemma RampK5Second(k4: Vec3)
    requires k4 == Vec3(1.0, 1.5, 3.0 / 8.0)
    ensures Div(Scale(9.0, k4), 16.0) == Vec3(9.0 / 16.0, 27.0 / 32.0, 27.0 / 128.0)
  {
  }

  lemma RampK5(s: Vec3, k1: Vec3, k4: Vec3)
    requires s == Vec3(0.0, 0.0, 0.0) && k1 == Vec3(1.0, 0.0, 0.0) && k4 == Vec3(1.0, 1.5, 3.0 / 8.0)
    ensures Ramp(Point5(s, 1.0, k1, k4), []) == Ok(Vec3(1.0, 3.0 / 8.0, 27.0 / 32.0))
  {
    RampK5First(k1);
    RampK5Second(k4);
  }

  lemma RampK6(s: Vec3, k1: Vec3, k2: Vec3, k3: Vec3, k4: Vec3, k5: Vec3)
    requires s == Vec3(0.0, 0.0, 0.0) && k1 == Vec3(1.0, 0.0, 0.0) && k2 == Vec3(1.0, 0.25, 0.0)
    requires k3 == Vec3(1.0, 0.25, 1.0 / 32.0) && k4 == Vec3(1.0, 1.5, 3.0 / 8.0)
    requires k5 == Vec3(1.0, 3.0 / 8.0, 27.0 / 32.0)
    ensures Ramp(Point6(s, 1.0, k1, k2, k3, k4, k5), []) == Ok(Vec3(1.0, 1.0, -23.0 / 14.0))
  {
  }

  lemma WrittenRampStages(s: Vec3, k1: Vec3, k2: Vec3, k3: Vec3, k4: Vec3, k5: Vec3, k6: Vec3)
    requires s == Vec3(0.0, 0.0, 0.0) && k1 == Vec3(1.0, 0.0, 0.0) && k2 == Vec3(1.0, 0.25, 0.0)
    requires k3 == Vec3(1.0, 0.25, 1.0 / 32.0) && k4 == Vec3(1.0, 1.5, 3.0 / 8.0)
    requires k5 == Vec3(1.0, 3.0 / 8.0, 27.0 / 32.0) && k6 == Vec3(1.0, 1.0, -23.0 / 14.0)
    ensures Ramp(s, []) == Ok(k1) && Ramp(Point2(s, 1.0, k1), []) == Ok(k2)
    ensures Ramp(Point3(s, 1.0, k1, k2), []) == Ok(k3) && Ramp(Point4(s, 1.0, k2, k3), []) == Ok(k4)
    ensures Ramp(Point5(s, 1.0, k1, k4), []) == Ok(k5) && Ramp(Point6(s, 1.0, k1, k2, k3, k4, k5), []) == Ok(k6)
  {
    RampK2(s, k1);
    RampK3(s, k1, k2);
    RampK4(s, k2, k3);
    RampK5(s, k1, k4);
    RampK6(s, k1, k2, k3, k4, k5);
  }

  lemma WrittenRampStep(s: Vec3, k1: Vec3, k2: Vec3, k3: Vec3, k4: Vec3, k5: Vec3, k6: Vec3)
    requires Ramp(s, []) == Ok(k1) && Ramp(Point2(s, 1.0, k1), []) == Ok(k2)
    requires Ramp(Point3(s, 1.0, k1, k2), []) == Ok(k3) && Ramp(Point4(s, 1.0, k2, k3), []) == Ok(k4)
    requires Ramp(Point5(s, 1.0, k1, k4), []) == Ok(k5) && Ramp(Point6(s, 1.0, k1, k2, k3, k4, k5), []) == Ok(k6)
    ensures Step(Ramp, s, [], 1.0) == Ok(Add(s, Div(Scale(1.0, Final(k1, k3, k4, k5, k6)), 90.0)))
  {
    StepOfStages(Ramp, s, [], 1.0, k1, k2, k3, k4, k5, k6);
  }

  lemma WrittenRampResult(s: Vec3, k1: Vec3, k3: Vec3, k4: Vec3, k5: Vec3, k6: Vec3)
    requires s == Vec3(0.0, 0.0, 0.0) && k1 == Vec3(1.0, 0.0, 0.0) && k3 == Vec3(1.0, 0.25, 1.0 / 32.0)
    requires k4 == Vec3(1.0, 1.5, 3.0 / 8.0) && k5 == Vec3(1.0, 3.0 / 8.0, 27.0 / 32.0)
    requires k6 == Vec3(1.0, 1.0, -23.0 / 14.0)
    ensures Add(s, Div(Scale(1.0, Final(k1, k3, k4, k5, k6)), 90.0)) == Vec3(1.0, 0.5, 7.0 / 30.0)
  {
  }

  /**
   * One step of length 1 from the origin on `Ramp`: the step as written
   * reaches `z = 7/30`, where the exact flow gives `1/6`.
   */
  lemma WrittenOnRamp(s: Vec3)
    requires s == Vec3(0.0, 0.0, 0.0)
    ensures Step(Ramp, s, [], 1.0) == Ok(Vec3(1.0, 0.5, 7.0 / 30.0))
  {
    var k1 := Vec3(1.0, 0.0, 0.0);
    var k2 := Vec3(1.0, 0.25, 0.0);
    var k3 := Vec3(1.0, 0.25, 1.0 / 32.0);
    var k4 := Vec3(1.0, 1.5, 3.0 / 8.0);
    var k5 := Vec3(1.0, 3.0 / 8.0, 27.0 / 32.0);
    var k6 := Vec3(1.0, 1.0, -23.0 / 14.0);
    WrittenRampStages(s, k1, k2, k3, k4, k5, k6);
    WrittenRampStep(s, k1, k2, k3, k4, k5, k6);
    WrittenRampResult(s, k1, k3, k4, k5, k6);
  }

  // Butcher's method on the same problem.

  lemma ReferenceK2(s: Vec3, k1: Vec3)
    requires s == Vec3(0.0, 0.0, 0.0) && k1 == Vec3(1.0, 0.0, 0.0)
    ensures WellFormed(ReferenceRk5)
    ensures Ramp(StagePoint(ReferenceRk5, s, 1.0, 1, [k1]), []) == Ok(Vec3(1.0, 0.25, 0.0))
  {
    Combo1(0.25, [k1]);
  }

  lemma ReferenceK3(s: Vec3, k1: Vec3, k2: Vec3)
    requires s == Vec3(0.0, 0.0, 0.0) && k1 == Vec3(1.0, 0.0, 0.0) && k2 == Vec3(1.0, 0.25, 0.0)
    ensures WellFormed(ReferenceRk5)
    ensures Ramp(StagePoint(ReferenceRk5, s, 1.0, 2, [k1, k2]), []) == Ok(Vec3(1.0, 0.25, 1.0 / 32.0))
  {
    Combo2(0.125, 0.125, [k1, k2]);
  }

  lemma ReferenceK4(s: Vec3, k1: Vec3, k2: Vec3, k3: Vec3)
    requires s == Vec3(0.0, 0.0, 0.0) && k1 == Vec3(1.0, 0.0, 0.0) && k2 == Vec3(1.0, 0.25, 0.0)
    requires k3 == Vec3(1.0, 0.25, 1.0 / 32.0)
    ensures WellFormed(ReferenceRk5)
    ensures Ramp(StagePoint(ReferenceRk5, s, 1.0, 3, [k1, k2, k3]), []) == Ok(Vec3(1.0, 0.5, 1.0 / 8.0))
  {
    Combo3(0.0, -0.5, 1.0, [k1, k2, k3]);
  }

  lemma ReferenceK5(s: Vec3, k1: Vec3, k2: Vec3, k3: Vec3, k4: Vec3)
    requires s == Vec3(0.0, 0.0, 0.0) && k1 == Vec3(1.0, 0.0, 0.0) && k2 == Vec3(1.0, 0.25, 0.0)
    requires k3 == Vec3(1.0, 0.25, 1.0 / 32.0) && k4 == Vec3(1.0, 0.5, 1.0 / 8.0)
    ensures WellFormed(ReferenceRk5)
    ensures Ramp(StagePoint(ReferenceRk5, s, 1.0, 4, [k1, k2, k3, k4]), []) == Ok(Vec3(1.0, 0.75, 9.0 / 32.0))
  {
    Combo4(3.0 / 16.0, 0.0, 0.0, 9.0 / 16.0, [k1, k2, k3, k4]);
  }

  lemma ReferenceK6Terms(k1: Vec3, k2: Vec3, k3: Vec3, k4: Vec3, k5: Vec3)
    requires k1 == Vec3(1.0, 0.0, 0.0) && k2 == Vec3(1.0, 0.25, 0.0)
    requires k3 == Vec3(1.0, 0.25, 1.0 / 32.0) && k4 == Vec3(1.0, 0.5, 1.0 / 8.0)
    requires k5 == Vec3(1.0, 0.75, 9.0 / 32.0)
    ensures Combo([-3.0 / 7.0, 2.0 / 7.0, 12.0 / 7.0, -12.0 / 7.0, 8.0 / 7.0], [k1, k2, k3, k4, k5])
            == Vec3(1.0, 0.5, 9.0 / 56.0)
  {
    Combo5(-3.0 / 7.0, 2.0 / 7.0, 12.0 / 7.0, -12.0 / 7.0, 8.0 / 7.0, [k1, k2, k3, k4, k5]);
    assert Scale(-3.0 / 7.0, k1) == Vec3(-3.0 / 7.0, 0.0, 0.0);
    assert Scale(2.0 / 7.0, k2) == Vec3(2.0 / 7.0, 0.5 / 7.0, 0.0);
    assert Scale(12.0 / 7.0, k3) == Vec3(12.0 / 7.0, 3.0 / 7.0, 0.375 / 7.0);
    assert Scale(-12.0 / 7.0, k4) == Vec3(-12.0 / 7.0, -6.0 / 7.0, -1.5 / 7.0);
    assert Scale(8.0 / 7.0, k5) == Vec3(8.0 / 7.0, 6.0 / 7.0, 2.25 / 7.0);
  }

  lemma ReferenceK6(s: Vec3, k1: Vec3, k2: Vec3, k3: Vec3, k4: Vec3, k5: Vec3)
    requires s == Vec3(0.0, 0.0, 0.0) && k1 == Vec3(1.0, 0.0, 0.0) && k2 == Vec3(1.0, 0.25, 0.0)
    requires k3 == Vec3(1.0, 0.25, 1.0 / 32.0) && k4 == Vec3(1.0, 0.5, 1.0 / 8.0)
    requires k5 == Vec3(1.0, 0.75, 9.0 / 32.0)
    ensures WellFormed(ReferenceRk5)
    ensures Ramp(StagePoint(ReferenceRk5, s, 1.0, 5, [k1, k2, k3, k4, k5]), []) == Ok(Vec3(1.0, 1.0, 0.5))
  {
    ReferenceK6Terms(k1, k2, k3, k4, k5);
  }

  lemma ReferenceRampStages(s: Vec3, k1: Vec3, k2: Vec3, k3: Vec3, k4: Vec3, k5: Vec3, k6: Vec3)
    requires s == Vec3(0.0, 0.0, 0.0) && k1 == Vec3(1.0, 0.0, 0.0) && k2 == Vec3(1.0, 0.25, 0.0)
    requires k3 == Vec3(1.0, 0.25, 1.0 / 32.0) && k4 == Vec3(1.0, 0.5, 1.0 / 8.0)
    requires k5 == Vec3(1.0, 0.75, 9.0 / 32.0) && k6 == Vec3(1.0, 1.0, 0.5)
    ensures WellFormed(ReferenceRk5)
    ensures Stages(ReferenceRk5, Ramp, s, [], 1.0, 6) == Ok([k1, k2, k3, k4, k5, k6])
  {
    var t := ReferenceRk5;
    ReferenceK2(s, k1);
    assert StagePoint(t, s, 1.0, 0, []) == s;
    StagesSnoc(t, Ramp, s, [], 1.0, 0, [], k1);
    assert [] + [k1] == [k1];
    StagesSnoc(t, Ramp, s, [], 1.0, 1, [k1], k2);
    assert [k1] + [k2] == [k1, k2];
    ReferenceK3(s, k1, k2);
    StagesSnoc(t, Ramp, s, [], 1.0, 2, [k1, k2], k3);
    assert [k1, k2] + [k3] == [k1, k2, k3];
    ReferenceK4(s, k1, k2, k3);
    StagesSnoc(t, Ramp, s, [], 1.0, 3, [k1, k2, k3], k4);
    assert [k1, k2, k3] + [k4] == [k1, k2, k3, k4];
    ReferenceK5(s, k1, k2, k3, k4);
    StagesSnoc(t, Ramp, s, [], 1.0, 4, [k1, k2, k3, k4], k5);
    assert [k1, k2, k3, k4] + [k5] == [k1, k2, k3, k4, k5];
    ReferenceK6(s, k1, k2, k3, k4, k5);
    StagesSnoc(t, Ramp, s, [], 1.0, 5, [k1, k2, k3, k4, k5], k6);
    assert [k1, k2, k3, k4, k5] + [k6] == [k1, k2, k3, k4, k5, k6];
  }

  lemma ReferenceRampResult(s: Vec3, k1: Vec3, k2: Vec3, k3: Vec3, k4: Vec3, k5: Vec3, k6: Vec3)
    requires s == Vec3(0.0, 0.0, 0.0) && k1 == Vec3(1.0, 0.0, 0.0) && k2 == Vec3(1.0, 0.25, 0.0)
    requires k3 == Vec3(1.0, 0.25, 1.0 / 32.0) && k4 == Vec3(1.0, 0.5, 1.0 / 8.0)
    requires k5 == Vec3(1.0, 0.75, 9.0 / 32.0) && k6 == Vec3(1.0, 1.0, 0.5)
    ensures Add(s, Scale(1.0, Combo(ReferenceRk5.b, [k1, k2, k3, k4, k5, k6]))) == Vec3(1.0, 0.5, 1.0 / 6.0)
  {
    Combo6(7.0 / 90.0, 0.0, 32.0 / 90.0, 12.0 / 90.0, 32.0 / 90.0, 7.0 / 90.0, [k1, k2, k3, k4, k5, k6]);
  }

  /** Butcher's method takes the same step to the exact `(1, 1/2, 1/6)`. */
  lemma ReferenceOnRamp(s: Vec3)
    requires s == Vec3(0.0, 0.0, 0.0)
    ensures WellFormed(ReferenceRk5)
    ensures ExplicitRk(ReferenceRk5, Ramp, s, [], 1.0) == Ok(Vec3(1.0, 0.5, 1.0 / 6.0))
  {
    var k1 := Vec3(1.0, 0.0, 0.0);
    var k2 := Vec3(1.0, 0.25, 0.0);
    var k3 := Vec3(1.0, 0.25, 1.0 / 32.0);
    var k4 := Vec3(1.0, 0.5, 1.0 / 8.0);
    var k5 := Vec3(1.0, 0.75, 9.0 / 32.0);
    var k6 := Vec3(1.0, 1.0, 0.5);
    ReferenceRampStages(s, k1, k2, k3, k4, k5, k6);
    ReferenceRampResult(s, k1, k2, k3, k4, k5, k6);
  }
}
