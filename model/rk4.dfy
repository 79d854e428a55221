/** The classical fourth-order Runge-Kutta method, registered as "rk4". */
module Rk4 {
  import opened Errors
  import opened Vectors
  import opened TypeDefs
  import opened Tableau

  const Name: string := "rk4"

  /**
   * Stages at `s`, `s + dt*k1/2`, `s + dt*k2/2`, `s + dt*k3`;
   * result `s + dt*(k1 + 2*k2 + 2*k3 + k4)/6`.
   */
  function Step(f: SystemCallable, s: Vec3, p: seq<real>, dt: real): (r: Result<Vec3>)
    ensures f(s, p).Err? ==> r == Err(f(s, p).error)
  {
    var k1 :- f(s, p);
    var k2 :- f(Add(s, Div(Scale(dt, k1), 2.0)), p);
    var k3 :- f(Add(s, Div(Scale(dt, k2), 2.0)), p);
    var k4 :- f(Add(s, Scale(dt, k3)), p);
    Ok(Add(s, Div(Scale(dt, Add(Add(Add(k1, Scale(2.0, k2)), Scale(2.0, k3)), k4)), 6.0)))
  }

  /** Nodes 0, 1/2, 1/2, 1; weights 1/6, 1/3, 1/3, 1/6. */
  const Butcher: Tableau :=
    Tableau([[], [0.5], [0.0, 0.5], [0.0, 0.0, 1.0]], [1.0 / 6.0, 1.0 / 3.0, 1.0 / 3.0, 1.0 / 6.0])

  lemma WeightsSumToOne()
    ensures WellFormed(Butcher) && Sum(Butcher.b) == 1.0
  {
    Sum6(1.0 / 6.0, 1.0 / 3.0, 1.0 / 3.0, 1.0 / 6.0, 0.0, 0.0);
  }

  lemma Point2(s: Vec3, dt: real, k1: Vec3)
    ensures WellFormed(Butcher)
    ensures StagePoint(Butcher, s, dt, 1, [k1]) == Add(s, Div(Scale(dt, k1), 2.0))
  {
    Combo1(0.5, [k1]);
  }

  lemma Point3(s: Vec3, dt: real, k1: Vec3, k2: Vec3)
    ensures WellFormed(Butcher)
    ensures StagePoint(Butcher, s, dt, 2, [k1, k2]) == Add(s, Div(Scale(dt, k2), 2.0))
  {
    Combo2(0.0, 0.5, [k1, k2]);
    var w := Combo([0.0, 0.5], [k1, k2]);
    assert dt * w.x == dt * k2.x / 2.0 && dt * w.y == dt * k2.y / 2.0 && dt * w.z == dt * k2.z / 2.0;
  }

  lemma Point4(s: Vec3, dt: real, k1: Vec3, k2: Vec3, k3: Vec3)
    ensures WellFormed(Butcher)
    ensures StagePoint(Butcher, s, dt, 3, [k1, k2, k3]) == Add(s, Scale(dt, k3))
  {
    Combo3(0.0, 0.0, 1.0, [k1, k2, k3]);
  }

  lemma Combination(s: Vec3, dt: real, k1: Vec3, k2: Vec3, k3: Vec3, k4: Vec3)
    ensures Add(s, Scale(dt, Combo(Butcher.b, [k1, k2, k3, k4])))
            == Add(s, Div(Scale(dt, Add(Add(Add(k1, Scale(2.0, k2)), Scale(2.0, k3)), k4)), 6.0))
  {
    Combo4(1.0 / 6.0, 1.0 / 3.0, 1.0 / 3.0, 1.0 / 6.0, [k1, k2, k3, k4]);
  }

  /** The step is the explicit Runge-Kutta method of `Butcher`. */
  lemma IsExplicitRk(f: SystemCallable, s: Vec3, p: seq<real>, dt: real)
    ensures WellFormed(Butcher)
    ensures Step(f, s, p, dt) == ExplicitRk(Butcher, f, s, p, dt)
  {
    var t := Butcher;
    assert StagePoint(t, s, dt, 0, []) == s;
    match f(s, p)
    case Err(e) =>
      StagesFail(t, f, s, p, dt, 0, e);
    case Ok(k1) =>
      StagesSnoc(t, f, s, p, dt, 0, [], k1);
      assert [] + [k1] == [k1];
      Point2(s, dt, k1);
      match f(Add(s, Div(Scale(dt, k1), 2.0)), p)
      case Err(e) =>
        StagesFail(t, f, s, p, dt, 1, e);
      case Ok(k2) =>
        StagesSnoc(t, f, s, p, dt, 1, [k1], k2);
        assert [k1] + [k2] == [k1, k2];
        Point3(s, dt, k1, k2);
        match f(Add(s, Div(Scale(dt, k2), 2.0)), p)
        case Err(e) =>
          StagesFail(t, f, s, p, dt, 2, e);
        case Ok(k3) =>
          StagesSnoc(t, f, s, p, dt, 2, [k1, k2], k3);
          assert [k1, k2] + [k3] == [k1, k2, k3];
          Point4(s, dt, k1, k2, k3);
          match f(Add(s, Scale(dt, k3)), p)
          case Err(e) =>
            StagesFail(t, f, s, p, dt, 3, e);
          case Ok(k4) =>
            StagesSnoc(t, f, s, p, dt, 3, [k1, k2, k3], k4);
            assert [k1, k2, k3] + [k4] == [k1, k2, k3, k4];
            Combination(s, dt, k1, k2, k3, k4);
  }

  /** An equilibrium of `f` is a fixed point of the step. */
  lemma EquilibriumKept(f: SystemCallable, s: Vec3, p: seq<real>, dt: real)
    requires f(s, p) == Ok(Zero)
    ensures Step(f, s, p, dt) == Ok(s)
  {
    IsExplicitRk(f, s, p, dt);
    FixesEquilibria(Butcher, f, s, p, dt);
  }

  /** A derivative that is `c` everywhere moves the state by `dt * c`. */
  lemma ConstantDerivative(f: SystemCallable, s: Vec3, p: seq<real>, dt: real, c: Vec3)
    requires forall v :: f(v, p) == Ok(c)
    ensures Step(f, s, p, dt) == Ok(Add(s, Scale(dt, c)))
  {
    IsExplicitRk(f, s, p, dt);
    WeightsSumToOne();
    ConstantField(Butcher, f, s, p, dt, c);
  }
}
