/** Heun's two-stage method, registered as "rk2". */
module Rk2 {
  import opened Errors
  import opened Vectors
  import opened TypeDefs
  import opened Tableau

  const Name: string := "rk2"

  /** `k1 = f(s)`, `k2 = f(s + dt*k1)`, result `s + dt*(k1 + k2)/2`. */
  function Step(f: SystemCallable, s: Vec3, p: seq<real>, dt: real): (r: Result<Vec3>)
    ensures f(s, p).Err? ==> r == Err(f(s, p).error)
  {
    var k1 :- f(s, p);
    var k2 :- f(Add(s, Scale(dt, k1)), p);
    Ok(Add(s, Div(Scale(dt, Add(k1, k2)), 2.0)))
  }

  /** Stage 2 at the full step; weights 1/2, 1/2. */
  const Butcher: Tableau := Tableau([[], [1.0]], [0.5, 0.5])

  lemma WeightsSumToOne()
    ensures WellFormed(Butcher) && Sum(Butcher.b) == 1.0
  {
    Sum6(0.5, 0.5, 0.0, 0.0, 0.0, 0.0);
  }

  lemma Point2(s: Vec3, dt: real, k1: Vec3)
    ensures WellFormed(Butcher)
    ensures StagePoint(Butcher, s, dt, 1, [k1]) == Add(s, Scale(dt, k1))
  {
    Combo1(1.0, [k1]);
  }

  lemma Combination(s: Vec3, dt: real, k1: Vec3, k2: Vec3)
    ensures Add(s, Scale(dt, Combo(Butcher.b, [k1, k2]))) == Add(s, Div(Scale(dt, Add(k1, k2)), 2.0))
  {
    Combo2(0.5, 0.5, [k1, k2]);
  }

  /** The step is the explicit Runge-Kutta method of `Butcher`. */
  lemma IsExplicitRk(f: SystemCallable, s: Vec3, p: seq<real>, dt: real)
    ensures WellFormed(Butcher)
    ensures Step(f, s, p, dt) == ExplicitRk(Butcher, f, s, p, dt)
  {
    var t := Butcher;
    assert StagePoint(t, s, dt, 0, []) == s;
    match f(s, p)
    case Err(e) =>
      StagesFail(t, f, s, p, dt, 0, e);
    case Ok(k1) =>
      StagesSnoc(t, f, s, p, dt, 0, [], k1);
      assert [] + [k1] == [k1];
      Point2(s, dt, k1);
      match f(Add(s, Scale(dt, k1)), p)
      case Err(e) =>
        StagesFail(t, f, s, p, dt, 1, e);
      case Ok(k2) =>
        StagesSnoc(t, f, s, p, dt, 1, [k1], k2);
        assert [k1] + [k2] == [k1, k2];
        Combination(s, dt, k1, k2);
  }

  /** An equilibrium of `f` is a fixed point of the step. */
  lemma EquilibriumKept(f: SystemCallable, s: Vec3, p: seq<real>, dt: real)
    requires f(s, p) == Ok(Zero)
    ensures Step(f, s, p, dt) == Ok(s)
  {
    IsExplicitRk(f, s, p, dt);
    FixesEquilibria(Butcher, f, s, p, dt);
  }

  /** A derivative that is `c` everywhere moves the state by `dt * c`. */
  lemma ConstantDerivative(f: SystemCallable, s: Vec3, p: seq<real>, dt: real, c: Vec3)
    requires forall v :: f(v, p) == Ok(c)
    ensures Step(f, s, p, dt) == Ok(Add(s, Scale(dt, c)))
  {
    IsExplicitRk(f, s, p, dt);
    WeightsSumToOne();
    ConstantField(Butcher, f, s, p, dt, c);
  }
}
