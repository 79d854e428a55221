/**
 * The step registered as "stormer_verlet": despite the name, a two-stage
 * explicit midpoint step on the whole state, not a position/velocity split.
 */
module StormerVerlet {
  import opened Errors
  import opened Vectors
  import opened TypeDefs
  import opened Tableau

  const Name: string := "stormer_verlet"

  /** `k1 = f(s)`, `k2 = f(s + 0.5*dt*k1)`, result `s + dt*k2`. */
  function Step(f: SystemCallable, s: Vec3, p: seq<real>, dt: real): (r: Result<Vec3>)
    ensures f(s, p).Err? ==> r == Err(f(s, p).error)
  {
    var k1 :- f(s, p);
    var halfState := Add(s, Scale(0.5 * dt, k1));
    var k2 :- f(halfState, p);
    Ok(Add(s, Scale(dt, k2)))
  }

  /** Stage 2 at the half step; all weight on it. */
  const Butcher: Tableau := Tableau([[], [0.5]], [0.0, 1.0])

  lemma WeightsSumToOne()
    ensures WellFormed(Butcher) && Sum(Butcher.b) == 1.0
  {
    Sum6(0.0, 1.0, 0.0, 0.0, 0.0, 0.0);
  }

  lemma Point2(s: Vec3, dt: real, k1: Vec3)
    ensures WellFormed(Butcher)
    ensures StagePoint(Butcher, s, dt, 1, [k1]) == Add(s, Scale(0.5 * dt, k1))
  {
    Combo1(0.5, [k1]);
    var w := Combo(Butcher.a[1], [k1]);
    assert w == Scale(0.5, k1);
    var h := 0.5 * dt;
    assert dt * w.x == h * k1.x && dt * w.y == h * k1.y && dt * w.z == h * k1.z;
    assert Scale(dt, w) == Scale(h, k1);
  }

  lemma Combination(s: Vec3, dt: real, k1: Vec3, k2: Vec3)
    ensures Add(s, Scale(dt, Combo(Butcher.b, [k1, k2]))) == Add(s, Scale(dt, k2))
  {
    Combo2(0.0, 1.0, [k1, k2]);
  }

  /** The step is the explicit Runge-Kutta method of `Butcher`. */
  lemma IsExplicitRk(f: SystemCallable, s: Vec3, p: seq<real>, dt: real)
    ensures WellFormed(Butcher)
    ensures Step(f, s, p, dt) == ExplicitRk(Butcher, f, s, p, dt)
  {
    var t := Butcher;
    assert StagePoint(t, s, dt, 0, []) == s;
    match f(s, p)
    case Err(e) =>
      StagesFail(t, f, s, p, dt, 0, e);
    case Ok(k1) =>
      StagesSnoc(t, f, s, p, dt, 0, [], k1);
      assert [] + [k1] == [k1];
      Point2(s, dt, k1);
      match f(Add(s, Scale(0.5 * dt, k1)), p)
      case Err(e) =>
        StagesFail(t, f, s, p, dt, 1, e);
      case Ok(k2) =>
        StagesSnoc(t, f, s, p, dt, 1, [k1], k2);
        assert [k1] + [k2] == [k1, k2];
        Combination(s, dt, k1, k2);
  }

  /** An equilibrium of `f` is a fixed point of the step. */
  lemma EquilibriumKept(f: SystemCallable, s: Vec3, p: seq<real>, dt: real)
    requires f(s, p) == Ok(Zero)
    ensures Step(f, s, p, dt) == Ok(s)
  {
    IsExplicitRk(f, s, p, dt);
    FixesEquilibria(Butcher, f, s, p, dt);
  }

  /** A derivative that is `c` everywhere moves the state by `dt * c`. */
  lemma ConstantDerivative(f: SystemCallable, s: Vec3, p: seq<real>, dt: real, c: Vec3)
    requires forall v :: f(v, p) == Ok(c)
    ensures Step(f, s, p, dt) == Ok(Add(s, Scale(dt, c)))
  {
    IsExplicitRk(f, s, p, dt);
    WeightsSumToOne();
    ConstantField(Butcher, f, s, p, dt, c);
  }
}
