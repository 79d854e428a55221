/** The forward Euler step, registered as "euler". */
module Euler {
  import opened Errors
  import opened Vectors
  import opened TypeDefs
  import opened Tableau

  const Name: string := "euler"

  /** `state + dt * f(state, params)`. */
  function Step(f: SystemCallable, s: Vec3, p: seq<real>, dt: real): (r: Result<Vec3>)
    ensures f(s, p).Err? <==> r.Err?
    ensures f(s, p).Err? ==> r == Err(f(s, p).error)
    ensures f(s, p) == Ok(Zero) ==> r == Ok(s)
    ensures dt == 0.0 && f(s, p).Ok? ==> r == Ok(s)
  {
    var k :- f(s, p);
    Ok(Add(s, Scale(dt, k)))
  }

  /** The one-stage tableau with weight 1. */
  const Butcher: Tableau := Tableau([[]], [1.0])

  lemma WeightsSumToOne()
    ensures WellFormed(Butcher) && Sum(Butcher.b) == 1.0
  {
  }

  /** The step is the explicit Runge-Kutta method of `Butcher`. */
  lemma IsExplicitRk(f: SystemCallable, s: Vec3, p: seq<real>, dt: real)
    ensures WellFormed(Butcher)
    ensures Step(f, s, p, dt) == ExplicitRk(Butcher, f, s, p, dt)
  {
    var t := Butcher;
    assert StagePoint(t, s, dt, 0, []) == s;
    match f(s, p)
    case Err(e) =>
      StagesFail(t, f, s, p, dt, 0, e);
    case Ok(k1) =>
      StagesSnoc(t, f, s, p, dt, 0, [], k1);
      assert [] + [k1] == [k1];
      assert Combo(t.b, [k1]) == k1;
  }

  /** A derivative that is `c` everywhere moves the state by `dt * c`. */
  lemma ConstantDerivative(f: SystemCallable, s: Vec3, p: seq<real>, dt: real, c: Vec3)
    requires forall v :: f(v, p) == Ok(c)
    ensures Step(f, s, p, dt) == Ok(Add(s, Scale(dt, c)))
  {
    IsExplicitRk(f, s, p, dt);
    WeightsSumToOne();
    ConstantField(Butcher, f, s, p, dt, c);
  }
}
