/**
 * Explicit Runge-Kutta methods described by their Butcher tableau. Every
 * current solver step is one of these; the general facts proved here
 * (equilibria are kept, a constant field moves the state by dt * (sum of
 * weights) * c) transfer to each solver through its equivalence lemma.
 */
module Tableau {
  import opened Errors
  import opened Vectors
  import opened TypeDefs

  /** Stage coefficients `a[i]` (strictly lower triangular rows) and weights `b`. */
  datatype Tableau = Tableau(a: seq<seq<real>>, b: seq<real>)

  predicate WellFormed(t: Tableau) {
    |t.a| == |t.b| && forall i :: 0 <= i < |t.a| ==> |t.a[i]| == i
  }

  function Sum(w: seq<real>): real {
    if w == [] then 0.0 else Sum(w[..|w| - 1]) + w[|w| - 1]
  }

  /** The weighted sum `w[0]*ks[0] + ... + w[m-1]*ks[m-1]`. */
  function Combo(w: seq<real>, ks: seq<Vec3>): Vec3
    requires |w| <= |ks|
  {
    if w == [] then Zero
    else Add(Combo(w[..|w| - 1], ks), Scale(w[|w| - 1], ks[|w| - 1]))
  }

  // Closed forms of `Combo` for the short weight lists the solvers use.

  lemma Combo1(a: real, ks: seq<Vec3>)
    requires |ks| >= 1
    ensures Combo([a], ks) == Scale(a, ks[0])
  {
    assert [a][..0] == [];
  }

  lemma Combo2(a: real, b: real, ks: seq<Vec3>)
    requires |ks| >= 2
    ensures Combo([a, b], ks) == Add(Scale(a, ks[0]), Scale(b, ks[1]))
  {
    assert [a, b][..1] == [a];
    Combo1(a, ks);
  }

  lemma Combo3(a: real, b: real, c: real, ks: seq<Vec3>)
    requires |ks| >= 3
    ensures Combo([a, b, c], ks) == Add(Add(Scale(a, ks[0]), Scale(b, ks[1])), Scale(c, ks[2]))
  {
    assert [a, b, c][..2] == [a, b];
    Combo2(a, b, ks);
  }

  lemma Combo4(a: real, b: real, c: real, d: real, ks: seq<Vec3>)
    requires |ks| >= 4
    ensures Combo([a, b, c, d], ks)
            == Add(Add(Add(Scale(a, ks[0]), Scale(b, ks[1])), Scale(c, ks[2])), Scale(d, ks[3]))
  {
    assert [a, b, c, d][..3] == [a, b, c];
    Combo3(a, b, c, ks);
  }

  lemma Combo5(a: real, b: real, c: real, d: real, e: real, ks: seq<Vec3>)
    requires |ks| >= 5
    ensures Combo([a, b, c, d, e], ks)
            == Add(Add(Add(Add(Scale(a, ks[0]), Scale(b, ks[1])), Scale(c, ks[2])), Scale(d, ks[3])),
                   Scale(e, ks[4]))
  {
    assert [a, b, c, d, e][..4] == [a, b, c, d];
    Combo4(a, b, c, d, ks);
  }

  lemma Combo6(a: real, b: real, c: real, d: real, e: real, g: real, ks: seq<Vec3>)
    requires |ks| >= 6
    ensures Combo([a, b, c, d, e, g], ks)
            == Add(Add(Add(Add(Add(Scale(a, ks[0]), Scale(b, ks[1])), Scale(c, ks[2])), Scale(d, ks[3])),
                       Scale(e, ks[4])), Scale(g, ks[5]))
  {
    assert [a, b, c, d, e, g][..5] == [a, b, c, d, e];
    Combo5(a, b, c, d, e, ks);
  }

  /** Appending one weight adds it to the sum. */
  lemma SumSnoc(w: seq<real>, x: real)
    ensures Sum(w + [x]) == Sum(w) + x
  {
    assert (w + [x])[..|w|] == w;
  }

  lemma Sum6(a: real, b: real, c: real, d: real, e: real, g: real)
    ensures Sum([a]) == a
    ensures Sum([a, b]) == a + b
    ensures Sum([a, b, c]) == a + b + c
    ensures Sum([a, b, c, d]) == a + b + c + d
    ensures Sum([a, b, c, d, e]) == a + b + c + d + e
    ensures Sum([a, b, c, d, e, g]) == a + b + c + d + e + g
  {
    SumSnoc([], a);
    assert [] + [a] == [a];
    SumSnoc([a], b);
    assert [a] + [b] == [a, b];
    SumSnoc([a, b], c);
    assert [a, b] + [c] == [a, b, c];
    SumSnoc([a, b, c], d);
    assert [a, b, c] + [d] == [a, b, c, d];
    SumSnoc([a, b, c, d], e);
    assert [a, b, c, d] + [e] == [a, b, c, d, e];
    SumSnoc([a, b, c, d, e], g);
    assert [a, b, c, d, e] + [g] == [a, b, c, d, e, g];
  }

  /** The point at which stage `i` is evaluated, given the earlier stages. */
  function StagePoint(t: Tableau, s: Vec3, dt: real, i: nat, ks: seq<Vec3>): Vec3
    requires WellFormed(t) && i < |t.a| && |ks| >= i
  {
    Add(s, Scale(dt, Combo(t.a[i], ks)))
  }

  /** The first `n` stage derivatives, in order; the first failing evaluation's error otherwise. */
  function Stages(t: Tableau, f: SystemCallable, s: Vec3, p: seq<real>, dt: real, n: nat): (r: Result<seq<Vec3>>)
    requires WellFormed(t) && n <= |t.b|
    ensures r.Ok? ==> |r.value| == n
  {
    if n == 0 then Ok([])
    else
      var ks :- Stages(t, f, s, p, dt, n - 1);
      var k :- f(StagePoint(t, s, dt, n - 1, ks), p);
      Ok(ks + [k])
  }

  /** One step `s + dt * (b[0]*k[0] + ... )` of the method. */
  function ExplicitRk(t: Tableau, f: SystemCallable, s: Vec3, p: seq<real>, dt: real): Result<Vec3>
    requires WellFormed(t)
  {
    var ks :- Stages(t, f, s, p, dt, |t.b|);
    Ok(Add(s, Scale(dt, Combo(t.b, ks))))
  }

  /** One more stage evaluated successfully extends the stage list. */
  lemma StagesSnoc(t: Tableau, f: SystemCallable, s: Vec3, p: seq<real>, dt: real, n: nat, ks: seq<Vec3>, k: Vec3)
    requires WellFormed(t) && n < |t.b|
    requires Stages(t, f, s, p, dt, n) == Ok(ks)
    requires f(StagePoint(t, s, dt, n, ks), p) == Ok(k)
    ensures Stages(t, f, s, p, dt, n + 1) == Ok(ks + [k])
  {
  }

  /** A failing stage, or an earlier failure, fails every later stage list with that error. */
  lemma StagesFail(t: Tableau, f: SystemCallable, s: Vec3, p: seq<real>, dt: real, n: nat, e: Error)
    requires WellFormed(t) && n < |t.b|
    requires Stages(t, f, s, p, dt, n) == Err(e)
             || exists ks :: Stages(t, f, s, p, dt, n) == Ok(ks) && f(StagePoint(t, s, dt, n, ks), p) == Err(e)
    ensures forall m :: n < m <= |t.b| ==> Stages(t, f, s, p, dt, m) == Err(e)
  {
    forall m | n < m <= |t.b|
      ensures Stages(t, f, s, p, dt, m) == Err(e)
    {
      StagesFailFrom(t, f, s, p, dt, n, m, e);
    }
  }

  lemma {:induction false} StagesFailFrom(t: Tableau, f: SystemCallable, s: Vec3, p: seq<real>, dt: real, n: nat, m: nat, e: Error)
    requires WellFormed(t) && n < m <= |t.b|
    requires Stages(t, f, s, p, dt, n) == Err(e)
             || exists ks :: Stages(t, f, s, p, dt, n) == Ok(ks) && f(StagePoint(t, s, dt, n, ks), p) == Err(e)
    ensures Stages(t, f, s, p, dt, m) == Err(e)
  {
    if m > n + 1 {
      StagesFailFrom(t, f, s, p, dt, n, m - 1, e);
    }
  }

  /** `n` copies of `v`. */
  function Repeat(n: nat, v: Vec3): (r: seq<Vec3>)
    ensures |r| == n && forall i :: 0 <= i < n ==> r[i] == v
  {
    if n == 0 then [] else Repeat(n - 1, v) + [v]
  }

  lemma {:induction false} ComboOfZeros(w: seq<real>, ks: seq<Vec3>)
    requires |w| <= |ks|
    requires forall i :: 0 <= i < |ks| ==> ks[i] == Zero
    ensures Combo(w, ks) == Zero
  {
    if w != [] {
      ComboOfZeros(w[..|w| - 1], ks);
    }
  }

  lemma {:induction false} ComboOfConstant(w: seq<real>, ks: seq<Vec3>, c: Vec3)
    requires |w| <= |ks|
    requires forall i :: 0 <= i < |ks| ==> ks[i] == c
    ensures Combo(w, ks) == Scale(Sum(w), c)
  {
    if w != [] {
      var n := |w| - 1;
      ComboOfConstant(w[..n], ks, c);
      assert ks[n] == c;
      ScaleSumOf(Sum(w[..n]), w[n], c);
    }
  }

  /** Scaling a fixed vector is additive in the factor. */
  lemma ScaleSumOf(a: real, b: real, c: Vec3)
    ensures Add(Scale(a, c), Scale(b, c)) == Scale(a + b, c)
  {
  }

  /** At an equilibrium every stage is evaluated at `s` itself and is zero. */
  lemma {:induction false} StagesAtEquilibrium(t: Tableau, f: SystemCallable, s: Vec3, p: seq<real>, dt: real, n: nat)
    requires WellFormed(t) && n <= |t.b|
    requires f(s, p) == Ok(Zero)
    ensures Stages(t, f, s, p, dt, n) == Ok(Repeat(n, Zero))
  {
    if n > 0 {
      StagesAtEquilibrium(t, f, s, p, dt, n - 1);
      var ks := Repeat(n - 1, Zero);
      ComboOfZeros(t.a[n - 1], ks);
      assert StagePoint(t, s, dt, n - 1, ks) == s;
    }
  }

  /** A field that is `c` everywhere makes every stage `c`. */
  lemma {:induction false} StagesOfConstant(t: Tableau, f: SystemCallable, s: Vec3, p: seq<real>, dt: real, n: nat, c: Vec3)
    requires WellFormed(t) && n <= |t.b|
    requires forall v :: f(v, p) == Ok(c)
    ensures Stages(t, f, s, p, dt, n) == Ok(Repeat(n, c))
  {
    if n > 0 {
      StagesOfConstant(t, f, s, p, dt, n - 1, c);
    }
  }

  /** Every explicit Runge-Kutta step leaves an equilibrium where it is. */
  lemma FixesEquilibria(t: Tableau, f: SystemCallable, s: Vec3, p: seq<real>, dt: real)
    requires WellFormed(t)
    requires f(s, p) == Ok(Zero)
    ensures ExplicitRk(t, f, s, p, dt) == Ok(s)
  {
    StagesAtEquilibrium(t, f, s, p, dt, |t.b|);
    ComboOfZeros(t.b, Repeat(|t.b|, Zero));
  }

  /**
   * Under a constant field `c`, a method whose weights sum to 1 moves the
   * state by exactly `dt * c`, as the exact flow does.
   */
  lemma ConstantField(t: Tableau, f: SystemCallable, s: Vec3, p: seq<real>, dt: real, c: Vec3)
    requires WellFormed(t) && Sum(t.b) == 1.0
    requires forall v :: f(v, p) == Ok(c)
    ensures ExplicitRk(t, f, s, p, dt) == Ok(Add(s, Scale(dt, c)))
  {
    StagesOfConstant(t, f, s, p, dt, |t.b|, c);
    ComboOfConstant(t.b, Repeat(|t.b|, c), c);
  }

  /** A failing evaluation at the start point fails the whole step with the same error. */
  lemma FirstStageError(t: Tableau, f: SystemCallable, s: Vec3, p: seq<real>, dt: real)
    requires WellFormed(t) && |t.b| >= 1
    requires f(s, p).Err?
    ensures ExplicitRk(t, f, s, p, dt) == Err(f(s, p).error)
  {
    assert StagePoint(t, s, dt, 0, []) == s;
    FirstStageErrorUpTo(t, f, s, p, dt, |t.b|);
  }

  lemma {:induction false} FirstStageErrorUpTo(t: Tableau, f: SystemCallable, s: Vec3, p: seq<real>, dt: real, n: nat)
    requires WellFormed(t) && 1 <= n <= |t.b|
    requires f(s, p).Err?
    ensures Stages(t, f, s, p, dt, n) == Err(f(s, p).error)
  {
    if n == 1 {
      assert StagePoint(t, s, dt, 0, []) == s;
    } else {
      FirstStageErrorUpTo(t, f, s, p, dt, n - 1);
    }
  }
}
