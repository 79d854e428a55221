/** numpy's `linspace(start, stop, n)` over the reals. */
module Linspace {

  /** `start + arange(n) * step`: `n` values, `step` apart. */
  function Ramp(start: real, step: real, n: nat): (r: seq<real>)
    ensures |r| == n
  {
    if n == 0 then [] else Ramp(start, step, n - 1) + [start + ((n - 1) as real) * step]
  }

  /** Entry `i` of the ramp is `start + i * step`. */
  lemma {:induction false} RampAt(start: real, step: real, n: nat, i: nat)
    requires i < n
    ensures Ramp(start, step, n)[i] == start + (i as real) * step
  {
    if i < n - 1 {
      RampAt(start, step, n - 1, i);
    }
  }

  /**
   * `n` evenly spaced values from `start` to `stop`, both included; one value
   * is `[start]` and zero values is `[]`.
   */
  function Linspace(start: real, stop: real, n: nat): (r: seq<real>)
    ensures |r| == n
  {
    if n <= 1 then seq(n, _ => start) else Ramp(start, (stop - start) / ((n - 1) as real), n)
  }

  /** The first value is `start` and, from two values on, the last is `stop`. */
  lemma Endpoints(start: real, stop: real, n: nat)
    ensures n >= 1 ==> Linspace(start, stop, n)[0] == start
    ensures n >= 2 ==> Linspace(start, stop, n)[n - 1] == stop
  {
    if n >= 2 {
      var d := (n - 1) as real;
      var step := (stop - start) / d;
      RampAt(start, step, n, 0);
      RampAt(start, step, n, n - 1);
      assert d * step == stop - start;
    }
  }

  /** Entry `i` is `start + i * (stop - start) / (n - 1)`. */
  lemma LinspaceAt(start: real, stop: real, n: nat, i: nat)
    requires 2 <= n && i < n
    ensures Linspace(start, stop, n)[i] == start + (i as real) * ((stop - start) / ((n - 1) as real))
  {
    RampAt(start, (stop - start) / ((n - 1) as real), n, i);
  }

  /** The gap between neighbours is `(stop - start) / (n - 1)`. */
  lemma Gap(start: real, stop: real, n: nat, i: nat)
    requires 2 <= n && i + 1 < n
    ensures Linspace(start, stop, n)[i + 1] - Linspace(start, stop, n)[i] == (stop - start) / ((n - 1) as real)
  {
    var step := (stop - start) / ((n - 1) as real);
    LinspaceAt(start, stop, n, i);
    LinspaceAt(start, stop, n, i + 1);
    assert ((i + 1) as real) * step == (i as real) * step + step;
  }

  /** With `start <= stop` every value lies between them and the values do not decrease. */
  lemma Bounded(start: real, stop: real, n: nat)
    requires start <= stop
    ensures forall i :: 0 <= i < n ==> start <= Linspace(start, stop, n)[i] <= stop
    ensures forall i :: 0 <= i < n - 1 ==> Linspace(start, stop, n)[i] <= Linspace(start, stop, n)[i + 1]
  {
    var r := Linspace(start, stop, n);
    Endpoints(start, stop, n);
    if n >= 2 {
      var d := (n - 1) as real;
      var step := (stop - start) / d;
      assert step >= 0.0 && d * step == stop - start;
      forall i | 0 <= i < n
        ensures start <= r[i] <= stop
      {
        LinspaceAt(start, stop, n, i);
        MulNonneg(d - i as real, step);
        MulNonneg(i as real, step);
        assert (d - i as real) * step + (i as real) * step == d * step;
      }
      forall i | 0 <= i < n - 1
        ensures r[i] <= r[i + 1]
      {
        Gap(start, stop, n, i);
      }
    }
  }

  lemma MulNonneg(a: real, b: real)
    requires 0.0 <= a && 0.0 <= b
    ensures 0.0 <= a * b
  {
  }
}
