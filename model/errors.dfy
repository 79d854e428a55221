/**
 * Python exceptions raised by the modelled code, and the failure-compatible
 * Result/Option types used in place of `raise`.
 */
module Errors {

  /** The exception classes the core raises, each with its message. */
  datatype Error =
    | ValueError(msg: string)
    | TypeError(msg: string)
    | KeyError(msg: string)
    | IndexError(msg: string)
    | AttributeError(msg: string)
    | NameError(msg: string)
    | ZeroDivisionError(msg: string)
    | Exception(msg: string)
      /** A value numpy would produce as inf or nan instead of raising. */
    | NonFinite(msg: string)

  datatype Result<+T> = Ok(value: T) | Err(error: Error) {
    predicate IsFailure() { Err? }

    function PropagateFailure<U>(): Result<U>
      requires Err?
    {
      Err(error)
    }

    function Extract(): T
      requires Ok?
    {
      value
    }
  }

  datatype Option<+T> = None | Some(value: T)

  /** Decimal rendering of a natural number, as `str(n)` gives it. */
  function NatToString(n: nat): (s: string)
    ensures |s| >= 1
    ensures forall i :: 0 <= i < |s| ==> '0' <= s[i] <= '9'
  {
    var d := ['0', '1', '2', '3', '4', '5', '6', '7', '8', '9'][n % 10];
    if n < 10 then [d] else NatToString(n / 10) + [d]
  }

  /**
   * The error of Python's tuple unpacking `a, b, c = v` for a sequence of the
   * wrong length, or success when the length is exactly `expected`.
   */
  function UnpackCheck<T>(v: seq<T>, expected: nat): (r: Result<seq<T>>)
    ensures r.Ok? <==> |v| == expected
    ensures r.Ok? ==> r.value == v
    ensures r.Err? ==> r.error.ValueError?
  {
    if |v| < expected then
      Err(ValueError("not enough values to unpack (expected " + NatToString(expected)
                     + ", got " + NatToString(|v|) + ")"))
    else if |v| > expected then
      Err(ValueError("too many values to unpack (expected " + NatToString(expected) + ")"))
    else
      Ok(v)
  }

  /** numpy's `v[0]` on a one-dimensional array: IndexError when it is empty. */
  function First(v: seq<real>): (r: Result<real>)
    ensures r.Ok? <==> |v| >= 1
    ensures r.Ok? ==> r.value == v[0]
  {
    if |v| == 0 then Err(IndexError("index 0 is out of bounds for axis 0 with size 0"))
    else Ok(v[0])
  }

  /** `[f(x) for x in xs]` for an `f` that may raise: the first failure, or every result in order. */
  function MapAll<A, B>(f: A -> Result<B>, xs: seq<A>): (r: Result<seq<B>>)
    ensures r.Ok? <==> forall i :: 0 <= i < |xs| ==> f(xs[i]).Ok?
    ensures r.Ok? ==> |r.value| == |xs| && forall i :: 0 <= i < |xs| ==> f(xs[i]) == Ok(r.value[i])
  {
    if xs == [] then Ok([])
    else
      var front :- MapAll(f, xs[..|xs| - 1]);
      var last :- f(xs[|xs| - 1]);
      Ok(front + [last])
  }

  /** A failed `MapAll` reports the error of one of the elements. */
  lemma {:induction false} MapAllErrorFrom<A, B>(f: A -> Result<B>, xs: seq<A>)
    requires MapAll(f, xs).Err?
    ensures exists i :: 0 <= i < |xs| && f(xs[i]) == Err(MapAll(f, xs).error)
  {
    var front := xs[..|xs| - 1];
    if MapAll(f, front).Err? {
      MapAllErrorFrom(f, front);
      var i :| 0 <= i < |front| && f(front[i]) == Err(MapAll(f, front).error);
      assert front[i] == xs[i];
    } else {
      assert f(xs[|xs| - 1]) == Err(MapAll(f, xs).error);
    }
  }
}
