/**
 * The colour mappers of the visualisers: each turns a trajectory into one
 * value in `[0, 1]` per point. The Euclidean norm used by the velocity
 * mapper is a parameter (it needs a square root).
 */
module ColorMappers {
  import opened Errors
  import opened Vectors
  import Linspace

  /** `values.max()`: the largest entry. */
  function Max(v: seq<real>): (m: real)
    requires |v| > 0
    ensures (exists i :: 0 <= i < |v| && v[i] == m) && forall i :: 0 <= i < |v| ==> v[i] <= m
  {
    if |v| == 1 then v[0]
    else
      var m := Max(v[..|v| - 1]);
      assert forall i :: 0 <= i < |v| - 1 ==> v[..|v| - 1][i] == v[i];
      if v[|v| - 1] > m then v[|v| - 1] else m
  }

  /** `values.min()`: the smallest entry. */
  function Min(v: seq<real>): (m: real)
    requires |v| > 0
    ensures (exists i :: 0 <= i < |v| && v[i] == m) && forall i :: 0 <= i < |v| ==> m <= v[i]
  {
    if |v| == 1 then v[0]
    else
      var m := Min(v[..|v| - 1]);
      assert forall i :: 0 <= i < |v| - 1 ==> v[..|v| - 1][i] == v[i];
      if v[|v| - 1] < m then v[|v| - 1] else m
  }

  /** `(v - lo) / span` entry by entry. */
  function Rescale(v: seq<real>, lo: real, span: real): (r: seq<real>)
    requires span != 0.0
    ensures |r| == |v|
  {
    if v == [] then [] else Rescale(v[..|v| - 1], lo, span) + [(v[|v| - 1] - lo) / span]
  }

  lemma {:induction false} RescaleAt(v: seq<real>, lo: real, span: real, i: nat)
    requires span != 0.0 && i < |v|
    ensures Rescale(v, lo, span)[i] == (v[i] - lo) / span
  {
    if i < |v| - 1 {
      RescaleAt(v[..|v| - 1], lo, span, i);
    }
  }

  /** The normalisation once the extremes are known. */
  function NormalizeWith(v: seq<real>, lo: real, hi: real): (r: seq<real>)
    ensures |r| == |v|
  {
    if hi == lo then seq(|v|, _ => 0.0) else Rescale(v, lo, hi - lo)
  }

  /**
   * `ColorMapper._normalize`: all zeros when every value is the same,
   * otherwise `(v - min) / (max - min)`. numpy refuses the maximum of an
   * empty array.
   */
  function Normalize(v: seq<real>): (r: Result<seq<real>>)
    ensures r.Ok? <==> |v| > 0
    ensures r.Ok? ==> r.value == NormalizeWith(v, Min(v), Max(v))
    ensures r.Err? ==> r == Err(ValueError("zero-size array to reduction operation maximum which has no identity"))
  {
    if v == [] then Err(ValueError("zero-size array to reduction operation maximum which has no identity"))
    else Ok(NormalizeWith(v, Min(v), Max(v)))
  }

  /** Constant values normalise to zeros. */
  lemma NormalizeConstant(v: seq<real>)
    requires |v| > 0 && forall i :: 0 <= i < |v| ==> v[i] == v[0]
    ensures Normalize(v) == Ok(seq(|v|, _ => 0.0))
  {
    var hi := Max(v);
    var lo := Min(v);
    var i :| 0 <= i < |v| && v[i] == hi;
    var j :| 0 <= j < |v| && v[j] == lo;
  }

  /** Entry `i`: 0 when `lo == hi`, else `(v[i] - lo) / (hi - lo)`. */
  lemma NormalizeWithAt(v: seq<real>, lo: real, hi: real, i: nat)
    requires i < |v|
    ensures hi == lo ==> NormalizeWith(v, lo, hi)[i] == 0.0
    ensures hi != lo ==> NormalizeWith(v, lo, hi)[i] == (v[i] - lo) / (hi - lo)
  {
    if hi != lo {
      RescaleAt(v, lo, hi - lo, i);
    }
  }

  /** Every normalised value lies in `[0, 1]`. */
  lemma NormalizeUnit(v: seq<real>)
    requires |v| > 0
    ensures forall i :: 0 <= i < |v| ==> 0.0 <= Normalize(v).value[i] <= 1.0
  {
    var lo, hi := Min(v), Max(v);
    forall i | 0 <= i < |v| ensures 0.0 <= NormalizeWith(v, lo, hi)[i] <= 1.0 {
      NormalizeWithAt(v, lo, hi, i);
      if hi != lo {
        UnitQuotient(v[i] - lo, hi - lo);
      }
    }
  }

  /** Normalising keeps the order of the values. */
  lemma NormalizeMonotone(v: seq<real>, i: nat, j: nat)
    requires i < |v| && j < |v| && v[i] <= v[j]
    ensures Normalize(v).value[i] <= Normalize(v).value[j]
  {
    var lo, hi := Min(v), Max(v);
    NormalizeWithAt(v, lo, hi, i);
    NormalizeWithAt(v, lo, hi, j);
    if hi != lo {
      QuotientMono(v[i] - lo, v[j] - lo, hi - lo);
    }
  }

  /** When the values differ the minimum maps to 0 and the maximum to 1. */
  lemma NormalizeExtremes(v: seq<real>, i: nat)
    requires i < |v| && Max(v) != Min(v)
    ensures v[i] == Min(v) ==> Normalize(v).value[i] == 0.0
    ensures v[i] == Max(v) ==> Normalize(v).value[i] == 1.0
  {
    var lo, hi := Min(v), Max(v);
    NormalizeWithAt(v, lo, hi, i);
    Quotients(v[i] - lo, hi - lo);
  }

  lemma Quotients(a: real, d: real)
    requires d != 0.0
    ensures a == 0.0 ==> a / d == 0.0
    ensures a == d ==> a / d == 1.0
  {
  }

  lemma UnitQuotient(a: real, d: real)
    requires 0.0 <= a <= d && d > 0.0
    ensures 0.0 <= a / d <= 1.0
  {
  }

  lemma QuotientMono(a: real, b: real, d: real)
    requires a <= b && d > 0.0
    ensures a / d <= b / d
  {
  }

  /** `TimeColorMapper.map`: `n` evenly spaced values from 0 to 1. */
  function TimeMap(trajectory: seq<Vec3>): (r: seq<real>)
    ensures |r| == |trajectory|
  {
    Linspace.Linspace(0.0, 1.0, |trajectory|)
  }

  /** The time colours start at 0, end at 1 and never decrease. */
  lemma TimeMapSpansUnit(trajectory: seq<Vec3>)
    ensures var r := TimeMap(trajectory);
      && (|r| >= 1 ==> r[0] == 0.0)
      && (|r| >= 2 ==> r[|r| - 1] == 1.0)
      && (forall i :: 0 <= i < |r| ==> 0.0 <= r[i] <= 1.0)
      && (forall i :: 0 <= i < |r| - 1 ==> r[i] <= r[i + 1])
  {
    Linspace.Endpoints(0.0, 1.0, |trajectory|);
    Linspace.Bounded(0.0, 1.0, |trajectory|);
  }

  type Axis = i: nat | i < 3

  /** A coordinate mapper remembers the column it colours by. */
  datatype CoordinateMapper = CoordinateMapper(axis: Axis)

  /** `CoordinateColorMapper(axis)`: only 0, 1 and 2 are accepted. */
  function NewCoordinateMapper(axis: int): (r: Result<CoordinateMapper>)
    ensures r.Ok? <==> 0 <= axis < 3
    ensures r.Ok? ==> r.value.axis == axis
    ensures r.Err? ==> r == Err(ValueError("Axis must be 0, 1 or 2"))
  {
    if 0 <= axis < 3 then Ok(CoordinateMapper(axis)) else Err(ValueError("Axis must be 0, 1 or 2"))
  }

  function Component(p: Vec3, axis: Axis): real {
    if axis == 0 then p.x else if axis == 1 then p.y else p.z
  }

  /** `trajectory[:, axis]`. */
  function Column(trajectory: seq<Vec3>, axis: Axis): (r: seq<real>)
    ensures |r| == |trajectory| && forall i :: 0 <= i < |trajectory| ==> r[i] == Component(trajectory[i], axis)
  {
    seq(|trajectory|, i requires 0 <= i < |trajectory| => Component(trajectory[i], axis))
  }

  /** `CoordinateColorMapper.map`: the chosen column, normalised. */
  function CoordinateMap(m: CoordinateMapper, trajectory: seq<Vec3>): (r: Result<seq<real>>)
    ensures r.Ok? <==> |trajectory| > 0
    ensures r.Ok? ==> |r.value| == |trajectory|
  {
    Normalize(Column(trajectory, m.axis))
  }

  /** Points are coloured by their coordinate's rank: a larger coordinate never gets a smaller value. */
  lemma CoordinateMapOrder(m: CoordinateMapper, trajectory: seq<Vec3>, i: nat, j: nat)
    requires i < |trajectory| && j < |trajectory|
    requires Component(trajectory[i], m.axis) <= Component(trajectory[j], m.axis)
    ensures var r := CoordinateMap(m, trajectory).value;
      0.0 <= r[i] <= r[j] <= 1.0
  {
    var c := Column(trajectory, m.axis);
    NormalizeUnit(c);
    NormalizeMonotone(c, i, j);
  }

  /** `np.linalg.norm(np.diff(trajectory, axis=0), axis=1)`: the length of each step. */
  function StepLengths(trajectory: seq<Vec3>, norm: Vec3 -> real): (r: seq<real>)
    ensures |r| == if |trajectory| <= 1 then 0 else |trajectory| - 1
    ensures forall i :: 0 <= i < |trajectory| - 1 ==> r[i] == norm(Sub(trajectory[i + 1], trajectory[i]))
  {
    if |trajectory| <= 1 then []
    else seq(|trajectory| - 1, i requires 0 <= i < |trajectory| - 1 => norm(Sub(trajectory[i + 1], trajectory[i])))
  }

  /**
   * `VelocityColorMapper.map`: the step lengths with the last one repeated
   * (`np.pad(..., (0, 1), "edge")`), normalised. Edge padding of an empty
   * array is refused, so fewer than two points fail.
   */
  function VelocityMap(trajectory: seq<Vec3>, norm: Vec3 -> real): (r: Result<seq<real>>)
    ensures r.Ok? <==> |trajectory| >= 2
    ensures r.Ok? ==> |r.value| == |trajectory|
    ensures r.Err? ==> r.error.ValueError?
  {
    var steps := StepLengths(trajectory, norm);
    if steps == [] then Err(ValueError("can't extend empty axis 0 using modes other than 'constant' or 'empty'"))
    else Normalize(steps + [steps[|steps| - 1]])
  }

  /** A trajectory that never moves is coloured all zeros. */
  lemma StationaryIsZero(trajectory: seq<Vec3>, norm: Vec3 -> real)
    requires |trajectory| >= 2 && norm(Zero) == 0.0
    requires forall i :: 0 <= i < |trajectory| ==> trajectory[i] == trajectory[0]
    ensures VelocityMap(trajectory, norm) == Ok(seq(|trajectory|, _ => 0.0))
  {
    var steps := StepLengths(trajectory, norm);
    forall i | 0 <= i < |steps| ensures steps[i] == 0.0 {
      assert Sub(trajectory[i + 1], trajectory[i]) == Zero;
    }
    var padded := steps + [steps[|steps| - 1]];
    NormalizeConstant(padded);
  }

  /** The last point takes the colour of the last step, and every colour is in `[0, 1]`. */
  lemma VelocityMapShape(trajectory: seq<Vec3>, norm: Vec3 -> real)
    requires |trajectory| >= 2
    ensures var r := VelocityMap(trajectory, norm).value;
      && r[|r| - 1] == r[|r| - 2]
      && forall i :: 0 <= i < |r| ==> 0.0 <= r[i] <= 1.0
  {
    var steps := StepLengths(trajectory, norm);
    var padded := steps + [steps[|steps| - 1]];
    var n := |padded|;
    NormalizeUnit(padded);
    NormalizeMonotone(padded, n - 1, n - 2);
    NormalizeMonotone(padded, n - 2, n - 1);
  }
}
