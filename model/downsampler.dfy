/**
 * Trajectory downsampling for plotting: the argument checks, the early
 * returns, the evenly spaced (UNIFORM) selection and the importance-weighted
 * selection. For VELOCITY the model tracks which importance entries are
 * non-zero, which decides whether `numpy.random.choice` refuses to draw;
 * the random draw itself is a parameter: the sorted indices it picked.
 */
module Downsampler {
  import opened Errors
  import Linspace

  datatype CompressionMethod = NoCompression | Uniform | Velocity | Curvature

  /**
   * A numpy array as far as the downsampler looks at it: its shape and, for
   * a two-dimensional array, its rows.
   */
  datatype NdArray = NdArray(shape: seq<nat>, rows: seq<seq<real>>)

  /** What numpy guarantees of a two-dimensional array: `shape[0]` rows of `shape[1]` entries. */
  predicate Consistent(a: NdArray) {
    |a.shape| == 2 ==> a.shape[0] == |a.rows| && forall i :: 0 <= i < |a.rows| ==> |a.rows[i]| == a.shape[1]
  }

  /** `trajectory.ndim != 2 or trajectory.shape[1] != 3` is false. */
  predicate IsNx3(a: NdArray) {
    |a.shape| == 2 && a.shape[1] == 3
  }

  /** `int(n_points * (1 - compression))`: the product is never negative, so truncation is the floor. */
  function Target(n: nat, compression: real): (k: int)
    requires 0.0 <= compression <= 1.0
    ensures 0 <= k <= n
    ensures compression > 0.0 ==> (n > 0 ==> k < n)
  {
    ProductBounds(n, compression);
    (n as real * (1.0 - compression)).Floor
  }

  lemma ProductBounds(n: nat, c: real)
    requires 0.0 <= c <= 1.0
    ensures 0.0 <= n as real * (1.0 - c) <= n as real
    ensures c > 0.0 && n > 0 ==> n as real * (1.0 - c) < n as real
  {
    var x := n as real;
    assert x * (1.0 - c) == x - x * c;
    Linspace.MulNonneg(x, c);
    Linspace.MulNonneg(x, 1.0 - c);
    if c > 0.0 && n > 0 {
      MulPos(x, c);
    }
  }

  lemma MulPos(a: real, b: real)
    requires 0.0 < a && 0.0 < b
    ensures 0.0 < a * b
  {
  }

  /** `np.linspace(0, n - 1, k, dtype=int)`: evenly spaced reals from 0 to `n - 1`, rounded down. */
  function UniformIndices(n: nat, k: nat): (r: seq<int>)
    ensures |r| == k
  {
    var xs := Linspace.Linspace(0.0, (n - 1) as real, k);
    seq(k, i requires 0 <= i < k => xs[i].Floor)
  }

  predicate StrictlyIncreasing(idx: seq<int>) {
    forall i, j :: 0 <= i < j < |idx| ==> idx[i] < idx[j]
  }

  predicate InRange(idx: seq<int>, n: nat) {
    forall i :: 0 <= i < |idx| ==> 0 <= idx[i] < n
  }

  /**
   * What `np.sort(np.random.choice(n, size=k, replace=False, p=...))` yields:
   * `k` distinct indices below `n`, ascending.
   */
  predicate IsDraw(draw: seq<int>, n: nat, k: nat) {
    |draw| == k && InRange(draw, n) && StrictlyIncreasing(draw)
  }

  /** `trajectory[indices]`. */
  function Take(rows: seq<seq<real>>, idx: seq<int>): (r: seq<seq<real>>)
    requires InRange(idx, |rows|)
    ensures |r| == |idx| && forall i :: 0 <= i < |idx| ==> r[i] == rows[idx[i]]
  {
    seq(|idx|, i requires 0 <= i < |idx| => rows[idx[i]])
  }

  /** How the selection is made once the checks and early returns are past. */
  datatype Plan =
    | Unchanged
    | Spaced(k: nat)
    | Weighted(k: nat)

  /** The branches of `_downsample_trajectory` up to the point where indices are chosen. */
  function Decide(a: NdArray, compression: real, mode: CompressionMethod): (r: Result<Plan>)
    ensures r.Err? ==> r.error.ValueError?
    ensures r.Ok? && !r.value.Unchanged? ==>
      (IsNx3(a) && 0.0 < compression <= 1.0 && !mode.NoCompression?
       && r.value.k == Target(|a.rows|, compression) < |a.rows|)
    ensures r.Ok? && r.value.Weighted? ==> |a.rows| >= 3 && (mode.Velocity? || mode.Curvature?)
    ensures r.Ok? && r.value.Spaced? ==> mode.Uniform?
  {
    if !IsNx3(a) then Err(ValueError("Trajectory must be Nx3 array"))
    else if !(0.0 <= compression <= 1.0) then Err(ValueError("Compression must be between 0 and 1"))
    else if compression <= 0.0 || mode.NoCompression? then Ok(Unchanged)
    else
      var n := |a.rows|;
      var k := Target(n, compression);
      if k >= n then Ok(Unchanged)
      else if mode.Velocity? || mode.Curvature? then
        if n < 3 then Ok(Unchanged) else Ok(Weighted(k))
      else Ok(Spaced(k))
  }

  /** Every row has three entries, as in an `N x 3` array. */
  predicate Rows3(rows: seq<seq<real>>) {
    forall i :: 0 <= i < |rows| ==> |rows[i]| == 3
  }

  /**
   * The acceleration `np.diff(np.diff(pos))` at step `i` is not the zero
   * vector; its norm, the speed change, is then positive.
   */
  predicate AccelNonZero(rows: seq<seq<real>>, i: nat)
    requires Rows3(rows) && i + 2 < |rows|
  {
    || (rows[i + 2][0] - rows[i + 1][0]) - (rows[i + 1][0] - rows[i][0]) != 0.0
    || (rows[i + 2][1] - rows[i + 1][1]) - (rows[i + 1][1] - rows[i][1]) != 0.0
    || (rows[i + 2][2] - rows[i + 1][2]) - (rows[i + 1][2] - rows[i][2]) != 0.0
  }

  /**
   * The speed change entry `i` of the importance vector is padded from:
   * `np.pad(.., (1, 1), mode="edge")` repeats the first and the last.
   */
  function PadSource(n: nat, i: nat): (j: nat)
    requires n >= 3 && i < n
    ensures j + 2 < n
    ensures 1 <= i <= n - 2 ==> j == i - 1
  {
    if i == 0 then 0 else if i >= n - 2 then n - 3 else i - 1
  }

  /** VELOCITY's importance (and so its probability) at row `i` is non-zero. */
  predicate ImportanceNonZero(rows: seq<seq<real>>, i: nat)
    requires Rows3(rows) && |rows| >= 3 && i < |rows|
  {
    AccelNonZero(rows, PadSource(|rows|, i))
  }

  /** How many of the first `m` importance entries are non-zero. */
  function NonZeroCount(rows: seq<seq<real>>, m: nat): (c: nat)
    requires Rows3(rows) && |rows| >= 3 && m <= |rows|
    ensures c <= m
  {
    if m == 0 then 0 else NonZeroCount(rows, m - 1) + (if ImportanceNonZero(rows, m - 1) then 1 else 0)
  }

  /** How many of the first `m` accelerations are non-zero. */
  function AccelCount(rows: seq<seq<real>>, m: nat): (c: nat)
    requires Rows3(rows) && m + 2 <= |rows|
    ensures c <= m
  {
    if m == 0 then 0 else AccelCount(rows, m - 1) + (if AccelNonZero(rows, m - 1) then 1 else 0)
  }

  /**
   * `np.random.choice(n, size=k, replace=False, p=importance / sum)` for
   * VELOCITY: an all-zero importance divides 0 by 0 and the probabilities
   * are NaN, which numpy checks before the size, so even `k == 0` is
   * refused; otherwise there must be at least `k` non-zero probabilities.
   * CURVATURE's importance is at least 0.2 everywhere and is never refused.
   */
  function ChoiceRefusal(a: NdArray, mode: CompressionMethod, k: nat): (r: Option<Error>)
    requires Rows3(a.rows) && |a.rows| >= 3
    ensures r.Some? <==> mode.Velocity? && (NonZeroCount(a.rows, |a.rows|) == 0 || NonZeroCount(a.rows, |a.rows|) < k)
    ensures r.Some? ==> r.value.ValueError?
    ensures r.Some? && NonZeroCount(a.rows, |a.rows|) == 0 ==> r == Some(ValueError("probabilities contain NaN"))
  {
    if !mode.Velocity? then None
    else
      var nz := NonZeroCount(a.rows, |a.rows|);
      if nz == 0 then Some(ValueError("probabilities contain NaN"))
      else if nz < k then Some(ValueError("Fewer non-zero entries in p than size"))
      else None
  }

  /** numpy refuses the weighted draw the checks have led to. */
  predicate Refused(a: NdArray, compression: real, mode: CompressionMethod)
    requires Consistent(a)
  {
    var d := Decide(a, compression, mode);
    d.Ok? && d.value.Weighted? && ChoiceRefusal(a, mode, d.value.k).Some?
  }

  /**
   * The draw numpy supplies is a valid one whenever the weighted branch is
   * reached and numpy draws: `k` distinct sorted indices, for VELOCITY only
   * of rows whose probability is non-zero.
   */
  predicate DrawFits(a: NdArray, compression: real, mode: CompressionMethod, draw: seq<int>)
    requires Consistent(a)
  {
    var d := Decide(a, compression, mode);
    d.Ok? && d.value.Weighted? && !Refused(a, compression, mode) ==>
      && IsDraw(draw, |a.rows|, d.value.k)
      && (mode.Velocity? ==> forall i :: 0 <= i < |draw| ==> ImportanceNonZero(a.rows, draw[i]))
  }

  /**
   * `_downsample_trajectory(trajectory, compression, mode)`, with `draw`
   * standing for the sorted random indices of the weighted methods.
   */
  function Downsample(a: NdArray, compression: real, mode: CompressionMethod, draw: seq<int>): (r: Result<NdArray>)
    requires Consistent(a) && DrawFits(a, compression, mode, draw)
    ensures r.Err? <==> Decide(a, compression, mode).Err? || Refused(a, compression, mode)
    ensures r.Err? ==> r.error.ValueError?
    ensures r.Ok? ==> |r.value.shape| == 2 && r.value.shape[1] == 3 && r.value.shape[0] == |r.value.rows|
  {
    var plan :- Decide(a, compression, mode);
    match plan
    case Unchanged => Ok(a)
    case Spaced(k) =>
      UniformInRange(|a.rows|, k);
      Ok(NdArray([k, 3], Take(a.rows, UniformIndices(|a.rows|, k))))
    case Weighted(k) =>
      match ChoiceRefusal(a, mode, k)
      case Some(e) => Err(e)
      case None => Ok(NdArray([k, 3], Take(a.rows, draw)))
  }

  /**
   * The padded importance has the accelerations' non-zero entries, plus the
   * first and the last one again.
   */
  lemma NonZeroCountPadded(rows: seq<seq<real>>)
    requires Rows3(rows) && |rows| >= 3
    ensures NonZeroCount(rows, |rows|)
         == (if AccelNonZero(rows, 0) then 1 else 0) + AccelCount(rows, |rows| - 2)
            + (if AccelNonZero(rows, |rows| - 3) then 1 else 0)
  {
    NonZeroCountPrefix(rows, |rows| - 1);
  }

  lemma {:induction false} NonZeroCountPrefix(rows: seq<seq<real>>, m: nat)
    requires Rows3(rows) && |rows| >= 3 && 1 <= m <= |rows| - 1
    ensures NonZeroCount(rows, m) == (if AccelNonZero(rows, 0) then 1 else 0) + AccelCount(rows, m - 1)
  {
    if m > 1 {
      NonZeroCountPrefix(rows, m - 1);
      assert PadSource(|rows|, m - 1) == m - 2;
    }
  }

  /**
   * VELOCITY on a trajectory that moves in a straight line at constant
   * velocity `v`: every speed change is zero, the probabilities are NaN and
   * numpy refuses.
   */
  lemma ConstantVelocityRefused(a: NdArray, compression: real, v: seq<real>, draw: seq<int>)
    requires Consistent(a) && IsNx3(a) && 0.0 < compression <= 1.0 && |a.rows| >= 3 && |v| == 3
    requires forall i, j :: 0 <= i < |a.rows| && 0 <= j < 3 ==> a.rows[i][j] == a.rows[0][j] + (i as real) * v[j]
    ensures Refused(a, compression, Velocity) && DrawFits(a, compression, Velocity, draw)
    ensures Downsample(a, compression, Velocity, draw) == Err(ValueError("probabilities contain NaN"))
  {
    NoneNonZero(a.rows, v, |a.rows|);
  }

  lemma {:induction false} NoneNonZero(rows: seq<seq<real>>, v: seq<real>, m: nat)
    requires Rows3(rows) && |rows| >= 3 && m <= |rows| && |v| == 3
    requires forall i, j :: 0 <= i < |rows| && 0 <= j < 3 ==> rows[i][j] == rows[0][j] + (i as real) * v[j]
    ensures NonZeroCount(rows, m) == 0
  {
    if m > 0 {
      NoneNonZero(rows, v, m - 1);
      StraightAt(rows, v, PadSource(|rows|, m - 1));
    }
  }

  /** On a straight line at constant velocity the acceleration at `i` is zero. */
  lemma StraightAt(rows: seq<seq<real>>, v: seq<real>, i: nat)
    requires Rows3(rows) && i + 2 < |rows| && |v| == 3
    requires forall i, j :: 0 <= i < |rows| && 0 <= j < 3 ==> rows[i][j] == rows[0][j] + (i as real) * v[j]
    ensures !AccelNonZero(rows, i)
  {
    var p0, p1, p2 := rows[i], rows[i + 1], rows[i + 2];
    var t := i as real;
    forall j | 0 <= j < 3 ensures (p2[j] - p1[j]) - (p1[j] - p0[j]) == 0.0 {
      assert p0[j] == rows[0][j] + t * v[j];
      assert p1[j] == rows[0][j] + (t + 1.0) * v[j];
      assert p2[j] == rows[0][j] + (t + 2.0) * v[j];
      StraightStep(rows[0][j], t, v[j]);
    }
  }

  lemma StraightStep(o: real, t: real, v: real)
    ensures ((o + (t + 2.0) * v) - (o + (t + 1.0) * v)) - ((o + (t + 1.0) * v) - (o + t * v)) == 0.0
  {
  }

  /**
   * VELOCITY on a trajectory that bends at fewer than `target - 2` steps
   * (with some bend) is refused: too few rows have a non-zero probability.
   */
  lemma FewBendsRefused(a: NdArray, compression: real, draw: seq<int>)
    requires Consistent(a) && IsNx3(a) && 0.0 < compression <= 1.0 && |a.rows| >= 3
    requires Rows3(a.rows) && 0 < AccelCount(a.rows, |a.rows| - 2)
    requires AccelCount(a.rows, |a.rows| - 2) + 2 < Target(|a.rows|, compression)
    ensures Refused(a, compression, Velocity) && DrawFits(a, compression, Velocity, draw)
    ensures Downsample(a, compression, Velocity, draw) == Err(ValueError("Fewer non-zero entries in p than size"))
  {
    NonZeroCountPadded(a.rows);
  }

  /** The shape is checked before the compression ratio. */
  lemma ShapeCheckedFirst(a: NdArray, compression: real, mode: CompressionMethod, draw: seq<int>)
    requires Consistent(a) && !IsNx3(a)
    ensures Downsample(a, compression, mode, draw) == Err(ValueError("Trajectory must be Nx3 array"))
  {
  }

  /** A ratio outside `[0, 1]` is refused for an `N x 3` input. */
  lemma CompressionOutOfRange(a: NdArray, compression: real, mode: CompressionMethod, draw: seq<int>)
    requires Consistent(a) && IsNx3(a) && !(0.0 <= compression <= 1.0)
    ensures Downsample(a, compression, mode, draw) == Err(ValueError("Compression must be between 0 and 1"))
  {
  }

  /** No compression, or method NONE, returns the input itself. */
  lemma NoCompressionIsIdentity(a: NdArray, compression: real, mode: CompressionMethod, draw: seq<int>)
    requires Consistent(a) && IsNx3(a) && 0.0 <= compression <= 1.0
    requires compression == 0.0 || mode.NoCompression?
    ensures Downsample(a, compression, mode, draw) == Ok(a)
  {
  }

  /** Short inputs are returned as they are by the weighted methods. */
  lemma WeightedKeepsShortInput(a: NdArray, compression: real, mode: CompressionMethod, draw: seq<int>)
    requires Consistent(a) && IsNx3(a) && 0.0 <= compression <= 1.0
    requires (mode.Velocity? || mode.Curvature?) && |a.rows| < 3
    ensures Downsample(a, compression, mode, draw) == Ok(a)
  {
  }

  /**
   * UNIFORM keeps `target` rows: the first row, the last row when two or more
   * are kept, and rows at strictly increasing positions in between.
   */
  lemma UniformSelection(a: NdArray, compression: real, draw: seq<int>)
    requires Consistent(a) && IsNx3(a) && 0.0 < compression <= 1.0
    requires Target(|a.rows|, compression) < |a.rows|
    ensures var k := Target(|a.rows|, compression);
      var idx := UniformIndices(|a.rows|, k);
      && InRange(idx, |a.rows|) && StrictlyIncreasing(idx)
      && Downsample(a, compression, Uniform, draw) == Ok(NdArray([k, 3], Take(a.rows, idx)))
      && (k >= 1 ==> idx[0] == 0)
      && (k >= 2 ==> idx[k - 1] == |a.rows| - 1)
  {
    var n := |a.rows|;
    var k := Target(n, compression);
    UniformInRange(n, k);
    UniformIncreasing(n, k);
    Linspace.Endpoints(0.0, (n - 1) as real, k);
  }

  /**
   * The weighted methods fail exactly when numpy refuses to draw; otherwise
   * they keep `target` rows of the input, in their original order, and for
   * VELOCITY only rows whose probability is non-zero.
   */
  lemma WeightedSelection(a: NdArray, compression: real, mode: CompressionMethod, draw: seq<int>)
    requires Consistent(a) && DrawFits(a, compression, mode, draw)
    requires Decide(a, compression, mode).Ok? && Decide(a, compression, mode).value.Weighted?
    ensures var r := Downsample(a, compression, mode, draw);
      && (r.Ok? <==> !Refused(a, compression, mode))
      && (r.Ok? ==>
            && |r.value.rows| == Decide(a, compression, mode).value.k < |a.rows|
            && (forall i :: 0 <= i < |r.value.rows| ==> r.value.rows[i] == a.rows[draw[i]])
            && (forall i, j :: 0 <= i < j < |draw| ==> draw[i] < draw[j])
            && (mode.Velocity? ==> forall i :: 0 <= i < |draw| ==> ImportanceNonZero(a.rows, draw[i])))
  {
  }

  /** Every row of a result has three entries. */
  lemma RowsOfThree(a: NdArray, compression: real, mode: CompressionMethod, draw: seq<int>)
    requires Consistent(a) && DrawFits(a, compression, mode, draw)
    requires Downsample(a, compression, mode, draw).Ok?
    ensures var rows := Downsample(a, compression, mode, draw).value.rows;
      forall i :: 0 <= i < |rows| ==> |rows[i]| == 3
  {
    var plan := Decide(a, compression, mode).value;
    var r := Downsample(a, compression, mode, draw).value;
    if plan.Spaced? {
      UniformInRange(|a.rows|, plan.k);
      forall i | 0 <= i < |r.rows| ensures |r.rows[i]| == 3 {
        assert r.rows[i] == a.rows[UniformIndices(|a.rows|, plan.k)[i]];
      }
    } else if plan.Weighted? {
      forall i | 0 <= i < |r.rows| ensures |r.rows[i]| == 3 {
        assert r.rows[i] == a.rows[draw[i]];
      }
    }
  }

  /** The rounded-down positions lie in `[0, n)`. */
  lemma UniformInRange(n: nat, k: nat)
    requires k < n
    ensures InRange(UniformIndices(n, k), n)
  {
    var top := (n - 1) as real;
    var xs := Linspace.Linspace(0.0, top, k);
    Linspace.Bounded(0.0, top, k);
    forall i | 0 <= i < k ensures 0 <= UniformIndices(n, k)[i] < n {
      assert 0.0 <= xs[i] <= top;
    }
  }

  /**
   * Fewer kept rows than rows means a spacing above 1, so neighbouring
   * positions round down to different integers.
   */
  lemma UniformIncreasing(n: nat, k: nat)
    requires k < n
    ensures StrictlyIncreasing(UniformIndices(n, k))
  {
    var idx := UniformIndices(n, k);
    if k >= 2 {
      var top := (n - 1) as real;
      var xs := Linspace.Linspace(0.0, top, k);
      var step := top / ((k - 1) as real);
      assert step > 1.0 by {
        StepAboveOne(top, (k - 1) as real);
      }
      forall i | 0 <= i < k - 1 ensures idx[i] < idx[i + 1] {
        Linspace.Gap(0.0, top, k, i);
        FloorStep(xs[i], xs[i + 1]);
      }
      IncreasingFromNeighbours(idx);
    }
  }

  lemma StepAboveOne(top: real, d: real)
    requires 0.0 < d < top
    ensures top / d > 1.0
  {
  }

  lemma FloorStep(x: real, y: real)
    requires y >= x + 1.0
    ensures x.Floor < y.Floor
  {
  }

  lemma {:induction false} IncreasingFromNeighbours(idx: seq<int>)
    requires forall i :: 0 <= i < |idx| - 1 ==> idx[i] < idx[i + 1]
    ensures StrictlyIncreasing(idx)
  {
    if |idx| >= 2 {
      var front := idx[..|idx| - 1];
      assert forall i :: 0 <= i < |front| - 1 ==> front[i] < front[i + 1] by {
        forall i | 0 <= i < |front| - 1 ensures front[i] < front[i + 1] {
          assert front[i] == idx[i] && front[i + 1] == idx[i + 1];
        }
      }
      IncreasingFromNeighbours(front);
      forall i, j | 0 <= i < j < |idx| ensures idx[i] < idx[j] {
        if j < |idx| - 1 {
          assert front[i] == idx[i] && front[j] == idx[j];
        } else if i < j - 1 {
          assert front[i] == idx[i] && front[j - 1] == idx[j - 1];
        }
      }
    }
  }
}
