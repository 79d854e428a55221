/**
 * Three-component state vectors with numpy's element-wise arithmetic,
 * over the reals.
 */
module Vectors {
  import opened Errors

  datatype Vec3 = Vec3(x: real, y: real, z: real)

  const Zero: Vec3 := Vec3(0.0, 0.0, 0.0)

  function Add(a: Vec3, b: Vec3): Vec3 {
    Vec3(a.x + b.x, a.y + b.y, a.z + b.z)
  }

  function Sub(a: Vec3, b: Vec3): Vec3 {
    Vec3(a.x - b.x, a.y - b.y, a.z - b.z)
  }

  function Scale(c: real, a: Vec3): Vec3 {
    Vec3(c * a.x, c * a.y, c * a.z)
  }

  /** `v / d` for a scalar divisor. */
  function Div(a: Vec3, d: real): Vec3
    requires d != 0.0
  {
    Vec3(a.x / d, a.y / d, a.z / d)
  }

  /** The reflection `(x, y, z) -> (-x, -y, z)` about the z-axis. */
  function FlipXY(a: Vec3): Vec3 {
    Vec3(-a.x, -a.y, a.z)
  }

  function Neg(a: Vec3): Vec3 {
    Vec3(-a.x, -a.y, -a.z)
  }

  /** The cyclic permutation `(x, y, z) -> (y, z, x)`. */
  function Rotate(a: Vec3): Vec3 {
    Vec3(a.y, a.z, a.x)
  }

  function ToSeq(a: Vec3): (s: seq<real>)
    ensures |s| == 3 && s[0] == a.x && s[1] == a.y && s[2] == a.z
  {
    [a.x, a.y, a.z]
  }

  /** `x, y, z = v`: succeeds exactly for three components. */
  function FromSeq(v: seq<real>): (r: Result<Vec3>)
    ensures r.Ok? <==> |v| == 3
    ensures r.Ok? ==> ToSeq(r.value) == v
  {
    var u :- UnpackCheck(v, 3);
    Ok(Vec3(u[0], u[1], u[2]))
  }

  /** Dividing after scaling is scaling after dividing. */
  lemma ScaleDiv(c: real, a: Vec3, d: real)
    requires d != 0.0
    ensures Div(Scale(c, a), d) == Scale(c, Div(a, d))
  {
    assert (c * a.x) / d == c * (a.x / d);
    assert (c * a.y) / d == c * (a.y / d);
    assert (c * a.z) / d == c * (a.z / d);
  }
}
