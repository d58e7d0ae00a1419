/**
 * Three-component vectors over `real` and the whole-array operations numpy
 * performs on an (N, 3) array of per-body vectors.
 */
module Vectors {

  datatype Vec3 = Vec3(x: real, y: real, z: real)

  const Zero := Vec3(0.0, 0.0, 0.0)

  function Add(a: Vec3, b: Vec3): Vec3 { Vec3(a.x + b.x, a.y + b.y, a.z + b.z) }

  function Sub(a: Vec3, b: Vec3): Vec3 { Vec3(a.x - b.x, a.y - b.y, a.z - b.z) }

  function Neg(a: Vec3): Vec3 { Vec3(-a.x, -a.y, -a.z) }

  function Scale(k: real, a: Vec3): Vec3 { Vec3(k * a.x, k * a.y, k * a.z) }

  /** numpy broadcasting of a scalar: `h` is added to every coordinate. */
  function Shift(a: Vec3, h: real): Vec3 { Vec3(a.x + h, a.y + h, a.z + h) }

  /** Squared Euclidean norm, `(v**2).sum()`. */
  function NormSq(a: Vec3): real { a.x * a.x + a.y * a.y + a.z * a.z }

  /** Column `c` of a row of an (N, 3) array. */
  function Coord(a: Vec3, c: nat): real
    requires c < 3
  {
    if c == 0 then a.x else if c == 1 then a.y else a.z
  }

  lemma NormSqNonNegative(a: Vec3)
    ensures NormSq(a) >= 0.0
  {
    assert a.x * a.x >= 0.0 && a.y * a.y >= 0.0 && a.z * a.z >= 0.0;
  }

  lemma NormSqNeg(a: Vec3)
    ensures NormSq(Neg(a)) == NormSq(a)
  {
    assert (-a.x) * (-a.x) == a.x * a.x;
    assert (-a.y) * (-a.y) == a.y * a.y;
    assert (-a.z) * (-a.z) == a.z * a.z;
  }

  // ---------------------------------------------------------------------------
  // (N, 3) arrays of per-body vectors
  // ---------------------------------------------------------------------------

  /** Element-wise `a + b` of two (N, 3) arrays. */
  function AddAll(a: seq<Vec3>, b: seq<Vec3>): (r: seq<Vec3>)
    requires |a| == |b|
    ensures |r| == |a| && forall i :: 0 <= i < |a| ==> r[i] == Add(a[i], b[i])
  {
    seq(|a|, i requires 0 <= i < |a| => Add(a[i], b[i]))
  }

  /** `a - v` for an (N, 3) array and a (1, 3) row: `v` is taken off every row. */
  function SubRow(a: seq<Vec3>, v: Vec3): (r: seq<Vec3>)
    ensures |r| == |a| && forall i :: 0 <= i < |a| ==> r[i] == Sub(a[i], v)
  {
    seq(|a|, i requires 0 <= i < |a| => Sub(a[i], v))
  }

  /** `k * a` for a scalar `k`. */
  function ScaleAll(k: real, a: seq<Vec3>): (r: seq<Vec3>)
    ensures |r| == |a| && forall i :: 0 <= i < |a| ==> r[i] == Scale(k, a[i])
  {
    seq(|a|, i requires 0 <= i < |a| => Scale(k, a[i]))
  }

  /** `a + h` for a scalar `h`. */
  function ShiftAll(a: seq<Vec3>, h: real): (r: seq<Vec3>)
    ensures |r| == |a| && forall i :: 0 <= i < |a| ==> r[i] == Shift(a[i], h)
  {
    seq(|a|, i requires 0 <= i < |a| => Shift(a[i], h))
  }

  /** `s.sum()` of a vector of reals. */
  function Sum(s: seq<real>): real
  {
    if s == [] then 0.0 else s[0] + Sum(s[1..])
  }

  /** Coordinate `c` of every row, weighted by its mass: the column `(m * x)[:, c]`. */
  function Weighted(x: seq<Vec3>, m: seq<real>, c: nat): seq<real>
    requires |x| == |m| && c < 3
  {
    seq(|x|, i requires 0 <= i < |x| => m[i] * Coord(x[i], c))
  }

  /** `(m * x).sum(axis=0)`: the mass-weighted sum of the rows of `x`, taken coordinate by coordinate. */
  function WeightedSum(x: seq<Vec3>, m: seq<real>): (w: Vec3)
    requires |x| == |m|
    ensures forall c: nat | c < 3 :: Coord(w, c) == Sum(Weighted(x, m, c))
  {
    if x == [] then Zero
    else
      var rest := WeightedSum(x[1..], m[1..]);
      WeightedTail(x, m);
      Add(Scale(m[0], x[0]), rest)
  }

  /** Dropping the first row drops the first weighted coordinate. */
  lemma WeightedTail(x: seq<Vec3>, m: seq<real>)
    requires |x| == |m| && x != []
    ensures forall c: nat | c < 3 :: Weighted(x, m, c)[1..] == Weighted(x[1..], m[1..], c)
  {
    forall c: nat | c < 3
      ensures Weighted(x, m, c)[1..] == Weighted(x[1..], m[1..], c)
    {
      assert forall i :: 0 <= i < |x| - 1 ==> Weighted(x, m, c)[1..][i] == Weighted(x[1..], m[1..], c)[i];
    }
  }

  /** A vector is determined by its three coordinates. */
  lemma CoordsDetermine(a: Vec3, b: Vec3)
    requires forall c: nat | c < 3 :: Coord(a, c) == Coord(b, c)
    ensures a == b
  {
    assert Coord(a, 0) == Coord(b, 0) && Coord(a, 1) == Coord(b, 1) && Coord(a, 2) == Coord(b, 2);
  }

  lemma ScaleSub(k: real, a: Vec3, b: Vec3)
    ensures Scale(k, Sub(a, b)) == Sub(Scale(k, a), Scale(k, b))
  {
  }

  lemma ScaleSumOfScalars(j: real, k: real, a: Vec3)
    ensures Scale(j + k, a) == Add(Scale(j, a), Scale(k, a))
  {
  }

  /** Taking `v` off every row takes `(Σ m_i) v` off the weighted sum. */
  lemma {:induction false} WeightedSumSubRow(x: seq<Vec3>, m: seq<real>, v: Vec3)
    requires |x| == |m|
    ensures WeightedSum(SubRow(x, v), m) == Sub(WeightedSum(x, m), Scale(Sum(m), v))
  {
    if x != [] {
      var y := SubRow(x, v);
      assert y[0] == Sub(x[0], v);
      assert y[1..] == SubRow(x[1..], v);
      WeightedSumSubRow(x[1..], m[1..], v);
      var w := WeightedSum(x[1..], m[1..]);
      var s := Sum(m[1..]);
      var p := Scale(m[0], x[0]);
      var q := Scale(m[0], v);
      var r := Scale(s, v);
      calc {
        WeightedSum(y, m);
        Add(Scale(m[0], Sub(x[0], v)), Sub(w, r));
        { ScaleSub(m[0], x[0], v); }
        Add(Sub(p, q), Sub(w, r));
        Sub(Add(p, w), Add(q, r));
        { ScaleSumOfScalars(m[0], s, v); }
        Sub(WeightedSum(x, m), Scale(Sum(m), v));
      }
    }
  }
}
