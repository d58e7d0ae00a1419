/**
 * The array helpers of the simulator: nearest-value lookup, centre of mass,
 * pairwise separations, the guarded escape-speed sum, the Runge-Kutta weight
 * combination, the grid draw of random speeds and the "missing file is an
 * empty state" rule of the state loader.
 */
module Functions {
  import opened Wrappers
  import opened Vectors
  import opened Floats
  import Grids

  // ---------------------------------------------------------------------------
  // findIdx
  // ---------------------------------------------------------------------------

  /** `np.abs(a - b)` for one pair of values. */
  function Dist(a: real, b: real): (r: real)
    ensures r >= 0.0 && (r == a - b || r == b - a)
  {
    if a >= b then a - b else b - a
  }

  /** `d.argmin()`: the first index holding the smallest entry. */
  function ArgMin(d: seq<real>): (k: nat)
    requires |d| > 0
    ensures k < |d|
    ensures forall j :: 0 <= j < |d| ==> d[k] <= d[j]
    ensures forall j :: 0 <= j < k ==> d[j] > d[k]
  {
    if |d| == 1 then 0
    else
      var k := ArgMin(d[..|d| - 1]);
      if d[|d| - 1] < d[k] then |d| - 1 else k
  }

  /**
   * `np.abs(array - value).argmin()`: the index of the entry nearest to
   * `value`, the lowest such index on ties; numpy raises for an empty array.
   */
  function FindIdx(value: real, values: seq<real>): (r: Option<nat>)
    ensures r.Some? <==> |values| > 0
    ensures r.Some? ==> r.value < |values|
    ensures r.Some? ==> forall j :: 0 <= j < |values| ==> Dist(values[r.value], value) <= Dist(values[j], value)
    ensures r.Some? ==> forall j :: 0 <= j < r.value ==> Dist(values[j], value) > Dist(values[r.value], value)
  {
    if |values| == 0 then None
    else
      var d := seq(|values|, i requires 0 <= i < |values| => Dist(values[i], value));
      assert forall j :: 0 <= j < |values| ==> d[j] == Dist(values[j], value);
      Some(ArgMin(d))
  }

  // ---------------------------------------------------------------------------
  // findCM and recentring
  // ---------------------------------------------------------------------------

  /**
   * `(m * x).sum(axis=0) / m.sum()`, per coordinate. With a total mass of
   * zero numpy produces NaN or infinities; the model reports `None`.
   */
  function FindCM(x: seq<Vec3>, m: seq<real>): (r: Option<Vec3>)
    requires |x| == |m|
    ensures r.Some? <==> Sum(m) != 0.0
    ensures r.Some? ==> Scale(Sum(m), r.value) == WeightedSum(x, m)
  {
    var total := Sum(m);
    if total == 0.0 then None
    else
      var w := WeightedSum(x, m);
      Some(Vec3(w.x / total, w.y / total, w.z / total))
  }

  /**
   * `x -= findCM(x, m)`: after subtracting the centre from every position
   * the mass-weighted sum of the positions is the zero vector, so the
   * centre of the recentred system is the origin.
   */
  lemma RecentredCentreIsOrigin(x: seq<Vec3>, m: seq<real>)
    requires |x| == |m| && FindCM(x, m).Some?
    ensures WeightedSum(SubRow(x, FindCM(x, m).value), m) == Zero
    ensures FindCM(SubRow(x, FindCM(x, m).value), m) == Some(Zero)
  {
    var c := FindCM(x, m).value;
    var w := WeightedSum(x, m);
    assert Scale(Sum(m), c) == w;
    WeightedSumSubRow(x, m, c);
    assert WeightedSum(SubRow(x, c), m) == Sub(w, w);
  }

  // ---------------------------------------------------------------------------
  // pairwise separations
  // ---------------------------------------------------------------------------

  /** `x - x[:, None, :]`: entry `[i][j]` is the vector from body `i` to body `j`. */
  function PairwiseDifferenceVector(x: seq<Vec3>): (d: seq<seq<Vec3>>)
    ensures |d| == |x| && forall i :: 0 <= i < |x| ==> |d[i]| == |x|
    ensures forall i, j :: 0 <= i < |x| && 0 <= j < |x| ==> d[i][j] == Sub(x[j], x[i])
  {
    seq(|x|, i requires 0 <= i < |x| => seq(|x|, j requires 0 <= j < |x| => Sub(x[j], x[i])))
  }

  lemma PairwiseDifferenceAntisymmetric(x: seq<Vec3>, i: nat, j: nat)
    requires i < |x| && j < |x|
    ensures PairwiseDifferenceVector(x)[i][j] == Neg(PairwiseDifferenceVector(x)[j][i])
    ensures PairwiseDifferenceVector(x)[i][i] == Zero
  {
  }

  /** `(d**2).sum(axis=2)`: the squared length of every pairwise vector. */
  function PairwiseDistanceSq(d: seq<seq<Vec3>>): (r: seq<seq<real>>)
    ensures |r| == |d| && forall i :: 0 <= i < |d| ==> |r[i]| == |d[i]|
    ensures forall i, j :: 0 <= i < |d| && 0 <= j < |d[i]| ==> r[i][j] == NormSq(d[i][j])
  {
    seq(|d|, i requires 0 <= i < |d| => seq(|d[i]|, j requires 0 <= j < |d[i]| => NormSq(d[i][j])))
  }

  /** Squared separations are non-negative. */
  lemma PairwiseDistanceSqNonNegative(x: seq<Vec3>, i: nat, j: nat)
    requires i < |x| && j < |x|
    ensures PairwiseDistanceSq(PairwiseDifferenceVector(x))[i][j] >= 0.0
  {
    var r := PairwiseDistanceSq(PairwiseDifferenceVector(x));
    var v := Sub(x[j], x[i]);
    assert r[i][j] == NormSq(v);
    NormSqNonNegative(v);
  }

  /** The squared separation of `i` from `j` is that of `j` from `i`. */
  lemma PairwiseDistanceSqSymmetric(x: seq<Vec3>, i: nat, j: nat)
    requires i < |x| && j < |x|
    ensures PairwiseDistanceSq(PairwiseDifferenceVector(x))[i][j] == PairwiseDistanceSq(PairwiseDifferenceVector(x))[j][i]
  {
    var d := PairwiseDifferenceVector(x);
    var r := PairwiseDistanceSq(d);
    var v := Sub(x[j], x[i]);
    assert d[j][i] == Neg(v);
    NormSqNeg(v);
    assert r[i][j] == NormSq(d[i][j]);
    assert r[j][i] == NormSq(d[j][i]);
  }

  /** Every body is at squared separation zero from itself. */
  lemma PairwiseDistanceSqDiagonal(x: seq<Vec3>, i: nat)
    requires i < |x|
    ensures PairwiseDistanceSq(PairwiseDifferenceVector(x))[i][i] == 0.0
  {
    assert PairwiseDifferenceVector(x)[i][i] == Zero;
  }

  /**
   * `np.sqrt((d**2).sum(axis=2))`, with the square root passed in as `root`
   * (floating-point square roots are not modelled).
   */
  function PairwiseDistance(d: seq<seq<Vec3>>, root: real -> real): (r: seq<seq<real>>)
    ensures |r| == |d| && forall i :: 0 <= i < |d| ==> |r[i]| == |d[i]|
    ensures forall i, j :: 0 <= i < |d| && 0 <= j < |d[i]| ==> r[i][j] == root(PairwiseDistanceSq(d)[i][j])
  {
    seq(|d|, i requires 0 <= i < |d| => seq(|d[i]|, j requires 0 <= j < |d[i]| => root(NormSq(d[i][j]))))
  }

  /** The (N, N) distance matrix of the positions `x`. */
  function Distances(x: seq<Vec3>, root: real -> real): (r: seq<seq<real>>)
    ensures IsMatrix(r, |x|)
    ensures forall i, j :: 0 <= i < |x| && 0 <= j < |x| ==> r[i][j] == root(NormSq(Sub(x[j], x[i])))
  {
    var d := PairwiseDifferenceVector(x);
    var r := PairwiseDistance(d, root);
    assert forall i, j :: 0 <= i < |x| && 0 <= j < |x| ==> r[i][j] == root(NormSq(d[i][j]));
    r
  }

  /** What the model needs of a square root: `sqrt(0) == 0` and non-negative results. */
  ghost predicate IsSquareRoot(root: real -> real)
  {
    root(0.0) == 0.0 && forall t :: t >= 0.0 ==> root(t) >= 0.0
  }

  // ---------------------------------------------------------------------------
  // escapeSpeed
  // ---------------------------------------------------------------------------

  predicate IsMatrix(d: seq<seq<real>>, n: nat)
  {
    |d| == n && forall i :: 0 <= i < n ==> |d[i]| == n
  }

  /** One entry of `m_i1 / x_ij + m_i1.T / x_ij` in IEEE arithmetic. */
  function Quotients(mi: real, mj: real, d: real): (q: Float)
    ensures d != 0.0 ==> q == Finite(mi / d + mj / d)
    ensures d == 0.0 ==> !q.Finite?
  {
    Plus(Divide(mi, d), Divide(mj, d))
  }

  /** One entry of `m_i1 / x_ij + m_i1.T / x_ij` after `nan_to_num(posinf=0)`. */
  function Term(mi: real, mj: real, d: real): (r: real)
    ensures d != 0.0 ==> r == mi / d + mj / d
    ensures d == 0.0 ==> r == if mi < 0.0 && mj < 0.0 then -MaxFloat else 0.0
    ensures mi >= 0.0 && mj >= 0.0 && d >= 0.0 ==> r >= 0.0
  {
    NanToNum(Quotients(mi, mj, d))
  }

  /**
   * `alpha_ij.sum(axis=1)[i]` over the first `k` columns; with non-negative
   * masses and distances it is a non-negative number.
   */
  function Alpha(m: seq<real>, dist: seq<seq<real>>, i: nat, k: nat): (r: real)
    requires IsMatrix(dist, |m|) && i < |m| && k <= |m|
    ensures (forall j :: 0 <= j < |m| ==> m[j] >= 0.0) && (forall j :: 0 <= j < k ==> dist[i][j] >= 0.0) ==> r >= 0.0
  {
    if k == 0 then 0.0 else Alpha(m, dist, i, k - 1) + Term(m[i], m[k - 1], dist[i][k - 1])
  }

  /**
   * The sum the escape speed is meant to take: `(m_i + m_j) / d_ij` over the
   * pairs at a non-zero distance, every zero-distance pair contributing 0.
   */
  function ReferenceAlpha(m: seq<real>, dist: seq<seq<real>>, i: nat, k: nat): real
    requires IsMatrix(dist, |m|) && i < |m| && k <= |m|
  {
    if k == 0 then 0.0
    else
      var d := dist[i][k - 1];
      ReferenceAlpha(m, dist, i, k - 1) + (if d == 0.0 then 0.0 else (m[i] + m[k - 1]) / d)
  }

  /** `m_i1 / x_ij + m_i1.T / x_ij` in IEEE arithmetic, in a fresh (N, N) array. */
  method PairTerms(m: seq<real>, dist: seq<seq<real>>) returns (alpha: array2<Float>)
    requires IsMatrix(dist, |m|)
    ensures fresh(alpha) && alpha.Length0 == |m| && alpha.Length1 == |m|
    ensures forall p, q :: 0 <= p < |m| && 0 <= q < |m| ==>
      alpha[p, q] == Quotients(m[p], m[q], dist[p][q])
  {
    var n := |m|;
    alpha := new Float[n, n];
    for i := 0 to n
      invariant forall p, q :: 0 <= p < i && 0 <= q < n ==> alpha[p, q] == Quotients(m[p], m[q], dist[p][q])
    {
      FillRow(alpha, m, dist, i);
    }
  }

  /** Row `i` of `PairTerms`; the other rows are left as they are. */
  method FillRow(alpha: array2<Float>, m: seq<real>, dist: seq<seq<real>>, i: nat)
    requires IsMatrix(dist, |m|) && alpha.Length0 == |m| && alpha.Length1 == |m| && i < |m|
    modifies alpha
    ensures forall q :: 0 <= q < |m| ==> alpha[i, q] == Quotients(m[i], m[q], dist[i][q])
    ensures forall p, q :: 0 <= p < |m| && p != i && 0 <= q < |m| ==> alpha[p, q] == old(alpha[p, q])
  {
    for j := 0 to |m|
      invariant forall q :: 0 <= q < j ==> alpha[i, q] == Quotients(m[i], m[q], dist[i][q])
      invariant forall p, q :: 0 <= p < |m| && p != i && 0 <= q < |m| ==> alpha[p, q] == old(alpha[p, q])
    {
      alpha[i, j] := Quotients(m[i], m[j], dist[i][j]);
    }
  }

  /** The column `alpha_i1` of guarded row sums. */
  function AlphaRows(m: seq<real>, dist: seq<seq<real>>): (a: seq<real>)
    requires IsMatrix(dist, |m|)
    ensures |a| == |m| && forall i :: 0 <= i < |m| ==> a[i] == Alpha(m, dist, i, |m|)
  {
    seq(|m|, i requires 0 <= i < |m| => Alpha(m, dist, i, |m|))
  }

  /** `2 * G * alpha`, the square of an escape speed. */
  function Radicand(G: real, alpha: real): real
  {
    2.0 * G * alpha
  }

  /** `np.sqrt(2 * G * alpha_i1)`, with the square root passed in as `root`. */
  function SpeedsFromAlpha(G: real, root: real -> real, a: seq<real>): (v: seq<real>)
    ensures |v| == |a| && forall i :: 0 <= i < |a| ==> v[i] == root(Radicand(G, a[i]))
  {
    seq(|a|, i requires 0 <= i < |a| => root(Radicand(G, a[i])))
  }

  /**
   * `alpha_ij.sum(axis=1)` for an array whose infinities and NaNs have been
   * zeroed: row `i` sums to `Alpha(m, dist, i, N)`.
   */
  method RowSums(alpha: array2<Float>, m: seq<real>, dist: seq<seq<real>>) returns (sums: seq<real>)
    requires IsMatrix(dist, |m|) && alpha.Length0 == |m| && alpha.Length1 == |m|
    requires forall p, q :: 0 <= p < |m| && 0 <= q < |m| ==> alpha[p, q] == Finite(Term(m[p], m[q], dist[p][q]))
    ensures sums == AlphaRows(m, dist)
  {
    var n := |m|;
    sums := [];
    for i := 0 to n
      invariant |sums| == i
      invariant forall p :: 0 <= p < i ==> sums[p] == Alpha(m, dist, p, n)
    {
      var acc := 0.0;
      for j := 0 to n
        invariant acc == Alpha(m, dist, i, j)
      {
        acc := acc + alpha[i, j].v;
      }
      sums := sums + [acc];
    }
  }

  /**
   * `escapeSpeed(x, m)`: the square root of twice `G` times the guarded sum
   * `alpha_i` of `(m_i + m_j) / d_ij`. The divisions are done in IEEE
   * arithmetic and their infinities and NaNs zeroed in place before the
   * rows are summed.
   */
  method EscapeSpeed(x: seq<Vec3>, m: seq<real>, G: real, root: real -> real) returns (speed: seq<real>)
    requires |x| == |m|
    ensures speed == SpeedsFromAlpha(G, root, AlphaRows(m, Distances(x, root)))
  {
    // N x N matrix of separations
    var xij := Distances(x, root);
    // IEEE quotients, whose infinities and NaNs are then replaced in place
    var alpha := PairTerms(m, xij);
    NanToNumInPlace(alpha);
    var alphaRows := RowSums(alpha, m, xij);
    speed := SpeedsFromAlpha(G, root, alphaRows);
  }

  /** For non-negative masses a zero distance contributes 0 and any other `(m_i + m_j) / d`. */
  lemma TermValue(mi: real, mj: real, d: real)
    requires mi >= 0.0 && mj >= 0.0
    ensures Term(mi, mj, d) == if d == 0.0 then 0.0 else (mi + mj) / d
  {
    if d != 0.0 {
      assert mi / d + mj / d == (mi + mj) / d;
    }
  }

  /** With non-negative masses the guarded sum is the intended one. */
  lemma {:induction false} AlphaIsReference(m: seq<real>, dist: seq<seq<real>>, i: nat, k: nat)
    requires IsMatrix(dist, |m|) && i < |m| && k <= |m|
    requires forall j :: 0 <= j < |m| ==> m[j] >= 0.0
    ensures Alpha(m, dist, i, k) == ReferenceAlpha(m, dist, i, k)
  {
    if k > 0 {
      AlphaIsReference(m, dist, i, k - 1);
      TermValue(m[i], m[k - 1], dist[i][k - 1]);
    }
  }

  /** A body is at distance `sqrt(0) == 0` from itself. */
  lemma DistancesDiagonal(x: seq<Vec3>, root: real -> real, i: nat)
    requires i < |x| && IsSquareRoot(root)
    ensures Distances(x, root)[i][i] == 0.0
  {
    var d := Distances(x, root);
    assert d[i][i] == root(NormSq(Sub(x[i], x[i])));
    assert Sub(x[i], x[i]) == Zero;
  }

  /**
   * On the diagonal a body's own `m_i / 0` is an infinity for a positive
   * mass, and `nan_to_num(posinf=0)` zeroes it, so it does not enter the sum.
   */
  lemma DiagonalTermZeroed(mi: real)
    requires mi > 0.0
    ensures Divide(mi, 0.0) == PosInf
    ensures Plus(Divide(mi, 0.0), Divide(mi, 0.0)) == PosInf
    ensures Term(mi, mi, 0.0) == 0.0
  {
  }

  /** A square root gives non-negative distances. */
  lemma DistancesNonNegative(x: seq<Vec3>, root: real -> real, i: nat, j: nat)
    requires IsSquareRoot(root) && i < |x| && j < |x|
    ensures Distances(x, root)[i][j] >= 0.0
  {
    NormSqNonNegative(Sub(x[j], x[i]));
  }

  /**
   * For a non-negative `G`, masses and distances the square root is taken of
   * a non-negative number, so `escapeSpeed` is real.
   */
  lemma EscapeSpeedRadicandNonNegative(m: seq<real>, dist: seq<seq<real>>, G: real, i: nat)
    requires IsMatrix(dist, |m|) && i < |m| && G >= 0.0
    requires forall j :: 0 <= j < |m| ==> m[j] >= 0.0
    requires forall j :: 0 <= j < |m| ==> dist[i][j] >= 0.0
    ensures Radicand(G, AlphaRows(m, dist)[i]) >= 0.0
  {
    var a := AlphaRows(m, dist)[i];
    assert a == Alpha(m, dist, i, |m|);
    RadicandNonNegative(G, a);
  }

  lemma RadicandNonNegative(G: real, a: real)
    requires G >= 0.0 && a >= 0.0
    ensures Radicand(G, a) >= 0.0
  {
    assert Radicand(G, a) == (2.0 * G) * a;
    Grids.MulNonNegative(2.0 * G, a);
  }

  // ---------------------------------------------------------------------------
  // RungeKutta4
  // ---------------------------------------------------------------------------

  /**
   * `RungeKutta4(f, dt, x)`: `dt * (k1 + 2*k23 + 2*k23 + k4) / 6` where `f` is
   * sampled at `x`, once at `x + dt/2` (that value serving as both middle
   * slopes) and at `x + dt`; numpy adds the scalar to every coordinate.
   */
  function RungeKutta4(f: seq<Vec3> -> seq<Vec3>, dt: real, x: seq<Vec3>): (dy: seq<Vec3>)
    requires |f(x)| == |x| && |f(ShiftAll(x, dt / 2.0))| == |x| && |f(ShiftAll(x, dt))| == |x|
    ensures |dy| == |x|
    ensures forall i :: 0 <= i < |x| ==>
      dy[i] == Scale(dt / 6.0, Add(Add(f(x)[i], Scale(4.0, f(ShiftAll(x, dt / 2.0))[i])), f(ShiftAll(x, dt))[i]))
  {
    var k1 := f(x);
    var k23 := f(ShiftAll(x, dt / 2.0));
    var k4 := f(ShiftAll(x, dt));
    seq(|x|, i requires 0 <= i < |x| =>
      Scale(1.0 / 6.0, Scale(dt, Add(Add(Add(k1[i], Scale(2.0, k23[i])), Scale(2.0, k23[i])), k4[i]))))
  }

  /** The weights sum to 6: a constant slope `c` gives the increment `dt * c`. */
  lemma RungeKutta4Constant(c: seq<Vec3>, dt: real, x: seq<Vec3>)
    requires |c| == |x|
    ensures RungeKutta4(y => c, dt, x) == ScaleAll(dt, c)
  {
    var dy := RungeKutta4(y => c, dt, x);
    forall i | 0 <= i < |x|
      ensures dy[i] == Scale(dt, c[i])
    {
      var v := c[i];
      assert dt / 6.0 * (v.x + 4.0 * v.x + v.x) == dt * v.x;
      assert dt / 6.0 * (v.y + 4.0 * v.y + v.y) == dt * v.y;
      assert dt / 6.0 * (v.z + 4.0 * v.z + v.z) == dt * v.z;
    }
  }

  // ---------------------------------------------------------------------------
  // randomSpeed
  // ---------------------------------------------------------------------------

  /** numpy's error for an index outside an array of `size` entries. */
  datatype IndexError = IndexError(index: nat, size: nat)

  /**
   * `randomSpeed(maxSpeed_i1)`: for every body a grid of `speedCount` speeds
   * from `speedMin` to that body's maximum, and the entry at the index drawn
   * by `np.random.randint(speedCount + 1)`. The draws are passed in; the
   * draw `speedCount` is one past the grid and makes numpy raise.
   */
  method RandomSpeed(maxSpeed: seq<real>, speedMin: real, speedCount: nat, draws: seq<nat>)
    returns (r: Result<seq<real>, IndexError>)
    requires |draws| == |maxSpeed|
    requires forall s :: 0 <= s < |draws| ==> draws[s] <= speedCount
    ensures r.Success? <==> forall s :: 0 <= s < |draws| ==> draws[s] < speedCount
    ensures r.Failure? ==> r.error == IndexError(speedCount, speedCount)
    ensures r.Success? ==> |r.value| == |maxSpeed|
    ensures r.Success? ==> forall s :: 0 <= s < |maxSpeed| ==>
      r.value[s] == Grids.Linspace(speedMin, maxSpeed[s], speedCount, true)[draws[s]]
    ensures r.Success? ==> forall s :: 0 <= s < |maxSpeed| && speedMin <= maxSpeed[s] ==>
      speedMin <= r.value[s] <= maxSpeed[s]
  {
    var speed := new real[|maxSpeed|](_ => 0.0);
    for starIdx := 0 to |maxSpeed|
      invariant forall s :: 0 <= s < starIdx ==> draws[s] < speedCount
      invariant forall s :: 0 <= s < starIdx ==>
        speed[s] == Grids.Linspace(speedMin, maxSpeed[s], speedCount, true)[draws[s]]
    {
      var speeds := Grids.Linspace(speedMin, maxSpeed[starIdx], speedCount, true);
      var randIdx := draws[starIdx];
      if randIdx >= |speeds| {
        return Failure(IndexError(randIdx, |speeds|));
      }
      speed[starIdx] := speeds[randIdx];
    }
    forall s | 0 <= s < |maxSpeed| && speedMin <= maxSpeed[s]
      ensures speedMin <= speed[s] <= maxSpeed[s]
    {
      Grids.LinspaceClosedBounds(speedMin, maxSpeed[s], speedCount, draws[s]);
    }
    r := Success(speed[..]);
  }

  // ---------------------------------------------------------------------------
  // fromPickle
  // ---------------------------------------------------------------------------

  /**
   * `fromPickle(name)`: the items of the stored dictionary in order, or
   * those of `{}` when there is no file.
   */
  function FromPickle<T>(stored: Option<seq<T>>): (state: seq<T>)
    ensures stored.None? ==> state == []
    ensures stored.Some? ==> state == stored.value
  {
    stored.GetOr([])
  }
}
