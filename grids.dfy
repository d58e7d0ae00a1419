/** The evenly spaced grids numpy's `linspace` produces. */
module Grids {

  /**
   * `np.linspace(start, stop, num, endpoint)`: `num` points starting at
   * `start`; with `endpoint` the last one is `stop`, without it the spacing
   * is `(stop - start) / num` and `stop` is left out. A single point with
   * `endpoint` is `[start]`.
   */
  function Linspace(start: real, stop: real, num: nat, endpoint: bool): (r: seq<real>)
    ensures |r| == num
    ensures num > 0 ==> r[0] == start
  {
    var div := if endpoint then num - 1 else num;
    if div == 0 then seq(num, i => start)
    else seq(num, i => start + (i as real) * ((stop - start) / (div as real)))
  }

  lemma MulLess(a: real, b: real, k: real)
    requires a < b && k > 0.0
    ensures a * k < b * k
  {
  }

  lemma MulAtMost(a: real, b: real, k: real)
    requires a <= b && k >= 0.0
    ensures a * k <= b * k
  {
  }

  lemma MulNonNegative(a: real, k: real)
    requires a >= 0.0 && k >= 0.0
    ensures a * k >= 0.0
  {
  }

  /** Both ends are in a grid drawn with `endpoint`. */
  lemma LinspaceClosedEnds(start: real, stop: real, num: nat)
    requires num >= 2
    ensures Linspace(start, stop, num, true)[0] == start
    ensures Linspace(start, stop, num, true)[num - 1] == stop
  {
    var n := (num - 1) as real;
    assert n * ((stop - start) / n) == stop - start;
  }

  /** The `j`-th of `n` equal steps from `start` stays within `[start, stop]`. */
  lemma StepBound(start: real, stop: real, n: real, j: real)
    requires n > 0.0 && 0.0 <= j <= n && start <= stop
    ensures start <= start + j * ((stop - start) / n) <= stop
  {
    var step := (stop - start) / n;
    assert n * step == stop - start;
    MulNonNegative(j, step);
    MulAtMost(j, n, step);
  }

  /** With `endpoint` every point lies between the two ends. */
  lemma LinspaceClosedBounds(start: real, stop: real, num: nat, i: nat)
    requires start <= stop && i < num
    ensures start <= Linspace(start, stop, num, true)[i] <= stop
  {
    var g := Linspace(start, stop, num, true);
    if num >= 2 {
      var n := (num - 1) as real;
      assert g[i] == start + (i as real) * ((stop - start) / n);
      StepBound(start, stop, n, i as real);
    } else {
      assert g[i] == start;
    }
  }

  /**
   * Without `endpoint`, a grid over `start < stop` starts at `start`, rises
   * strictly and stays strictly below `stop`.
   */
  lemma LinspaceHalfOpen(start: real, stop: real, num: nat, i: nat)
    requires start < stop && i < num
    ensures start <= Linspace(start, stop, num, false)[i] < stop
    ensures i + 1 < num ==> Linspace(start, stop, num, false)[i] < Linspace(start, stop, num, false)[i + 1]
  {
    var n := num as real;
    var step := (stop - start) / n;
    var g := Linspace(start, stop, num, false);
    assert step > 0.0;
    assert g[i] == start + (i as real) * step;
    MulNonNegative(i as real, step);
    assert i as real < n;
    MulLess(i as real, n, step);
    assert n * step == stop - start;
    assert g[i] < start + n * step;
    if i + 1 < num {
      assert g[i + 1] == start + ((i + 1) as real) * step;
      MulLess(i as real, (i + 1) as real, step);
    }
  }
}
