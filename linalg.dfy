/**
 * Dense linear algebra over exact reals: matrices as sequences of rows, the
 * vector dot product, transposition, the matrix product and the sum of
 * squared entries. A numpy 2-D array is read through `Grid`.
 */
module LinAlg {

  type Matrix<T> = seq<seq<T>>

  /** Every row has `width` entries. */
  predicate Rect<T>(m: Matrix<T>, width: nat)
  {
    forall i :: 0 <= i < |m| ==> |m[i]| == width
  }

  /** The contents of a 2-D array, row by row. */
  function Grid<T>(a: array2<T>): (g: Matrix<T>)
    reads a
    ensures |g| == a.Length0 && Rect(g, a.Length1)
    ensures forall i, k :: 0 <= i < a.Length0 && 0 <= k < a.Length1 ==> g[i][k] == a[i, k]
  {
    seq(a.Length0, i requires 0 <= i < a.Length0 reads a =>
      seq(a.Length1, k requires 0 <= k < a.Length1 reads a => a[i, k]))
  }

  /** The dot product, summed from the first entry to the last. */
  function Dot(x: seq<real>, y: seq<real>): real
    requires |x| == |y|
    decreases |x|
  {
    if |x| == 0 then 0.0
    else Dot(x[..|x| - 1], y[..|x| - 1]) + x[|x| - 1] * y[|x| - 1]
  }

  /** One more term of a running dot product. */
  lemma DotExtend(x: seq<real>, y: seq<real>, k: nat)
    requires |x| == |y| && k < |x|
    ensures Dot(x[..k + 1], y[..k + 1]) == Dot(x[..k], y[..k]) + x[k] * y[k]
  {
    assert x[..k + 1][..k] == x[..k];
    assert y[..k + 1][..k] == y[..k];
  }

  /** A squared norm is never negative. */
  lemma {:induction false} DotSelfNonnegative(x: seq<real>)
    ensures Dot(x, x) >= 0.0
    decreases |x|
  {
    if |x| > 0 {
      DotSelfNonnegative(x[..|x| - 1]);
    }
  }

  /** Column `j` of `m`. */
  function Column(m: Matrix<real>, j: nat): (c: seq<real>)
    requires forall i :: 0 <= i < |m| ==> j < |m[i]|
    ensures |c| == |m|
    ensures forall i :: 0 <= i < |m| ==> c[i] == m[i][j]
  {
    seq(|m|, i requires 0 <= i < |m| => m[i][j])
  }

  /** `m.T` for an `r x cols` matrix: a `cols x r` matrix. */
  function Transpose(m: Matrix<real>, cols: nat): (t: Matrix<real>)
    requires Rect(m, cols)
    ensures |t| == cols && Rect(t, |m|)
    ensures forall k, j :: 0 <= k < cols && 0 <= j < |m| ==> t[k][j] == m[j][k]
  {
    seq(cols, k requires 0 <= k < cols => Column(m, k))
  }

  /** The product `a.dot(b)` of an `r x q` and a `q x n` matrix. */
  function MatMul(a: Matrix<real>, b: Matrix<real>, n: nat): (p: Matrix<real>)
    requires Rect(a, |b|) && Rect(b, n)
    ensures |p| == |a| && Rect(p, n)
  {
    seq(|a|, i requires 0 <= i < |a| =>
      seq(n, j requires 0 <= j < n => Dot(a[i], Column(b, j))))
  }

  /**
   * `U.dot(V.T)`: the dense prediction matrix of the factors. Every cell,
   * observed or not, is the dot product of a user row and an item row.
   */
  function Reconstruct(u: Matrix<real>, v: Matrix<real>, k: nat): (r: Matrix<real>)
    requires Rect(u, k) && Rect(v, k)
    ensures |r| == |u| && Rect(r, |v|)
    ensures forall i, j :: 0 <= i < |u| && 0 <= j < |v| ==> r[i][j] == Dot(u[i], v[j])
  {
    var vt := Transpose(v, k);
    var r := MatMul(u, vt, |v|);
    assert forall j :: 0 <= j < |v| ==> Column(vt, j) == v[j];
    r
  }

  /** `np.sum(m**2)`, the sum of the squared entries. */
  function SumSquares(m: Matrix<real>): (s: real)
    decreases |m|
  {
    if |m| == 0 then 0.0
    else SumSquares(m[..|m| - 1]) + Dot(m[|m| - 1], m[|m| - 1])
  }

  lemma {:induction false} SumSquaresNonnegative(m: Matrix<real>)
    ensures SumSquares(m) >= 0.0
    decreases |m|
  {
    if |m| > 0 {
      SumSquaresNonnegative(m[..|m| - 1]);
      DotSelfNonnegative(m[|m| - 1]);
    }
  }

  /** One more row of a running sum of squares. */
  lemma SumSquaresExtend(m: Matrix<real>, i: nat)
    requires i < |m|
    ensures SumSquares(m[..i + 1]) == SumSquares(m[..i]) + Dot(m[i], m[i])
  {
    assert m[..i + 1][..i] == m[..i];
  }
}
