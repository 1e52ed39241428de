/**
 * The training procedure as values: one visit of a cell, a row-major sweep
 * over all cells (an epoch), the run of `iterations` epochs that records the
 * per-epoch error in an SSE history, and the K-check run that adds the
 * regularisation penalty to each epoch's error. The imperative trainer is
 * proved against these definitions.
 */
module Sgd {
  import opened LinAlg

  /** Learning rate `alpha` and regularisation weight `beta`. */
  datatype Rates = Rates(alpha: real, beta: real)

  /** The user factors `u` (num_users x K) and the item factors `v` (num_items x K). */
  datatype Factors = Factors(u: Matrix<real>, v: Matrix<real>)

  /** The factors part-way through an epoch, with the epoch's error so far. */
  datatype Progress = Progress(f: Factors, total: real)

  /** The factors after a training run and the errors of its epochs, oldest first. */
  datatype Run = Run(f: Factors, history: seq<real>)

  /** The factors after a K-check run and the penalised loss of its last epoch. */
  datatype Probe = Probe(f: Factors, loss: real)

  /** The shapes training needs: `R` is `|R| x n`, `u` is `|R| x k`, `v` is `n x k`. */
  predicate Fits(R: Matrix<int>, n: nat, k: nat, f: Factors)
  {
    Rect(R, n) && |f.u| == |R| && |f.v| == n && Rect(f.u, k) && Rect(f.v, k)
  }

  /** `x + alpha * (2 * e * g - beta * x)`, entry by entry. */
  function Nudge(x: seq<real>, g: seq<real>, e: real, h: Rates): (r: seq<real>)
    requires |x| == |g|
    ensures |r| == |x|
    ensures forall c :: 0 <= c < |x| ==> r[c] == x[c] + h.alpha * (2.0 * e * g[c] - h.beta * x[c])
  {
    seq(|x|, c requires 0 <= c < |x| => x[c] + h.alpha * (2.0 * e * g[c] - h.beta * x[c]))
  }

  /** `x ** 2`. */
  function Square(x: real): real
  {
    x * x
  }

  /** The error of cell (i, j) against the prediction of user row i and item row j. */
  function Residual(R: Matrix<int>, f: Factors, i: nat, j: nat): real
    requires i < |R| && j < |R[i]| && i < |f.u| && j < |f.v| && |f.u[i]| == |f.v[j]|
  {
    R[i][j] as real - Dot(f.u[i], f.v[j])
  }

  /**
   * The visit of cell (i, j). An unobserved cell (R[i][j] <= 0) changes
   * nothing. An observed one takes its error from the factors as they are on
   * arrival, moves user row i along item row j, then moves item row j along
   * the user row just moved, and adds the squared error to the total.
   */
  function Visit(R: Matrix<int>, n: nat, k: nat, p: Progress, i: nat, j: nat, h: Rates): (q: Progress)
    requires Fits(R, n, k, p.f) && i < |R| && j < n
    ensures Fits(R, n, k, q.f)
    ensures forall r :: 0 <= r < |R| && r != i ==> q.f.u[r] == p.f.u[r]
    ensures forall c :: 0 <= c < n && c != j ==> q.f.v[c] == p.f.v[c]
  {
    if R[i][j] > 0 then
      var e := Residual(R, p.f, i, j);
      var ui := Nudge(p.f.u[i], p.f.v[j], e, h);
      var vj := Nudge(p.f.v[j], ui, e, h);
      Progress(Factors(p.f.u[i := ui], p.f.v[j := vj]), p.total + Square(e))
    else
      p
  }

  /** Where a sweep may stop: before cell (i, j) of row i, or at the very end. */
  predicate SweepPoint(R: Matrix<int>, n: nat, i: nat, j: nat)
  {
    (i < |R| && j <= n) || (i == |R| && j == 0)
  }

  /**
   * The progress of an epoch started from `f0` when every cell before (i, j)
   * in row-major order has been visited.
   */
  function Sweep(R: Matrix<int>, n: nat, k: nat, f0: Factors, h: Rates, i: nat, j: nat): (q: Progress)
    requires Fits(R, n, k, f0) && SweepPoint(R, n, i, j)
    ensures Fits(R, n, k, q.f)
    decreases i, j
  {
    if j == 0 then
      if i == 0 then Progress(f0, 0.0) else Sweep(R, n, k, f0, h, i - 1, n)
    else
      Visit(R, n, k, Sweep(R, n, k, f0, h, i, j - 1), i, j - 1, h)
  }

  /** One epoch: every cell visited once, rows in order and each row's cells in order. */
  function Epoch(R: Matrix<int>, n: nat, k: nat, f: Factors, h: Rates): (q: Progress)
    requires Fits(R, n, k, f)
    ensures Fits(R, n, k, q.f)
  {
    Sweep(R, n, k, f, h, |R|, 0)
  }

  /** `iterations` epochs from `f0`, each appending its error total to the history. */
  function Training(R: Matrix<int>, n: nat, k: nat, f0: Factors, h: Rates, iterations: nat): (r: Run)
    requires Fits(R, n, k, f0)
    ensures Fits(R, n, k, r.f)
    ensures |r.history| == iterations
  {
    if iterations == 0 then Run(f0, [])
    else
      var prev := Training(R, n, k, f0, h, iterations - 1);
      var p := Epoch(R, n, k, prev.f, h);
      Run(p.f, prev.history + [p.total])
  }

  /** `(beta / 2) * (sum(U**2) + sum(V**2))`. */
  function Penalty(f: Factors, beta: real): real
  {
    (beta / 2.0) * (SumSquares(f.u) + SumSquares(f.v))
  }

  /**
   * The K-check run: the same epochs, but each epoch's total is the error
   * plus the penalty of the factors it ends with; only the last is kept, and
   * it is 0 when no epoch runs.
   */
  function KCheck(R: Matrix<int>, n: nat, k: nat, f0: Factors, h: Rates, iterations: nat): (r: Probe)
    requires Fits(R, n, k, f0)
    ensures Fits(R, n, k, r.f)
  {
    if iterations == 0 then Probe(f0, 0.0)
    else
      var prev := KCheck(R, n, k, f0, h, iterations - 1);
      var p := Epoch(R, n, k, prev.f, h);
      Probe(p.f, p.total + Penalty(p.f, h.beta))
  }
}
