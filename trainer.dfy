/**
 * The SGD trainer as the script runs it: nested epoch / row / column loops
 * that update the factor arrays U and V in place, accumulate each epoch's
 * error and append it to the SSE history. Every method is proved against
 * the definitions in Sgd or LinAlg.
 */
module Trainer {
  import opened LinAlg
  import opened Sgd
  import opened SgdLaws

  /** The factor arrays as a pair of matrices. */
  function FactorsOf(U: array2<real>, V: array2<real>): Factors
    reads U, V
  {
    Factors(Grid(U), Grid(V))
  }

  /** The shapes the script creates: R is num_users x num_items, U num_users x K, V num_items x K. */
  predicate Conforms(R: array2<int>, U: array2<real>, V: array2<real>)
  {
    U != V && U.Length0 == R.Length0 && V.Length0 == R.Length1 && U.Length1 == V.Length1
  }

  /** `U[i, :].dot(V[j, :].T)`. */
  method DotRows(U: array2<real>, i: nat, V: array2<real>, j: nat) returns (p: real)
    requires i < U.Length0 && j < V.Length0 && U.Length1 == V.Length1
    ensures p == Dot(Grid(U)[i], Grid(V)[j])
  {
    ghost var x, y := Grid(U)[i], Grid(V)[j];
    p := 0.0;
    var c := 0;
    while c < U.Length1
      invariant 0 <= c <= U.Length1
      invariant p == Dot(x[..c], y[..c])
    {
      DotExtend(x, y, c);
      p := p + U[i, c] * V[j, c];
      c := c + 1;
    }
    assert x[..c] == x && y[..c] == y;
  }

  /** `U[i, :] += alpha * (2 * e * V[j, :] - beta * U[i, :])`; nothing else changes. */
  method NudgeUserRow(U: array2<real>, V: array2<real>, i: nat, j: nat, e: real, h: Rates)
    requires U != V && i < U.Length0 && j < V.Length0 && U.Length1 == V.Length1
    modifies U
    ensures Grid(U) == old(Grid(U))[i := Nudge(old(Grid(U))[i], Grid(V)[j], e, h)]
  {
    ghost var u0 := Grid(U);
    ghost var target := Nudge(u0[i], Grid(V)[j], e, h);
    var c := 0;
    while c < U.Length1
      invariant 0 <= c <= U.Length1
      invariant forall r, d :: 0 <= r < U.Length0 && 0 <= d < U.Length1 ==>
        U[r, d] == if r == i && d < c then target[d] else u0[r][d]
    {
      U[i, c] := U[i, c] + h.alpha * (2.0 * e * V[j, c] - h.beta * U[i, c]);
      c := c + 1;
    }
    assert forall r :: 0 <= r < U.Length0 ==> Grid(U)[r] == u0[i := target][r];
  }

  /** `V[j, :] += alpha * (2 * e * U[i, :] - beta * V[j, :])`, reading the current U[i, :]; nothing else changes. */
  method NudgeItemRow(U: array2<real>, V: array2<real>, i: nat, j: nat, e: real, h: Rates)
    requires U != V && i < U.Length0 && j < V.Length0 && U.Length1 == V.Length1
    modifies V
    ensures Grid(V) == old(Grid(V))[j := Nudge(old(Grid(V))[j], Grid(U)[i], e, h)]
  {
    ghost var v0 := Grid(V);
    ghost var target := Nudge(v0[j], Grid(U)[i], e, h);
    var c := 0;
    while c < V.Length1
      invariant 0 <= c <= V.Length1
      invariant forall r, d :: 0 <= r < V.Length0 && 0 <= d < V.Length1 ==>
        V[r, d] == if r == j && d < c then target[d] else v0[r][d]
    {
      V[j, c] := V[j, c] + h.alpha * (2.0 * e * U[i, c] - h.beta * V[j, c]);
      c := c + 1;
    }
    assert forall r :: 0 <= r < V.Length0 ==> Grid(V)[r] == v0[j := target][r];
  }

  /**
   * The body of the inner loop for cell (i, j), with the epoch's running
   * error `total`: an unobserved cell changes nothing; an observed one takes
   * the error before any update, moves U[i] along the old V[j], then moves
   * V[j] along the new U[i], and adds the squared error to the total.
   */
  method StepCell(R: array2<int>, U: array2<real>, V: array2<real>, i: nat, j: nat, h: Rates, total: real)
    returns (total': real)
    requires Conforms(R, U, V) && i < R.Length0 && j < R.Length1
    modifies U, V
    ensures R[i, j] <= 0 ==> Grid(U) == old(Grid(U)) && Grid(V) == old(Grid(V)) && total' == total
    ensures R[i, j] > 0 ==> var e := Residual(Grid(R), old(FactorsOf(U, V)), i, j);
      total' == total + Square(e)
    ensures R[i, j] > 0 ==> var e := Residual(Grid(R), old(FactorsOf(U, V)), i, j);
      Grid(U) == old(Grid(U))[i := Nudge(old(Grid(U))[i], old(Grid(V))[j], e, h)]
    ensures R[i, j] > 0 ==> var e := Residual(Grid(R), old(FactorsOf(U, V)), i, j);
      Grid(V) == old(Grid(V))[j := Nudge(old(Grid(V))[j], Grid(U)[i], e, h)]
  {
    ghost var u0, v0 := Grid(U), Grid(V);
    total' := total;
    if R[i, j] > 0 {
      var pred := DotRows(U, i, V, j);
      var e := R[i, j] as real - pred;
      assert e == Residual(Grid(R), FactorsOf(U, V), i, j);
      total' := total + Square(e);
      ghost var ui := Nudge(u0[i], v0[j], e, h);
      NudgeUserRow(U, V, i, j, e, h);
      assert Grid(U) == u0[i := ui] && Grid(V) == v0;
      NudgeItemRow(U, V, i, j, e, h);
      assert Grid(U)[i] == ui;
      assert e == Residual(Grid(R), old(FactorsOf(U, V)), i, j);
    }
  }

  /** The cell step is a visit of cell (i, j) in the sense of the training definitions. */
  method VisitCell(R: array2<int>, U: array2<real>, V: array2<real>, i: nat, j: nat, h: Rates, total: real)
    returns (total': real)
    requires Conforms(R, U, V) && i < R.Length0 && j < R.Length1
    modifies U, V
    ensures Progress(FactorsOf(U, V), total')
      == Visit(Grid(R), R.Length1, U.Length1, Progress(old(FactorsOf(U, V)), total), i, j, h)
  {
    ghost var f := FactorsOf(U, V);
    ghost var g := Grid(R);
    total' := StepCell(R, U, V, i, j, h, total);
    if R[i, j] > 0 {
      ghost var e := Residual(g, f, i, j);
      ghost var ui := Nudge(f.u[i], f.v[j], e, h);
      assert Grid(U) == f.u[i := ui];
      assert FactorsOf(U, V) == Factors(f.u[i := ui], f.v[j := Nudge(f.v[j], ui, e, h)]);
      assert g[i][j] == R[i, j];
      ObservedVisit(g, R.Length1, U.Length1, Progress(f, total), i, j, h, e, ui);
    } else {
      assert FactorsOf(U, V) == f;
      UnobservedVisitIsIdle(g, R.Length1, U.Length1, Progress(f, total), i, j, h);
    }
    assert Grid(R) == g;
  }

  /** One epoch: `for i in range(num_users): for j in range(num_items)`, returning `total_error`. */
  method RunEpoch(R: array2<int>, U: array2<real>, V: array2<real>, h: Rates) returns (total: real)
    requires Conforms(R, U, V)
    modifies U, V
    ensures Progress(FactorsOf(U, V), total) == Epoch(Grid(R), R.Length1, U.Length1, old(FactorsOf(U, V)), h)
  {
    ghost var g, n, k, f0 := Grid(R), R.Length1, U.Length1, FactorsOf(U, V);
    total := 0.0;
    var i := 0;
    while i < R.Length0
      invariant 0 <= i <= R.Length0
      invariant Progress(FactorsOf(U, V), total) == Sweep(g, n, k, f0, h, i, 0)
    {
      var j := 0;
      while j < R.Length1
        invariant 0 <= j <= R.Length1
        invariant Progress(FactorsOf(U, V), total) == Sweep(g, n, k, f0, h, i, j)
      {
        total := VisitCell(R, U, V, i, j, h, total);
        j := j + 1;
      }
      i := i + 1;
    }
  }

  /** The final training run: `iterations` epochs, each appending its error to `sse_history`. */
  method Train(R: array2<int>, U: array2<real>, V: array2<real>, h: Rates, iterations: nat)
    returns (sseHistory: seq<real>)
    requires Conforms(R, U, V)
    modifies U, V
    ensures Run(FactorsOf(U, V), sseHistory)
      == Training(Grid(R), R.Length1, U.Length1, old(FactorsOf(U, V)), h, iterations)
  {
    ghost var g, n, k, f0 := Grid(R), R.Length1, U.Length1, FactorsOf(U, V);
    sseHistory := [];
    for it := 0 to iterations
      invariant Run(FactorsOf(U, V), sseHistory) == Training(g, n, k, f0, h, it)
    {
      var total := RunEpoch(R, U, V, h);
      sseHistory := sseHistory + [total];
    }
  }

  /** `np.sum(M**2)`. */
  method SumOfSquares(M: array2<real>) returns (s: real)
    ensures s == SumSquares(Grid(M))
  {
    ghost var g := Grid(M);
    s := 0.0;
    var i := 0;
    while i < M.Length0
      invariant 0 <= i <= M.Length0
      invariant s == SumSquares(g[..i])
    {
      var row := 0.0;
      var c := 0;
      while c < M.Length1
        invariant 0 <= c <= M.Length1
        invariant row == Dot(g[i][..c], g[i][..c])
      {
        DotExtend(g[i], g[i], c);
        row := row + M[i, c] * M[i, c];
        c := c + 1;
      }
      assert g[i][..c] == g[i];
      SumSquaresExtend(g, i);
      s := s + row;
      i := i + 1;
    }
    assert g[..i] == g;
  }

  lemma PenaltyOf(f: Factors, beta: real, su: real, sv: real)
    requires su == SumSquares(f.u) && sv == SumSquares(f.v)
    ensures (beta / 2.0) * (su + sv) == Penalty(f, beta)
  {
  }

  /** One K-check epoch: the epoch's error plus the penalty of the factors it ends with. */
  method PenalisedEpoch(R: array2<int>, U: array2<real>, V: array2<real>, h: Rates) returns (sse: real)
    requires Conforms(R, U, V)
    modifies U, V
    ensures var p := Epoch(Grid(R), R.Length1, U.Length1, old(FactorsOf(U, V)), h);
      FactorsOf(U, V) == p.f && sse == p.total + Penalty(p.f, h.beta)
  {
    ghost var p := Epoch(Grid(R), R.Length1, U.Length1, FactorsOf(U, V), h);
    var total := RunEpoch(R, U, V, h);
    assert p == Progress(FactorsOf(U, V), total);
    var su := SumOfSquares(U);
    var sv := SumOfSquares(V);
    PenaltyOf(p.f, h.beta, su, sv);
    sse := total + (h.beta / 2.0) * (su + sv);
  }

  /**
   * The K-check run for one K: the same epochs, each total increased by
   * `(beta / 2) * (sum(U**2) + sum(V**2))`, keeping only the last.
   */
  method KCheckRun(R: array2<int>, U: array2<real>, V: array2<real>, h: Rates, iterations: nat)
    returns (sse: real)
    requires Conforms(R, U, V)
    modifies U, V
    ensures Probe(FactorsOf(U, V), sse)
      == KCheck(Grid(R), R.Length1, U.Length1, old(FactorsOf(U, V)), h, iterations)
  {
    ghost var g, n, k, f0 := Grid(R), R.Length1, U.Length1, FactorsOf(U, V);
    sse := 0.0;
    for it := 0 to iterations
      invariant Probe(FactorsOf(U, V), sse) == KCheck(g, n, k, f0, h, it)
    {
      sse := PenalisedEpoch(R, U, V, h);
    }
  }
}
