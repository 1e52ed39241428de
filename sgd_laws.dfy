/** Properties of the training procedure, proved on its definitions. */
module SgdLaws {
  import opened LinAlg
  import opened Sgd

  /** An epoch's running error is a sum of squares, so it is never negative. */
  lemma {:induction false} SweepTotalNonnegative(R: Matrix<int>, n: nat, k: nat, f0: Factors, h: Rates, i: nat, j: nat)
    requires Fits(R, n, k, f0) && SweepPoint(R, n, i, j)
    ensures Sweep(R, n, k, f0, h, i, j).total >= 0.0
    decreases i, j
  {
    if j == 0 {
      if i > 0 {
        SweepTotalNonnegative(R, n, k, f0, h, i - 1, n);
      }
    } else {
      SweepTotalNonnegative(R, n, k, f0, h, i, j - 1);
    }
  }

  /** Every entry of the SSE history is non-negative. */
  lemma {:induction false} HistoryNonnegative(R: Matrix<int>, n: nat, k: nat, f0: Factors, h: Rates, iterations: nat)
    requires Fits(R, n, k, f0)
    ensures forall t :: 0 <= t < iterations ==> Training(R, n, k, f0, h, iterations).history[t] >= 0.0
  {
    if iterations > 0 {
      HistoryNonnegative(R, n, k, f0, h, iterations - 1);
      var prev := Training(R, n, k, f0, h, iterations - 1);
      SweepTotalNonnegative(R, n, k, prev.f, h, |R|, 0);
    }
  }

  /** The entry of epoch t is the error total of the epoch that starts from the factors after t epochs. */
  lemma {:induction false} HistoryEntry(R: Matrix<int>, n: nat, k: nat, f0: Factors, h: Rates, iterations: nat, t: nat)
    requires Fits(R, n, k, f0) && t < iterations
    ensures var before := Training(R, n, k, f0, h, t).f;
      Training(R, n, k, f0, h, iterations).history[t] == Epoch(R, n, k, before, h).total
      && Training(R, n, k, f0, h, t + 1).f == Epoch(R, n, k, before, h).f
    decreases iterations
  {
    if t < iterations - 1 {
      HistoryEntry(R, n, k, f0, h, iterations - 1, t);
    }
  }

  predicate UserUnobserved(R: Matrix<int>, n: nat, r: nat)
    requires Rect(R, n) && r < |R|
  {
    forall c :: 0 <= c < n ==> R[r][c] <= 0
  }

  predicate ItemUnobserved(R: Matrix<int>, n: nat, c: nat)
    requires Rect(R, n) && c < n
  {
    forall r :: 0 <= r < |R| ==> R[r][c] <= 0
  }

  lemma {:induction false} SweepKeepsUnobservedUser(R: Matrix<int>, n: nat, k: nat, f0: Factors, h: Rates, i: nat, j: nat, r: nat)
    requires Fits(R, n, k, f0) && SweepPoint(R, n, i, j)
    requires r < |R| && UserUnobserved(R, n, r)
    ensures Sweep(R, n, k, f0, h, i, j).f.u[r] == f0.u[r]
    decreases i, j
  {
    if j == 0 {
      if i > 0 {
        SweepKeepsUnobservedUser(R, n, k, f0, h, i - 1, n, r);
      }
    } else {
      SweepKeepsUnobservedUser(R, n, k, f0, h, i, j - 1, r);
    }
  }

  lemma {:induction false} SweepKeepsUnobservedItem(R: Matrix<int>, n: nat, k: nat, f0: Factors, h: Rates, i: nat, j: nat, c: nat)
    requires Fits(R, n, k, f0) && SweepPoint(R, n, i, j)
    requires c < n && ItemUnobserved(R, n, c)
    ensures Sweep(R, n, k, f0, h, i, j).f.v[c] == f0.v[c]
    decreases i, j
  {
    if j == 0 {
      if i > 0 {
        SweepKeepsUnobservedItem(R, n, k, f0, h, i - 1, n, c);
      }
    } else {
      SweepKeepsUnobservedItem(R, n, k, f0, h, i, j - 1, c);
    }
  }

  /**
   * A user with no observed cell keeps its initial factor row through any
   * number of epochs, so its predictions come from that row alone.
   */
  lemma {:induction false} UnobservedUserKeepsRow(R: Matrix<int>, n: nat, k: nat, f0: Factors, h: Rates, iterations: nat, r: nat)
    requires Fits(R, n, k, f0) && r < |R| && UserUnobserved(R, n, r)
    ensures Training(R, n, k, f0, h, iterations).f.u[r] == f0.u[r]
  {
    if iterations > 0 {
      UnobservedUserKeepsRow(R, n, k, f0, h, iterations - 1, r);
      SweepKeepsUnobservedUser(R, n, k, Training(R, n, k, f0, h, iterations - 1).f, h, |R|, 0, r);
    }
  }

  /** A category value with no observed cell keeps its initial factor row through any number of epochs. */
  lemma {:induction false} UnobservedItemKeepsRow(R: Matrix<int>, n: nat, k: nat, f0: Factors, h: Rates, iterations: nat, c: nat)
    requires Fits(R, n, k, f0) && c < n && ItemUnobserved(R, n, c)
    ensures Training(R, n, k, f0, h, iterations).f.v[c] == f0.v[c]
  {
    if iterations > 0 {
      UnobservedItemKeepsRow(R, n, k, f0, h, iterations - 1, c);
      SweepKeepsUnobservedItem(R, n, k, Training(R, n, k, f0, h, iterations - 1).f, h, |R|, 0, c);
    }
  }

  predicate NothingObserved(R: Matrix<int>, n: nat)
    requires Rect(R, n)
  {
    forall r, c :: 0 <= r < |R| && 0 <= c < n ==> R[r][c] <= 0
  }

  lemma {:induction false} SweepIdleWhenNothingObserved(R: Matrix<int>, n: nat, k: nat, f0: Factors, h: Rates, i: nat, j: nat)
    requires Fits(R, n, k, f0) && SweepPoint(R, n, i, j) && NothingObserved(R, n)
    ensures Sweep(R, n, k, f0, h, i, j) == Progress(f0, 0.0)
    decreases i, j
  {
    if j == 0 {
      if i > 0 {
        SweepIdleWhenNothingObserved(R, n, k, f0, h, i - 1, n);
      }
    } else {
      SweepIdleWhenNothingObserved(R, n, k, f0, h, i, j - 1);
    }
  }

  /** With no observed cell at all, training changes nothing and records an error of 0 for every epoch. */
  lemma {:induction false} NothingObservedNothingLearned(R: Matrix<int>, n: nat, k: nat, f0: Factors, h: Rates, iterations: nat)
    requires Fits(R, n, k, f0) && NothingObserved(R, n)
    ensures Training(R, n, k, f0, h, iterations).f == f0
    ensures forall t :: 0 <= t < iterations ==> Training(R, n, k, f0, h, iterations).history[t] == 0.0
  {
    if iterations > 0 {
      NothingObservedNothingLearned(R, n, k, f0, h, iterations - 1);
      SweepIdleWhenNothingObserved(R, n, k, f0, h, |R|, 0);
    }
  }

  /**
   * Training is resumable: `a + b` epochs are `a` epochs followed by `b`
   * epochs from where they ended, with the two histories concatenated.
   */
  lemma {:induction false} TrainingSplits(R: Matrix<int>, n: nat, k: nat, f0: Factors, h: Rates, a: nat, b: nat)
    requires Fits(R, n, k, f0)
    ensures var first := Training(R, n, k, f0, h, a);
      var second := Training(R, n, k, first.f, h, b);
      Training(R, n, k, f0, h, a + b) == Run(second.f, first.history + second.history)
    decreases b
  {
    var first := Training(R, n, k, f0, h, a);
    if b == 0 {
      assert first.history + [] == first.history;
    } else {
      TrainingSplits(R, n, k, f0, h, a, b - 1);
      var second := Training(R, n, k, first.f, h, b - 1);
      assert first.history + second.history + [Epoch(R, n, k, second.f, h).total]
        == first.history + (second.history + [Epoch(R, n, k, second.f, h).total]);
    }
  }

  /**
   * The K-check run moves the factors exactly as the final run does; its
   * loss is the final run's last SSE entry plus the penalty of the trained
   * factors (and 0 when no epoch runs).
   */
  lemma {:induction false} KCheckMatchesTraining(R: Matrix<int>, n: nat, k: nat, f0: Factors, h: Rates, iterations: nat)
    requires Fits(R, n, k, f0)
    ensures var run := Training(R, n, k, f0, h, iterations);
      var probe := KCheck(R, n, k, f0, h, iterations);
      && probe.f == run.f
      && probe.loss == if iterations == 0 then 0.0 else run.history[iterations - 1] + Penalty(run.f, h.beta)
  {
    if iterations > 0 {
      KCheckMatchesTraining(R, n, k, f0, h, iterations - 1);
    }
  }

  /** With a non-negative weight the penalised loss bounds the plain SSE of the same epoch from above. */
  lemma KCheckLossBounds(R: Matrix<int>, n: nat, k: nat, f0: Factors, h: Rates, iterations: nat)
    requires Fits(R, n, k, f0) && h.beta >= 0.0 && iterations > 0
    ensures var run := Training(R, n, k, f0, h, iterations);
      KCheck(R, n, k, f0, h, iterations).loss >= run.history[iterations - 1] >= 0.0
  {
    var run := Training(R, n, k, f0, h, iterations);
    KCheckMatchesTraining(R, n, k, f0, h, iterations);
    HistoryNonnegative(R, n, k, f0, h, iterations);
    SumSquaresNonnegative(run.f.u);
    SumSquaresNonnegative(run.f.v);
  }

  /** Visiting an unobserved cell leaves the factors and the running error as they were. */
  lemma UnobservedVisitIsIdle(R: Matrix<int>, n: nat, k: nat, p: Progress, i: nat, j: nat, h: Rates)
    requires Fits(R, n, k, p.f) && i < |R| && j < n && R[i][j] <= 0
    ensures Visit(R, n, k, p, i, j, h) == p
  {
  }

  /**
   * Visiting an observed cell: the error e is taken before any update,
   * user row i moves along the old item row j, item row j then moves along
   * the already-moved user row i, and the square of e is added to the total.
   */
  lemma ObservedVisit(R: Matrix<int>, n: nat, k: nat, p: Progress, i: nat, j: nat, h: Rates, e: real, ui: seq<real>)
    requires Fits(R, n, k, p.f) && i < |R| && j < n && R[i][j] > 0
    requires e == Residual(R, p.f, i, j)
    requires ui == Nudge(p.f.u[i], p.f.v[j], e, h)
    ensures Visit(R, n, k, p, i, j, h)
      == Progress(Factors(p.f.u[i := ui], p.f.v[j := Nudge(p.f.v[j], ui, e, h)]), p.total + Square(e))
  {
  }

  /**
   * The error of an observed visit is the gap between the cell and the
   * current reconstruction of that cell.
   */
  lemma VisitErrorIsResidual(R: Matrix<int>, n: nat, k: nat, p: Progress, i: nat, j: nat, h: Rates)
    requires Fits(R, n, k, p.f) && i < |R| && j < n && R[i][j] > 0
    ensures var gap := R[i][j] as real - Reconstruct(p.f.u, p.f.v, k)[i][j];
      Visit(R, n, k, p, i, j, h).total == p.total + Square(gap)
  {
  }

  /**
   * The update order on a 1 x 1 problem with K = 1: from u = v = 1, R = 3,
   * alpha = 1/2, beta = 0, the error is 2, u moves to 3 and v then moves
   * along the new u to 7 (a simultaneous update would give v = 3).
   */
  lemma UpdateOrderExample()
    ensures Visit([[3]], 1, 1, Progress(Factors([[1.0]], [[1.0]]), 0.0), 0, 0, Rates(0.5, 0.0))
      == Progress(Factors([[3.0]], [[7.0]]), 4.0)
  {
    var f := Factors([[1.0]], [[1.0]]);
    assert Dot(f.u[0], f.v[0]) == 1.0 by {
      assert f.u[0][..0] == [];
    }
    var ui := Nudge([1.0], [1.0], 2.0, Rates(0.5, 0.0));
    assert ui == [3.0];
    assert Nudge([1.0], ui, 2.0, Rates(0.5, 0.0)) == [7.0];
  }
}
