/**
 * The planet stage end to end: filter and pivot the interactions, reset the
 * pivot's index, take its values as R, train the factors, reconstruct
 * U.dot(V.T) and export it with the User_ID column first.
 */
module Pipeline {
  import opened Wrappers
  import opened Keys
  import opened LinAlg
  import opened Aggregation
  import opened Sgd
  import opened Trainer
  import opened Export

  /** The exported table and the SSE history of the run that produced it. */
  datatype Outcome = Outcome(table: Frame, history: seq<real>)

  /** The initial factors have the shapes the script gives them: num_users x k and num_items x k. */
  predicate StartsFit(interactions: seq<Record>, f0: Factors, k: nat)
  {
    var p := PlanetMatrix(interactions);
    Fits(p.cells, |p.values|, k, f0)
  }

  /** The stage as a value: error when the pivot has a User_ID category, the prediction table otherwise. */
  function PlanetPredictions(interactions: seq<Record>, f0: Factors, k: nat, h: Rates, iterations: nat)
    : Result<Outcome, FrameError>
    requires StartsFit(interactions, f0, k)
  {
    var p := PlanetMatrix(interactions);
    match ResetIndex(p)
    case Err(e) => Err(e)
    case Ok(t) =>
      var run := Training(t.cells, |t.values|, k, f0, h, iterations);
      Ok(Outcome(PredictionTable(Reconstruct(run.f.u, run.f.v, k), t.values, t.users), run.history))
  }

  /**
   * What the stage promises: it fails exactly when a category value is
   * called User_ID; otherwise the table has User_ID first with one row per
   * distinct planet user in pivot order, then one column per distinct planet
   * category in pivot order, every cell is the dot product of the trained
   * user row and item row, and the history has one entry per epoch.
   */
  lemma PlanetPredictionsLayout(interactions: seq<Record>, f0: Factors, k: nat, h: Rates, iterations: nat)
    requires StartsFit(interactions, f0, k)
    ensures var p := PlanetMatrix(interactions);
      var r := PlanetPredictions(interactions, f0, k, h, iterations);
      var run := Training(p.cells, |p.values|, k, f0, h, iterations);
      && (r.Err? <==> USER_ID in p.values)
      && (r.Ok? ==>
        && r.value.table.names == [USER_ID] + p.values
        && r.value.table.columns[0] == Ids(p.users)
        && (forall i, j :: 0 <= i < |p.users| && 0 <= j < |p.values| ==>
              r.value.table.columns[j + 1].xs[i] == Dot(run.f.u[i], run.f.v[j]))
        && r.value.history == run.history
        && |r.value.history| == iterations)
  {
    var p := PlanetMatrix(interactions);
    PivotLayout(PlanetOnly(interactions));
    if USER_ID !in p.values {
      forall a, b | 0 <= a < b < |p.values|
        ensures p.values[a] != p.values[b]
      {
        SortedDistinctKeys(p.values, a, b);
      }
      var run := Training(p.cells, |p.values|, k, f0, h, iterations);
      PredictionLayout(Reconstruct(run.f.u, run.f.v, k), p.values, p.users);
    }
  }

  /** `.values` of the pivot after dropping User_ID: the strength grid as a 2-D array. */
  method ToArray(cells: Matrix<int>, n: nat) returns (R: array2<int>)
    requires Rect(cells, n)
    ensures fresh(R) && R.Length0 == |cells| && R.Length1 == n
    ensures Grid(R) == cells
  {
    R := new int[|cells|, n];
    var i := 0;
    while i < |cells|
      invariant 0 <= i <= |cells|
      invariant forall r, c :: 0 <= r < i && 0 <= c < n ==> R[r, c] == cells[r][c]
    {
      var j := 0;
      while j < n
        invariant 0 <= j <= n
        invariant forall r, c :: 0 <= r < i && 0 <= c < n ==> R[r, c] == cells[r][c]
        invariant forall c :: 0 <= c < j ==> R[i, c] == cells[i][c]
      {
        R[i, j] := cells[i][j];
        j := j + 1;
      }
      i := i + 1;
    }
    assert forall r :: 0 <= r < |cells| ==> Grid(R)[r] == cells[r];
  }

  /**
   * The stage on arrays: the initial factors U and V are trained in place.
   * On the error path no training happens and the factors are unchanged.
   */
  method RunPlanetStage(interactions: seq<Record>, U: array2<real>, V: array2<real>, h: Rates, iterations: nat)
    returns (out: Result<Outcome, FrameError>)
    requires U != V && U.Length1 == V.Length1
    requires StartsFit(interactions, FactorsOf(U, V), U.Length1)
    modifies U, V
    ensures out == PlanetPredictions(interactions, old(FactorsOf(U, V)), U.Length1, h, iterations)
    ensures out.Err? ==> FactorsOf(U, V) == old(FactorsOf(U, V))
    ensures out.Ok? ==>
      var p := PlanetMatrix(interactions);
      FactorsOf(U, V) == Training(p.cells, |p.values|, U.Length1, old(FactorsOf(U, V)), h, iterations).f
  {
    var p := PlanetMatrix(interactions);
    var t := ResetIndex(p);
    if t.Err? {
      return Err(t.error);
    }
    var R := ToArray(p.cells, |p.values|);
    var history := Train(R, U, V, h, iterations);
    var rhat := Reconstruct(Grid(U), Grid(V), U.Length1);
    out := Ok(Outcome(PredictionTable(rhat, p.values, p.users), history));
  }
}
