# Planet matrix factorisation, modelled in Dafny

This project models the planet stage of layer 3 of the Poppy Universe
recommender (`Models/Layer_3/Scripts/Planet_Matrix_Model.py`). The stage runs
in three steps:

1. **Interaction aggregator.** It keeps the interaction records whose
   `Category_Type` is `"Planet"` and pivots them into a User × Category_Value
   strength matrix. A cell is the largest strength of its pair, or 0 when the
   pair has no record. Resetting the index then turns the row labels into a
   `User_ID` column.
2. **Latent factor trainer.** Plain SGD runs over the observed (positive)
   cells of `R`. It updates user row `U[i]` and then item row `V[j]` in place,
   and records each epoch's squared error in `sse_history`. A K-check run
   trains the same way but adds the regularisation penalty to each epoch's
   error and keeps only the last value.
3. **Reconstruction and export.** It computes `R_hat = U.dot(V.T)`, attaches
   the user ids and moves `User_ID` to the front.

All arithmetic is over Dafny's exact `real`. The initial factors, `alpha`,
`beta`, `K` and the number of iterations are inputs.

Files and modules:

- `wrappers.dfy` (`Wrappers`): `Option` and `Result`.
- `keys.dfy` (`Keys`) holds the sorted key layout of a pandas pivot:
  - lexicographic order on strings;
  - `SortedKeys`, the distinct keys in sorted order;
  - the fact that a strictly sorted key list is determined by the keys it holds.
- `aggregation.dfy` (`Aggregation`):
  - the Planet filter, the max / fill-0 pivot and `reset_index`;
  - a worked example.
- `linalg.dfy` (`LinAlg`):
  - dot product, column, transpose and matrix product;
  - `Reconstruct` (`U.dot(V.T)`) and the sum of squares;
  - `Grid`, which reads a 2-D array as a sequence of rows.
- `sgd.dfy` (`Sgd`): training as values. It defines a visit of one cell, an
  epoch as a row-major sweep, the run with its SSE history, and the K-check
  run with the penalty.
- `sgd_laws.dfy` (`SgdLaws`): properties of the training definitions.
- `trainer.dfy` (`Trainer`): the imperative trainer.
  - It works on `array2<real>` factors and an `array2<int>` matrix `R`.
  - Its nested loops update the arrays in place.
  - Each method is proved equal to the corresponding definition in `Sgd` or `LinAlg`.
- `export.dfy` (`Export`): the output frame, column by column.
  - Building it from `R_hat` (l.238).
  - Setting the `User_ID` column (l.239).
  - Reordering it (l.242-243).
- `pipeline.dfy` (`Pipeline`): the stage end to end, both as a function and as
  a method that trains the given arrays in place.

How the model reads the code:

- `pivot_table` sorts its index and its columns, so rows and columns follow
  the sorted order of the distinct keys. The code does not use the order in
  which keys are first met.
- `reset_index` raises when a column named `User_ID` already exists. The model
  returns `Err(ColumnExists("User_ID"))` when a planet category value is
  literally `User_ID`.
- `pred = U[i, :].dot(V[j, :].T)` is read before either update. The `U[i, :]`
  update reads the old `V[j, :]`, and the `V[j, :]` update reads the
  already-updated `U[i, :]`. numpy evaluates each right-hand side before it
  assigns, and every entry depends only on its own old value, so a loop over
  the `K` entries does the same thing.
- The final run's `sse_history` entries hold only the squared errors. Only
  the K-check run (l.155) adds `(beta/2)·(ΣU² + ΣV²)`.
- The code raises no error of its own for an empty matrix, a rank K of 0,
  non-finite factors or factor shapes that do not match. The model has no
  such error either: empty inputs and `K = 0` flow through with no updates.
- The aggregation is fixed to `max`; the code has no sum or mean reducer.

## Model

| member | source | states |
|---|---|---|
| Aggregation.PlanetOnlyKeepsPlanets | Models/Layer_3/Scripts/Planet_Matrix_Model.py:98 | a record passes the filter iff it is in the input and its Category_Type is "Planet"; each planet record passes as many times as it occurs, and no other record passes |
| Aggregation.PlanetOnlyAppend | Models/Layer_3/Scripts/Planet_Matrix_Model.py:98 | filtering a concatenation is the concatenation of the filtered parts, so kept records stay in their input order |
| Aggregation.PlanetOnlyIdempotent | Models/Layer_3/Scripts/Planet_Matrix_Model.py:98 | filtering an already filtered table changes nothing |
| Aggregation.StrongestIsMax | Models/Layer_3/Scripts/Planet_Matrix_Model.py:107-111 | the aggregate of a (user, value) pair is None iff no record has that pair; otherwise a matching record carries it and no matching record has a larger strength |
| Aggregation.StrongestAppend | Models/Layer_3/Scripts/Planet_Matrix_Model.py:111 | the max over a concatenation is the larger of the two parts' maxima, with an absent side ignored |
| Keys.SortedKeys | Models/Layer_3/Scripts/Planet_Matrix_Model.py:107-109 | the pivot's index and its columns are strictly sorted and hold exactly the keys that occur |
| Keys.SortedUnique | Models/Layer_3/Scripts/Planet_Matrix_Model.py:107-109 | two strictly sorted key lists with the same members are equal |
| Keys.SortedKeysCanonical | Models/Layer_3/Scripts/Planet_Matrix_Model.py:107-109 | the key layout depends only on which keys occur, not on their order or how often they repeat |
| Aggregation.PivotLayout | Models/Layer_3/Scripts/Planet_Matrix_Model.py:107-113 | there is one row per distinct User_ID and one column per distinct Category_Value, both sorted, and the grid has exactly that shape |
| Aggregation.CellMeaning | Models/Layer_3/Scripts/Planet_Matrix_Model.py:107-113 | with strengths in 1..5 (l.88): a cell is 0 iff its pair has no record; otherwise it is the pair's maximum strength, which lies in 1..5 (for any strengths, StrongestIsMax is the general statement) |
| Export.ResetColumnsDropUserId | Models/Layer_3/Scripts/Planet_Matrix_Model.py:116 | when the reset succeeds, User_ID is the first column name and no later name; both dropping User_ID (l.171) and taking the columns after the first (l.238) give the category values in pivot order |
| Aggregation.EveryRowAndColumnObserved | Models/Layer_3/Scripts/Planet_Matrix_Model.py:107-113 | with strengths of at least 1 every row and every column of the pivot holds a positive cell |
| Aggregation.PivotOrderInsensitive | Models/Layer_3/Scripts/Planet_Matrix_Model.py:107-113 | the pivot of `a + b` equals the pivot of `b + a` |
| Aggregation.ExampleFilter | Models/Layer_3/Scripts/Planet_Matrix_Model.py:98 | on a four-record input with one Star record, the filter returns the three planet records in order |
| Aggregation.ExampleKeys | Models/Layer_3/Scripts/Planet_Matrix_Model.py:107-109 | repeated, unsorted user ids and category values collapse to their sorted distinct keys |
| Aggregation.ExampleCells | Models/Layer_3/Scripts/Planet_Matrix_Model.py:107-112 | on that input the four cells are 4, 2, 5 and the fill value 0 |
| Aggregation.ExampleGrid | Models/Layer_3/Scripts/Planet_Matrix_Model.py:107-112 | the example's grid over sorted keys is [[4, 2], [5, 0]] |
| Aggregation.ExamplePivot | Models/Layer_3/Scripts/Planet_Matrix_Model.py:107-113 | the example's pivot has rows U1, U2, columns "Dwarf Planet", "Gas Giant" and cells [[4, 2], [5, 0]] |
| Aggregation.WorkedExample | Models/Layer_3/Scripts/Planet_Matrix_Model.py:98-113 | filter and pivot together drop the Star record and fill the missing pair with 0 |
| Trainer.DotRows | Models/Layer_3/Scripts/Planet_Matrix_Model.py:195 | the loop computes the dot product of user row i and item row j |
| Trainer.NudgeUserRow | Models/Layer_3/Scripts/Planet_Matrix_Model.py:200 | only row i of U changes, to `U[i] + alpha·(2e·V[j] − beta·U[i])` |
| Trainer.NudgeItemRow | Models/Layer_3/Scripts/Planet_Matrix_Model.py:201 | only row j of V changes, to `V[j] + alpha·(2e·U[i] − beta·V[j])` with the current U[i] |
| Sgd.Visit | Models/Layer_3/Scripts/Planet_Matrix_Model.py:194-201 | a visit keeps the factor shapes, and every user row other than i and every item row other than j is untouched |
| SgdLaws.UnobservedVisitIsIdle | Models/Layer_3/Scripts/Planet_Matrix_Model.py:194 | a cell with R[i][j] <= 0 leaves U, V and the running error unchanged (on the arrays this is the first ensures of Trainer.StepCell) |
| SgdLaws.VisitErrorIsResidual | Models/Layer_3/Scripts/Planet_Matrix_Model.py:195-198 | the squared error added is the squared gap between the cell and the current reconstruction U·Vᵗ at [i][j] |
| SgdLaws.UpdateOrderExample | Models/Layer_3/Scripts/Planet_Matrix_Model.py:200-201 | on a 1×1 problem with K = 1, u goes from 1 to 3 and v then from 1 to 7, using the new u; a simultaneous update would give v = 3 |
| Trainer.StepCell | Models/Layer_3/Scripts/Planet_Matrix_Model.py:194-201 | on arrays: a cell with R[i, j] <= 0 leaves U, V and the running error unchanged. For an observed cell, e is R[i, j] minus dot(U[i], V[j]) taken before any update, and the total grows by e². U changes only in row i, which moves along the old V[j]; V then changes only in row j, which moves along the already-moved U[i] |
| Trainer.VisitCell | Models/Layer_3/Scripts/Planet_Matrix_Model.py:194-201 | the in-place cell step leaves the arrays and the running error exactly as Visit prescribes |
| Trainer.RunEpoch | Models/Layer_3/Scripts/Planet_Matrix_Model.py:190-201 | the nested row/column loops leave the arrays and total_error exactly as one row-major sweep prescribes |
| Trainer.Train | Models/Layer_3/Scripts/Planet_Matrix_Model.py:186-203 | after the loop, U, V and sse_history are exactly the Training run of `iterations` epochs from the initial factors |
| Sgd.Training | Models/Layer_3/Scripts/Planet_Matrix_Model.py:177-178 | training keeps U at num_users × K and V at num_items × K, and the history has exactly `iterations` entries |
| SgdLaws.SweepTotalNonnegative | Models/Layer_3/Scripts/Planet_Matrix_Model.py:190-198 | an epoch's running error is never negative |
| SgdLaws.HistoryNonnegative | Models/Layer_3/Scripts/Planet_Matrix_Model.py:186-203 | every sse_history entry is non-negative |
| SgdLaws.HistoryEntry | Models/Layer_3/Scripts/Planet_Matrix_Model.py:189-203 | entry t is the un-penalised error total of the epoch that starts from the factors after t epochs, and that epoch produces the factors after t + 1 epochs |
| SgdLaws.SweepKeepsUnobservedUser | Models/Layer_3/Scripts/Planet_Matrix_Model.py:192-201 | within an epoch, a user row whose cells are all <= 0 is never changed |
| SgdLaws.SweepKeepsUnobservedItem | Models/Layer_3/Scripts/Planet_Matrix_Model.py:192-201 | within an epoch, an item row whose cells are all <= 0 is never changed |
| SgdLaws.UnobservedUserKeepsRow | Models/Layer_3/Scripts/Planet_Matrix_Model.py:189-201 | a user with no observed cell keeps its initial factor row through any number of epochs |
| SgdLaws.UnobservedItemKeepsRow | Models/Layer_3/Scripts/Planet_Matrix_Model.py:189-201 | a category with no observed cell keeps its initial factor row through any number of epochs |
| SgdLaws.NothingObservedNothingLearned | Models/Layer_3/Scripts/Planet_Matrix_Model.py:189-203 | with no positive cell, training leaves the factors unchanged and records 0 for every epoch |
| SgdLaws.TrainingSplits | Models/Layer_3/Scripts/Planet_Matrix_Model.py:189-203 | a + b epochs equal a epochs followed by b epochs from where they stopped, with the two histories concatenated |
| Sgd.KCheck | Models/Layer_3/Scripts/Planet_Matrix_Model.py:145-156 | the K-check run keeps the factor shapes |
| SgdLaws.KCheckMatchesTraining | Models/Layer_3/Scripts/Planet_Matrix_Model.py:143-156 | the K-check run moves the factors exactly as the final run; its loss is 0 after no epoch, otherwise the last un-penalised SSE plus `(beta/2)·(ΣU² + ΣV²)` of the trained factors |
| SgdLaws.KCheckLossBounds | Models/Layer_3/Scripts/Planet_Matrix_Model.py:155 | with beta >= 0, the penalised loss is at least the plain SSE of the same epoch, and that SSE is at least 0 |
| Trainer.SumOfSquares | Models/Layer_3/Scripts/Planet_Matrix_Model.py:155 | the nested loops compute `np.sum(M**2)` as SumSquares of the array's rows |
| LinAlg.SumSquaresNonnegative | Models/Layer_3/Scripts/Planet_Matrix_Model.py:155 | a sum of squared entries is never negative |
| Trainer.PenalisedEpoch | Models/Layer_3/Scripts/Planet_Matrix_Model.py:146-155 | one K-check epoch leaves the arrays as one sweep does and returns its error plus the penalty of the resulting factors |
| Trainer.KCheckRun | Models/Layer_3/Scripts/Planet_Matrix_Model.py:143-156 | after the loop, U, V and sse are exactly the KCheck run |
| LinAlg.Reconstruct | Models/Layer_3/Scripts/Planet_Matrix_Model.py:206 | R_hat is num_users × num_items and every cell, observed or not, is dot(U[i], V[j]) |
| Export.Without | Models/Layer_3/Scripts/Planet_Matrix_Model.py:242 | the comprehension keeps exactly the names other than the excluded one |
| Export.WithoutAbsent | Models/Layer_3/Scripts/Planet_Matrix_Model.py:242 | excluding a name that is absent keeps the list as it was |
| Export.WithoutAppend | Models/Layer_3/Scripts/Planet_Matrix_Model.py:242 | the comprehension distributes over concatenation |
| Export.WithoutLast | Models/Layer_3/Scripts/Planet_Matrix_Model.py:242 | when User_ID is only the last name, the comprehension keeps the category names in order |
| Export.AttachedLast | Models/Layer_3/Scripts/Planet_Matrix_Model.py:238-239 | the new User_ID column goes after the category columns |
| Export.PredictionHead | Models/Layer_3/Scripts/Planet_Matrix_Model.py:238-243 | the exported names are User_ID followed by the category names, and the first column holds the user ids |
| Export.PredictionColumn | Models/Layer_3/Scripts/Planet_Matrix_Model.py:238-243 | column j + 1 of the export is column j of R_hat |
| Export.PredictionLayout | Models/Layer_3/Scripts/Planet_Matrix_Model.py:238-243 | with distinct category names and none called User_ID, row i of the export holds user i's label, and column j + 1 holds R_hat[i][j] |
| Pipeline.PlanetPredictionsLayout | Models/Layer_3/Scripts/Planet_Matrix_Model.py:98-243 | the stage fails exactly when a planet category is called User_ID. Otherwise the export has User_ID first with one row per distinct planet user, then one column per distinct planet category, both in pivot order. Every cell is dot(U[i], V[j]) of the trained factors. The history is the training run's SSE history, one entry per epoch |
| Pipeline.ToArray | Models/Layer_3/Scripts/Planet_Matrix_Model.py:171 | `.values` of the pivot's grid is a fresh array with the same contents |
| Pipeline.RunPlanetStage | Models/Layer_3/Scripts/Planet_Matrix_Model.py:98-243 | training the given arrays in place yields exactly PlanetPredictions. On the error path the factors are untouched; otherwise they end as the Training run's factors |

## Left out

- Loading the data. The papermill-injected `backend_df`, the CSV fallback
  and timestamp parsing are I/O, so the interactions are an input. The
  timestamp is not a field of `Record` because nothing in the core reads it.
- Writing the exported CSV and all printing. Both are I/O.
- Random initialisation with `np.random.seed(42)` and `np.random.rand`. The
  initial `U` and `V` are inputs.
- The loop over `K_values = [3, 4, 5]` and the SSE-vs-K plot. The loop only
  re-seeds the random generator and collects one K-check loss per K for
  plotting. One K-check run for one K and any initial factors is modelled
  (`Trainer.KCheckRun`).
- All plotting with matplotlib.
- Floating point. The model computes over exact reals, so NaN,
  overflow/divergence, rounding and bit-level reproducibility are not
  captured, and no convergence or loss-decrease claim is made.
- The source's `int` and `float` dtypes. Strengths are unbounded integers and
  the factors are reals.
- User ids are modelled as strings. Keys are ordered lexicographically by
  character code, which is Python's order on `str`. Integer user ids, which
  pandas would order numerically, are not modelled.
- pandas internals beyond the pivot semantics modelled here:
  - null keys;
  - the index and column `name` metadata;
  - how pandas shapes an empty pivot (the model gives an empty table);
  - selecting frame columns when names are duplicated, which is not needed
    because the pivot's category names are distinct.
- `Export.PredictionLayout` states the layout only when the category names
  are distinct and none is `User_ID`. The pivot always meets the first
  condition, and `Aggregation.ResetIndex` fails before export in the other
  case.
- `main.py`, the HTTP route that starts the script as a subprocess, is not
  part of this model: it is process plumbing.
