/**
 * The prediction table: the reconstructed matrix as a column-oriented frame,
 * the User_ID column attached and then moved to the front.
 */
module Export {
  import opened LinAlg
  import opened Aggregation

  /** A frame column (a pandas Series): the user ids or one category's predicted scores. */
  datatype Series = Ids(ids: seq<string>) | Scores(xs: seq<real>)

  /** Column names and columns, in order. */
  datatype Frame = Frame(names: seq<string>, columns: seq<Series>)

  predicate WellFormed(f: Frame)
  {
    |f.names| == |f.columns|
  }

  predicate Distinct(s: seq<string>)
  {
    forall a, b :: 0 <= a < b < |s| ==> s[a] != s[b]
  }

  /** The first position of `x` in `s`. */
  function IndexOf(s: seq<string>, x: string): (k: nat)
    requires x in s
    ensures k < |s| && s[k] == x
    ensures forall l :: 0 <= l < k ==> s[l] != x
  {
    if s[0] == x then 0 else 1 + IndexOf(s[1..], x)
  }

  lemma IndexOfDistinct(s: seq<string>, j: nat)
    requires Distinct(s) && j < |s|
    ensures IndexOf(s, s[j]) == j
  {
    var k := IndexOf(s, s[j]);
    assert j >= k;
  }

  /** `pd.DataFrame(m, columns=names)`: one score column per name. */
  function FromMatrix(m: Matrix<real>, names: seq<string>): (f: Frame)
    requires Rect(m, |names|)
    ensures WellFormed(f)
  {
    Frame(names, seq(|names|, j requires 0 <= j < |names| => Scores(Column(m, j))))
  }

  /** `f[name] = c`: replaces the column of that name, or appends a new last column. */
  function SetColumn(f: Frame, name: string, c: Series): (g: Frame)
    requires WellFormed(f)
    ensures WellFormed(g)
  {
    if name in f.names then Frame(f.names, f.columns[IndexOf(f.names, name) := c])
    else Frame(f.names + [name], f.columns + [c])
  }

  /** `f[name]`. */
  function Lookup(f: Frame, name: string): Series
    requires WellFormed(f) && name in f.names
  {
    f.columns[IndexOf(f.names, name)]
  }

  /** `f[names]`: the named columns in the order given. */
  function Select(f: Frame, names: seq<string>): (g: Frame)
    requires WellFormed(f) && forall x :: x in names ==> x in f.names
    ensures WellFormed(g)
  {
    Frame(names, seq(|names|, k requires 0 <= k < |names| => Lookup(f, names[k])))
  }

  /** `[c for c in names if c != x]`. */
  function Without(names: seq<string>, x: string): (r: seq<string>)
    ensures forall y :: y in r <==> y in names && y != x
  {
    if |names| == 0 then []
    else
      assert names == [names[0]] + names[1..];
      (if names[0] != x then [names[0]] else []) + Without(names[1..], x)
  }

  /** Removing a name that is not there changes nothing. */
  lemma {:induction false} WithoutAbsent(names: seq<string>, x: string)
    requires x !in names
    ensures Without(names, x) == names
  {
    if |names| > 0 {
      WithoutAbsent(names[1..], x);
      assert names == [names[0]] + names[1..];
    }
  }

  lemma {:induction false} WithoutAppend(a: seq<string>, b: seq<string>, x: string)
    ensures Without(a + b, x) == Without(a, x) + Without(b, x)
    decreases |a|
  {
    if |a| == 0 {
      assert a + b == b;
    } else {
      assert (a + b)[1..] == a[1..] + b;
      WithoutAppend(a[1..], b, x);
    }
  }

  /**
   * When the reset succeeds, User_ID names exactly one column, the first, so
   * both `drop('User_ID', axis=1)` and `columns[1:]` leave the category
   * values in pivot order.
   */
  lemma {:induction false} ResetColumnsDropUserId(p: Pivot)
    requires ResetIndex(p).Ok?
    ensures ResetColumns(p)[0] == USER_ID && USER_ID !in ResetColumns(p)[1..]
    ensures ResetColumns(p)[1..] == p.values
    ensures Without(ResetColumns(p), USER_ID) == p.values
  {
    var c := ResetColumns(p);
    assert c[1..] == p.values;
    assert c == [USER_ID] + p.values;
    WithoutAppend([USER_ID], p.values, USER_ID);
    WithoutAbsent(p.values, USER_ID);
    assert Without([USER_ID], USER_ID) == [] by {
      assert [USER_ID][1..] == [];
    }
  }

  /** `f[['User_ID'] + [c for c in f.columns if c != 'User_ID']]`. */
  function UserFirst(f: Frame): (g: Frame)
    requires WellFormed(f) && USER_ID in f.names
    ensures WellFormed(g)
  {
    Select(f, [USER_ID] + Without(f.names, USER_ID))
  }

  /** The exported table: predictions under the category names, User_ID attached, then moved first. */
  function PredictionTable(rhat: Matrix<real>, values: seq<string>, users: seq<string>): (t: Frame)
    requires Rect(rhat, |values|)
    ensures WellFormed(t)
  {
    UserFirst(SetColumn(FromMatrix(rhat, values), USER_ID, Ids(users)))
  }

  /** Attaching User_ID to a frame that lacks it appends it as the last column. */
  lemma AttachedLast(rhat: Matrix<real>, values: seq<string>, users: seq<string>)
    requires Rect(rhat, |values|) && USER_ID !in values
    ensures var s := SetColumn(FromMatrix(rhat, values), USER_ID, Ids(users));
      && s.names == values + [USER_ID]
      && s.columns == FromMatrix(rhat, values).columns + [Ids(users)]
  {
  }

  /** The names kept after User_ID when it was the last name and nowhere else. */
  lemma WithoutLast(values: seq<string>)
    requires USER_ID !in values
    ensures Without(values + [USER_ID], USER_ID) == values
  {
    WithoutAppend(values, [USER_ID], USER_ID);
    WithoutAbsent(values, USER_ID);
    assert Without([USER_ID], USER_ID) == [] by {
      assert [USER_ID][1..] == [];
    }
  }

  /** Column j + 1 of the exported table is category j's column of predictions. */
  lemma PredictionColumn(rhat: Matrix<real>, values: seq<string>, users: seq<string>, j: nat)
    requires Rect(rhat, |values|) && Distinct(values) && USER_ID !in values && j < |values|
    ensures WellFormed(PredictionTable(rhat, values, users))
    ensures |PredictionTable(rhat, values, users).columns| == |values| + 1
    ensures PredictionTable(rhat, values, users).columns[j + 1] == Scores(Column(rhat, j))
  {
    var s := SetColumn(FromMatrix(rhat, values), USER_ID, Ids(users));
    AttachedLast(rhat, values, users);
    WithoutLast(values);
    assert Distinct(s.names);
    IndexOfDistinct(s.names, j);
  }

  /** The exported table starts with User_ID holding the row labels, followed by the category names. */
  lemma PredictionHead(rhat: Matrix<real>, values: seq<string>, users: seq<string>)
    requires Rect(rhat, |values|) && USER_ID !in values
    ensures PredictionTable(rhat, values, users).names == [USER_ID] + values
    ensures PredictionTable(rhat, values, users).columns[0] == Ids(users)
  {
    var s := SetColumn(FromMatrix(rhat, values), USER_ID, Ids(users));
    AttachedLast(rhat, values, users);
    WithoutLast(values);
    assert IndexOf(s.names, USER_ID) == |values|;
  }

  /**
   * The layout of the exported table when the category names are distinct
   * and none is User_ID: User_ID first holding the row labels in order, then
   * one column per category in the matrix's order, so that row i carries the
   * label of matrix row i and that row's predictions.
   */
  lemma PredictionLayout(rhat: Matrix<real>, values: seq<string>, users: seq<string>)
    requires Rect(rhat, |values|) && |users| == |rhat|
    requires Distinct(values) && USER_ID !in values
    ensures var t := PredictionTable(rhat, values, users);
      && t.names == [USER_ID] + values
      && t.columns[0] == Ids(users)
      && (forall j :: 0 <= j < |values| ==> t.columns[j + 1] == Scores(Column(rhat, j)))
      && (forall i, j :: 0 <= i < |rhat| && 0 <= j < |values| ==> t.columns[j + 1].xs[i] == rhat[i][j])
  {
    PredictionHead(rhat, values, users);
    var t := PredictionTable(rhat, values, users);
    forall j | 0 <= j < |values|
      ensures t.columns[j + 1] == Scores(Column(rhat, j))
    {
      PredictionColumn(rhat, values, users, j);
    }
  }
}
