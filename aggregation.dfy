/**
 * The interaction aggregator: the Planet filter and the max / fill-0 pivot of
 * the interaction records into a User x Category_Value strength matrix.
 */
module Aggregation {
  import opened Wrappers
  import opened Keys

  /**
   * One interaction record. The timestamp is not part of the model: the
   * aggregation never reads it.
   */
  datatype Record = Record(
    interactionId: string,
    userId: string,
    categoryType: string,
    categoryValue: string,
    strength: int)

  const PLANET := "Planet"

  /** Name of the key column that resetting the pivot's index inserts. */
  const USER_ID := "User_ID"

  predicate IsPlanet(x: Record)
  {
    x.categoryType == PLANET
  }

  /** Keeps the records whose Category_Type is "Planet", in their original order. */
  function PlanetOnly(rs: seq<Record>): (r: seq<Record>)
    ensures |r| <= |rs|
  {
    if |rs| == 0 then []
    else (if IsPlanet(rs[0]) then [rs[0]] else []) + PlanetOnly(rs[1..])
  }

  /** Exactly the planet records pass, each as often as it occurs in the input. */
  lemma {:induction false} PlanetOnlyKeepsPlanets(rs: seq<Record>)
    ensures forall x :: x in PlanetOnly(rs) <==> x in rs && IsPlanet(x)
    ensures forall x :: multiset(PlanetOnly(rs))[x] == if IsPlanet(x) then multiset(rs)[x] else 0
    decreases |rs|
  {
    if |rs| > 0 {
      PlanetOnlyKeepsPlanets(rs[1..]);
      assert rs == [rs[0]] + rs[1..];
    }
  }

  /** Filtering commutes with concatenation: the relative order of the kept records is the input's. */
  lemma {:induction false} PlanetOnlyAppend(a: seq<Record>, b: seq<Record>)
    ensures PlanetOnly(a + b) == PlanetOnly(a) + PlanetOnly(b)
    decreases |a|
  {
    if |a| == 0 {
      assert a + b == b;
    } else {
      var head := if IsPlanet(a[0]) then [a[0]] else [];
      assert (a + b)[0] == a[0];
      assert (a + b)[1..] == a[1..] + b;
      PlanetOnlyAppend(a[1..], b);
      assert PlanetOnly(a + b) == head + (PlanetOnly(a[1..]) + PlanetOnly(b));
      assert head + (PlanetOnly(a[1..]) + PlanetOnly(b)) == (head + PlanetOnly(a[1..])) + PlanetOnly(b);
    }
  }

  /** Filtering twice is filtering once. */
  lemma {:induction false} PlanetOnlyIdempotent(rs: seq<Record>)
    ensures PlanetOnly(PlanetOnly(rs)) == PlanetOnly(rs)
    decreases |rs|
  {
    if |rs| > 0 {
      PlanetOnlyIdempotent(rs[1..]);
      var head := if IsPlanet(rs[0]) then [rs[0]] else [];
      PlanetOnlyAppend(head, PlanetOnly(rs[1..]));
      if IsPlanet(rs[0]) {
        assert PlanetOnly(head) == head by {
          assert head[1..] == [];
        }
      }
    }
  }

  predicate Matches(x: Record, user: string, value: string)
  {
    x.userId == user && x.categoryValue == value
  }

  function Max(a: int, b: int): int
  {
    if a >= b then a else b
  }

  /** The largest strength among the records of one (user, value) pair; None when the pair has none. */
  function Strongest(rs: seq<Record>, user: string, value: string): Option<int>
  {
    if |rs| == 0 then None
    else
      var rest := Strongest(rs[1..], user, value);
      if !Matches(rs[0], user, value) then rest
      else match rest
        case None => Some(rs[0].strength)
        case Some(m) => Some(Max(m, rs[0].strength))
  }

  /**
   * Strongest is the maximum: None exactly when no record matches, and
   * otherwise a strength some matching record carries that no matching
   * record exceeds.
   */
  lemma {:induction false} StrongestIsMax(rs: seq<Record>, user: string, value: string)
    ensures var r := Strongest(rs, user, value);
      && (r.None? <==> forall x :: x in rs ==> !Matches(x, user, value))
      && (r.Some? ==> exists x :: x in rs && Matches(x, user, value) && x.strength == r.value)
      && (r.Some? ==> forall x :: x in rs && Matches(x, user, value) ==> x.strength <= r.value)
    decreases |rs|
  {
    if |rs| > 0 {
      StrongestIsMax(rs[1..], user, value);
      assert rs == [rs[0]] + rs[1..];
    }
  }

  /** A pivot cell: the maximum strength of the pair, or the fill value 0. */
  function Cell(rs: seq<Record>, user: string, value: string): int
  {
    match Strongest(rs, user, value)
    case None => 0
    case Some(m) => m
  }

  function UserIds(rs: seq<Record>): (r: seq<string>)
    ensures |r| == |rs| && forall k :: 0 <= k < |rs| ==> r[k] == rs[k].userId
  {
    seq(|rs|, k requires 0 <= k < |rs| => rs[k].userId)
  }

  function CategoryValues(rs: seq<Record>): (r: seq<string>)
    ensures |r| == |rs| && forall k :: 0 <= k < |rs| ==> r[k] == rs[k].categoryValue
  {
    seq(|rs|, k requires 0 <= k < |rs| => rs[k].categoryValue)
  }

  /** The pivot table: sorted row keys, sorted column keys and the strength grid. */
  datatype Pivot = Pivot(users: seq<string>, values: seq<string>, cells: seq<seq<int>>)

  /** The strength grid over the given row and column keys. */
  function CellGrid(rs: seq<Record>, users: seq<string>, values: seq<string>): seq<seq<int>>
  {
    seq(|users|, i requires 0 <= i < |users| =>
      seq(|values|, j requires 0 <= j < |values| => Cell(rs, users[i], values[j])))
  }

  /** pivot_table(index=User_ID, columns=Category_Value, values=Strength, aggfunc=max, fill_value=0). */
  function PivotMax(rs: seq<Record>): Pivot
  {
    var users := SortedKeys(UserIds(rs));
    var values := SortedKeys(CategoryValues(rs));
    Pivot(users, values, CellGrid(rs, users, values))
  }

  /** The User x Category_Value matrix of the planet interactions. */
  function PlanetMatrix(interactions: seq<Record>): Pivot
  {
    PivotMax(PlanetOnly(interactions))
  }

  datatype FrameError = ColumnExists(name: string)

  /**
   * Moving the pivot's index into a leading User_ID column. pandas refuses to
   * insert a column whose name is already taken, so a category value called
   * User_ID is an error; otherwise the table is unchanged.
   */
  function ResetIndex(p: Pivot): (r: Result<Pivot, FrameError>)
    ensures r.Err? <==> USER_ID in p.values
    ensures r.Err? ==> r.error == ColumnExists(USER_ID)
    ensures r.Ok? ==> r.value == p
  {
    if USER_ID in p.values then Err(ColumnExists(USER_ID)) else Ok(p)
  }

  /** The column names of the reset table: the new User_ID column first, then the category values. */
  function ResetColumns(p: Pivot): seq<string>
  {
    [USER_ID] + p.values
  }

  lemma UserIdsMembers(rs: seq<Record>, u: string)
    ensures u in UserIds(rs) <==> exists x :: x in rs && x.userId == u
  {
    if u in UserIds(rs) {
      var k :| 0 <= k < |rs| && UserIds(rs)[k] == u;
      assert rs[k] in rs;
    }
    if exists x :: x in rs && x.userId == u {
      var x :| x in rs && x.userId == u;
      var k :| 0 <= k < |rs| && rs[k] == x;
      assert UserIds(rs)[k] == u;
    }
  }

  lemma CategoryValuesMembers(rs: seq<Record>, c: string)
    ensures c in CategoryValues(rs) <==> exists x :: x in rs && x.categoryValue == c
  {
    if c in CategoryValues(rs) {
      var k :| 0 <= k < |rs| && CategoryValues(rs)[k] == c;
      assert rs[k] in rs;
    }
    if exists x :: x in rs && x.categoryValue == c {
      var x :| x in rs && x.categoryValue == c;
      var k :| 0 <= k < |rs| && rs[k] == x;
      assert CategoryValues(rs)[k] == c;
    }
  }

  /**
   * What the pivot is: one row per distinct user, one column per distinct
   * category value, both sorted, and a grid of that shape.
   */
  lemma PivotLayout(rs: seq<Record>)
    ensures var p := PivotMax(rs);
      && StrictlySorted(p.users) && StrictlySorted(p.values)
      && (forall u :: u in p.users <==> exists x :: x in rs && x.userId == u)
      && (forall c :: c in p.values <==> exists x :: x in rs && x.categoryValue == c)
      && |p.cells| == |p.users|
      && (forall i :: 0 <= i < |p.users| ==> |p.cells[i]| == |p.values|)
  {
    forall u
      ensures u in PivotMax(rs).users <==> exists x :: x in rs && x.userId == u
    {
      UserIdsMembers(rs, u);
    }
    forall c
      ensures c in PivotMax(rs).values <==> exists x :: x in rs && x.categoryValue == c
    {
      CategoryValuesMembers(rs, c);
    }
  }

  /**
   * A cell is 0 exactly when its pair has no record; otherwise it is a
   * strength some record of the pair carries and no record of the pair
   * exceeds it. With strengths in 1..5 every cell lies in {0} or 1..5.
   */
  lemma CellMeaning(rs: seq<Record>, i: nat, j: nat)
    requires forall x :: x in rs ==> 1 <= x.strength <= 5
    requires i < |PivotMax(rs).users| && j < |PivotMax(rs).values|
    ensures var p := PivotMax(rs);
      var u, c, v := p.users[i], p.values[j], p.cells[i][j];
      && (v == 0 <==> forall x :: x in rs ==> !Matches(x, u, c))
      && (v != 0 ==> 1 <= v <= 5)
      && (v != 0 ==> exists x :: x in rs && Matches(x, u, c) && x.strength == v)
      && (forall x :: x in rs && Matches(x, u, c) ==> x.strength <= v)
  {
    var p := PivotMax(rs);
    StrongestIsMax(rs, p.users[i], p.values[j]);
    var s := Strongest(rs, p.users[i], p.values[j]);
    if s.Some? {
      var x :| x in rs && Matches(x, p.users[i], p.values[j]) && x.strength == s.value;
    }
  }

  predicate RowObserved(row: seq<int>)
  {
    exists j :: 0 <= j < |row| && row[j] > 0
  }

  predicate ColumnObserved(cells: seq<seq<int>>, j: nat)
  {
    exists i :: 0 <= i < |cells| && j < |cells[i]| && cells[i][j] > 0
  }

  /**
   * With strengths of at least 1 the pivot has no all-zero row and no
   * all-zero column: every user and every category value was observed.
   */
  lemma EveryRowAndColumnObserved(rs: seq<Record>)
    requires forall x :: x in rs ==> x.strength >= 1
    ensures var p := PivotMax(rs);
      && (forall i :: 0 <= i < |p.users| ==> RowObserved(p.cells[i]))
      && (forall j :: 0 <= j < |p.values| ==> ColumnObserved(p.cells, j))
  {
    var p := PivotMax(rs);
    PivotLayout(rs);
    forall i | 0 <= i < |p.users|
      ensures RowObserved(p.cells[i])
    {
      assert p.users[i] in p.users;
      var x :| x in rs && x.userId == p.users[i];
      assert x.categoryValue in p.values;
      var j :| 0 <= j < |p.values| && p.values[j] == x.categoryValue;
      assert Matches(x, p.users[i], p.values[j]);
      StrongestIsMax(rs, p.users[i], p.values[j]);
      assert p.cells[i][j] >= x.strength;
    }
    forall j | 0 <= j < |p.values|
      ensures ColumnObserved(p.cells, j)
    {
      assert p.values[j] in p.values;
      var x :| x in rs && x.categoryValue == p.values[j];
      assert x.userId in p.users;
      var i :| 0 <= i < |p.users| && p.users[i] == x.userId;
      assert Matches(x, p.users[i], p.values[j]);
      StrongestIsMax(rs, p.users[i], p.values[j]);
      assert p.cells[i][j] >= x.strength;
    }
  }

  function Join(a: Option<int>, b: Option<int>): Option<int>
  {
    match a
    case None => b
    case Some(m) => match b
      case None => a
      case Some(n) => Some(Max(m, n))
  }

  /** The maximum of a concatenation is the larger of the two maxima. */
  lemma {:induction false} StrongestAppend(a: seq<Record>, b: seq<Record>, user: string, value: string)
    ensures Strongest(a + b, user, value) == Join(Strongest(a, user, value), Strongest(b, user, value))
    decreases |a|
  {
    if |a| == 0 {
      assert a + b == b;
    } else {
      assert (a + b)[1..] == a[1..] + b;
      StrongestAppend(a[1..], b, user, value);
    }
  }

  /** The pivot does not depend on the order of the records. */
  lemma PivotOrderInsensitive(a: seq<Record>, b: seq<Record>)
    ensures PivotMax(a + b) == PivotMax(b + a)
  {
    var ab, ba := a + b, b + a;
    forall u
      ensures u in UserIds(ab) <==> u in UserIds(ba)
    {
      UserIdsMembers(ab, u);
      UserIdsMembers(ba, u);
    }
    forall c
      ensures c in CategoryValues(ab) <==> c in CategoryValues(ba)
    {
      CategoryValuesMembers(ab, c);
      CategoryValuesMembers(ba, c);
    }
    SortedKeysCanonical(UserIds(ab), UserIds(ba));
    SortedKeysCanonical(CategoryValues(ab), CategoryValues(ba));
    forall u, c
      ensures Cell(ab, u, c) == Cell(ba, u, c)
    {
      StrongestAppend(a, b, u, c);
      StrongestAppend(b, a, u, c);
    }
    var p, q := PivotMax(ab), PivotMax(ba);
    assert p.users == q.users && p.values == q.values;
    forall i | 0 <= i < |p.users|
      ensures p.cells[i] == q.cells[i]
    {
    }
  }

  /** The record set of the worked example: three planet interactions and one star interaction. */
  function ExampleRecords(): seq<Record>
  {
    [ Record("1", "U1", "Planet", "Dwarf Planet", 4),
      Record("2", "U1", "Planet", "Gas Giant", 2),
      Record("3", "U2", "Star", "G", 3),
      Record("4", "U2", "Planet", "Dwarf Planet", 5) ]
  }

  lemma ExampleKeys(users: seq<string>, values: seq<string>)
    requires users == ["U1", "U1", "U2"]
    requires values == ["Dwarf Planet", "Gas Giant", "Dwarf Planet"]
    ensures SortedKeys(users) == ["U1", "U2"]
    ensures SortedKeys(values) == ["Dwarf Planet", "Gas Giant"]
  {
    assert Below("U1", "U2") by {
      assert "U1"[1..] == "1" && "U2"[1..] == "2";
    }
    assert Below("Dwarf Planet", "Gas Giant");
    assert SortedKeys(["U2"]) == ["U2"];
    assert users[1..] == ["U1", "U2"];
    assert ["U1", "U2"][1..] == ["U2"];
    assert SortedKeys(["U1", "U2"]) == ["U1", "U2"];
    assert SortedKeys(["Dwarf Planet"]) == ["Dwarf Planet"];
    assert values[1..] == ["Gas Giant", "Dwarf Planet"];
    assert ["Gas Giant", "Dwarf Planet"][1..] == ["Dwarf Planet"];
    assert SortedKeys(["Gas Giant", "Dwarf Planet"]) == ["Dwarf Planet", "Gas Giant"];
  }

  function ExamplePlanets(): seq<Record>
  {
    [ Record("1", "U1", "Planet", "Dwarf Planet", 4),
      Record("2", "U1", "Planet", "Gas Giant", 2),
      Record("4", "U2", "Planet", "Dwarf Planet", 5) ]
  }

  lemma ExampleFilter()
    ensures PlanetOnly(ExampleRecords()) == ExamplePlanets()
  {
    var rs := ExampleRecords();
    assert rs[1..][1..][1..] == [rs[3]];
    assert rs[1..][1..] == [rs[2], rs[3]];
  }

  predicate IsExamplePlanets(ps: seq<Record>)
  {
    && |ps| == 3
    && ps[0] == Record("1", "U1", "Planet", "Dwarf Planet", 4)
    && ps[1] == Record("2", "U1", "Planet", "Gas Giant", 2)
    && ps[2] == Record("4", "U2", "Planet", "Dwarf Planet", 5)
  }

  lemma ExampleCells(ps: seq<Record>)
    requires IsExamplePlanets(ps)
    ensures Cell(ps, "U1", "Dwarf Planet") == 4
    ensures Cell(ps, "U1", "Gas Giant") == 2
    ensures Cell(ps, "U2", "Dwarf Planet") == 5
    ensures Cell(ps, "U2", "Gas Giant") == 0
  {
    assert ps[1..] == [ps[1], ps[2]] && ps[1..][1..] == [ps[2]] && ps[1..][1..][1..] == [];
    assert Strongest(ps[1..][1..], "U1", "Dwarf Planet") == None;
    assert Strongest(ps[1..][1..], "U1", "Gas Giant") == None;
    assert Strongest(ps[1..][1..], "U2", "Dwarf Planet") == Some(5);
    assert Strongest(ps[1..][1..], "U2", "Gas Giant") == None;
    assert Strongest(ps[1..], "U1", "Dwarf Planet") == None;
    assert Strongest(ps[1..], "U1", "Gas Giant") == Some(2);
    assert Strongest(ps[1..], "U2", "Dwarf Planet") == Some(5);
    assert Strongest(ps[1..], "U2", "Gas Giant") == None;
  }

  /** The worked example: two users over two planet types, the missing pair filled with 0, the star record dropped. */
  lemma WorkedExample()
    ensures PlanetMatrix(ExampleRecords()) == Pivot(["U1", "U2"], ["Dwarf Planet", "Gas Giant"], [[4, 2], [5, 0]])
  {
    ExampleFilter();
    ExamplePivot(PlanetOnly(ExampleRecords()));
  }

  lemma ExampleGrid(ps: seq<Record>, users: seq<string>, values: seq<string>)
    requires IsExamplePlanets(ps)
    requires users == ["U1", "U2"] && values == ["Dwarf Planet", "Gas Giant"]
    ensures CellGrid(ps, users, values) == [[4, 2], [5, 0]]
  {
    ExampleCells(ps);
    var g := CellGrid(ps, users, values);
    assert g[0] == [4, 2];
    assert g[1] == [5, 0];
  }

  lemma ExamplePivot(ps: seq<Record>)
    requires IsExamplePlanets(ps)
    ensures PivotMax(ps) == Pivot(["U1", "U2"], ["Dwarf Planet", "Gas Giant"], [[4, 2], [5, 0]])
  {
    assert UserIds(ps) == ["U1", "U1", "U2"];
    assert CategoryValues(ps) == ["Dwarf Planet", "Gas Giant", "Dwarf Planet"];
    ExampleKeys(UserIds(ps), CategoryValues(ps));
    ExampleGrid(ps, SortedKeys(UserIds(ps)), SortedKeys(CategoryValues(ps)));
  }
}
