/**
 * pandas DataFrames as the data manager uses them: row labels, column labels
 * and one row of cells per row label, plus the handful of DataFrame
 * operations the codecs and validators call. A data set is a dict from table
 * names ('general', 'variables', 'data', ...) to frames.
 *
 * Column lookups by label use the first column carrying that label; frames
 * with duplicate column labels (where pandas returns a DataFrame instead of a
 * Series) are outside this model.
 */
module Tables {
  import opened PyValues

  datatype Table = Table(index: seq<int>, columns: seq<Cell>, rows: seq<seq<Cell>>)

  /** One row per row label, and every row as wide as the column labels. */
  predicate Rectangular(t: Table) {
    |t.rows| == |t.index| && forall j :: 0 <= j < |t.rows| ==> |t.rows[j]| == |t.columns|
  }

  type Frame = t: Table | Rectangular(t) witness Table([], [], [])

  /** The data dict passed between codecs and validators. */
  type DataDict = map<string, Frame>

  /** `data_dict[key]` */
  function Get(d: DataDict, key: string): (r: Result<Frame>)
    ensures r.Ok? <==> key in d
    ensures r.Ok? ==> r.value == d[key]
    ensures r.Err? ==> r.error == KeyError(key)
  {
    if key in d then Ok(d[key]) else Err(KeyError(key))
  }

  /** `range(lo, lo + n)`, also pandas' default row labels when lo is 0. */
  function Range(lo: int, n: nat): (r: seq<int>)
    ensures |r| == n && forall k :: 0 <= k < n ==> r[k] == lo + k
  {
    seq(n, k => lo + k)
  }

  /** Position of the first occurrence of x. */
  function Pos<T(==)>(xs: seq<T>, x: T): (r: Option<nat>)
    ensures r.None? <==> x !in xs
    ensures r.Some? ==> r.value < |xs| && xs[r.value] == x && x !in xs[..r.value]
  {
    if xs == [] then None
    else if xs[0] == x then Some(0)
    else
      match Pos(xs[1..], x)
      case None => None
      case Some(k) =>
        assert xs[..k + 1] == [xs[0]] + xs[1..][..k];
        Some(k + 1)
  }

  /** The first occurrence is the only position with x there and not before. */
  lemma PosIsFirst<T>(xs: seq<T>, x: T, p: nat)
    requires p < |xs| && xs[p] == x && x !in xs[..p]
    ensures Pos(xs, x) == Some(p)
  {
  }

  /** The values of the column at position i, top to bottom. */
  function ColumnAt(t: Frame, i: nat): (vs: seq<Cell>)
    requires i < |t.columns|
    ensures |vs| == |t.rows| && forall j :: 0 <= j < |vs| ==> vs[j] == t.rows[j][i]
  {
    seq(|t.rows|, j requires 0 <= j < |t.rows| => t.rows[j][i])
  }


  /** `list(df[name])`: KeyError when no column carries the label. */
  function Column(t: Frame, name: Cell): (r: Result<seq<Cell>>)
    ensures r.Ok? <==> name in t.columns
    ensures r.Ok? ==> |r.value| == |t.rows|
    ensures r.Err? ==> r.error == KeyError(PyStr(name))
    ensures r.Ok? ==> exists i :: 0 <= i < |t.columns| && t.columns[i] == name && r.value == ColumnAt(t, i)
  {
    match Pos(t.columns, name)
    case None => Err(KeyError(PyStr(name)))
    case Some(i) => Ok(ColumnAt(t, i))
  }

  /** `df.loc[row, col]`: KeyError when either name is absent. */
  function Loc(t: Frame, row: int, col: Cell): (r: Result<Cell>)
    ensures r.Ok? <==> row in t.index && col in t.columns
    ensures r.Ok? ==> exists j, i :: 0 <= j < |t.rows| && 0 <= i < |t.columns| && t.index[j] == row && t.columns[i] == col && r.value == t.rows[j][i]
  {
    match Pos(t.index, row)
    case None => Err(KeyError(IntToString(row)))
    case Some(j) =>
      match Pos(t.columns, col)
      case None => Err(KeyError(PyStr(col)))
      case Some(i) => Ok(t.rows[j][i])
  }

  /** `df.loc[row, :]`, as the list of the row's values. */
  function LocRow(t: Frame, row: int): (r: Result<seq<Cell>>)
    ensures r.Ok? <==> row in t.index
    ensures r.Ok? ==> exists j :: 0 <= j < |t.rows| && t.index[j] == row && r.value == t.rows[j]
  {
    match Pos(t.index, row)
    case None => Err(KeyError(IntToString(row)))
    case Some(j) => Ok(t.rows[j])
  }

  /** `series.iloc[0]` */
  function First(vs: seq<Cell>): (r: Result<Cell>)
    ensures r.Ok? <==> |vs| > 0
    ensures r.Ok? ==> r.value == vs[0]
    ensures r.Err? ==> r.error == IndexError
  {
    if vs == [] then Err(IndexError) else Ok(vs[0])
  }

  function FillCell(c: Cell, v: Cell): Cell {
    if IsNa(c) then v else c
  }

  /** `df.fillna(v)`: every missing cell becomes v, everything else stays. */
  function FillNa(t: Frame, v: Cell): (r: Frame)
    ensures r.index == t.index && r.columns == t.columns && |r.rows| == |t.rows|
    ensures forall j :: 0 <= j < |t.rows| ==> |r.rows[j]| == |t.rows[j]|
    ensures forall j, i :: 0 <= j < |t.rows| && 0 <= i < |t.rows[j]| ==> r.rows[j][i] == FillCell(t.rows[j][i], v)
  {
    Table(t.index, t.columns, seq(|t.rows|, j requires 0 <= j < |t.rows| =>
      seq(|t.rows[j]|, i requires 0 <= i < |t.rows[j]| => FillCell(t.rows[j][i], v))))
  }

  /** `df.columns = names`: ValueError (length mismatch) unless one name per column. */
  function SetColumns(t: Frame, names: seq<Cell>): (r: Result<Frame>)
    ensures r.Ok? <==> |names| == |t.columns|
    ensures r.Ok? ==> r.value.columns == names && r.value.index == t.index && r.value.rows == t.rows
    ensures r.Err? ==> r.error.ValueError?
  {
    if |names| == |t.columns| then Ok(Table(t.index, names, t.rows))
    else Err(ValueError("Length mismatch"))
  }

  /** Positions of the first column with each name, or the first name with none. */
  function Positions(cols: seq<Cell>, labels: seq<Cell>): (r: Result<seq<nat>>)
    ensures r.Ok? <==> forall k :: 0 <= k < |labels| ==> labels[k] in cols
    ensures r.Ok? ==> |r.value| == |labels| && forall k :: 0 <= k < |labels| ==> Pos(cols, labels[k]) == Some(r.value[k])
  {
    if labels == [] then Ok([])
    else
      var ps :- Positions(cols, labels[..|labels| - 1]);
      match Pos(cols, labels[|labels| - 1])
      case None => Err(KeyError(PyStr(labels[|labels| - 1])))
      case Some(p) => Ok(ps + [p])
  }

  /** `df[labels]`: exactly the listed columns, in the listed order; KeyError if one is absent. */
  function Project(t: Frame, labels: seq<Cell>): (r: Result<Frame>)
    ensures r.Ok? <==> forall k :: 0 <= k < |labels| ==> labels[k] in t.columns
    ensures r.Ok? ==> r.value.columns == labels && r.value.index == t.index
    ensures r.Ok? ==> forall k :: 0 <= k < |labels| ==> Column(r.value, labels[k]) == Column(t, labels[k])
    ensures r.Ok? ==> |r.value.rows| == |t.rows| && forall j, k :: 0 <= j < |t.rows| && 0 <= k < |labels| ==>
      Pos(t.columns, labels[k]).Some? && r.value.rows[j][k] == t.rows[j][Pos(t.columns, labels[k]).value]
  {
    var ps :- Positions(t.columns, labels);
    var p: Frame := Table(t.index, labels, seq(|t.rows|, j requires 0 <= j < |t.rows| =>
      seq(|labels|, k requires 0 <= k < |labels| => t.rows[j][ps[k]])));
    ProjectColumns(t, labels, ps, p);
    Ok(p)
  }

  lemma ProjectColumns(t: Frame, labels: seq<Cell>, ps: seq<nat>, p: Frame)
    requires |ps| == |labels| && forall k :: 0 <= k < |labels| ==> ps[k] < |t.columns| && Pos(t.columns, labels[k]) == Some(ps[k])
    requires p.columns == labels && |p.rows| == |t.rows|
    requires forall j, k :: 0 <= j < |t.rows| && 0 <= k < |labels| ==> p.rows[j][k] == t.rows[j][ps[k]]
    ensures forall k :: 0 <= k < |labels| ==> Column(p, labels[k]) == Column(t, labels[k])
  {
    forall k | 0 <= k < |labels|
      ensures Column(p, labels[k]) == Column(t, labels[k])
    {
      // the first projected column with this name is fed by the first source column with it
      var a := Pos(p.columns, labels[k]).value;
      assert labels[a] == labels[k];
      assert ColumnAt(p, a) == ColumnAt(t, ps[k]);
    }
  }
}
