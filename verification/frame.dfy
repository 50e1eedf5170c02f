/** The slice of a pandas DataFrame the pipeline uses: named columns and rows
    of cells, with `dropna` on one column, `head`, `empty`, column assignment
    and `astype(str)`. */
module Frame {
  import opened Json

  /** One record: column name to cell. */
  type Row = map<string, Json>

  /** A frame as a value: the column order and the rows in order. */
  datatype Table = Table(columns: seq<string>, rows: seq<Row>)

  function ColumnSet(columns: seq<string>): set<string>
  {
    set c | c in columns
  }

  /** Column names are distinct and every row has a cell for exactly the
      frame's columns (pandas fills a missing field with NaN). */
  ghost predicate WellFormed(t: Table)
  {
    (forall i, j :: 0 <= i < j < |t.columns| ==> t.columns[i] != t.columns[j]) &&
    (forall k :: 0 <= k < |t.rows| ==> t.rows[k].Keys == ColumnSet(t.columns))
  }

  /** `df.empty`: true when either axis has length zero. */
  predicate IsEmpty(t: Table)
  {
    |t.rows| == 0 || |t.columns| == 0
  }

  /** The row holds a non-null cell in column `col`. */
  predicate HasValue(r: Row, col: string)
  {
    col in r && !r[col].JNull?
  }

  /** The rows with a non-null cell in `col`, in their original order. */
  function KeepWithValue(rows: seq<Row>, col: string): (r: seq<Row>)
    ensures |r| <= |rows|
    ensures forall k :: 0 <= k < |r| ==> HasValue(r[k], col)
  {
    if rows == [] then []
    else
      var last := rows[|rows| - 1];
      KeepWithValue(rows[..|rows| - 1], col) + (if HasValue(last, col) then [last] else [])
  }

  /** Indices of the rows that `dropna(subset=[col])` keeps. */
  function WithValueIndices(rows: seq<Row>, col: string): set<nat>
  {
    set k: nat | k < |rows| && HasValue(rows[k], col)
  }

  /** `df.dropna(subset=[col])`; pandas raises KeyError for an unknown column. */
  function DropNa(t: Table, col: string): (r: Table)
    requires col in t.columns
    ensures r.columns == t.columns
  {
    Table(t.columns, KeepWithValue(t.rows, col))
  }

  /** `df.head(n)`: the first `n` rows, or all of them when there are fewer. */
  function Head(t: Table, n: nat): (r: Table)
    ensures r.columns == t.columns
    ensures |r.rows| == if n < |t.rows| then n else |t.rows|
    ensures r.rows <= t.rows
  {
    Table(t.columns, if n < |t.rows| then t.rows[..n] else t.rows)
  }

  /** Filtering distributes over concatenation: the filter keeps order. */
  lemma {:induction false} KeepWithValueAppend(a: seq<Row>, b: seq<Row>, col: string)
    ensures KeepWithValue(a + b, col) == KeepWithValue(a, col) + KeepWithValue(b, col)
    decreases |b|
  {
    if b == [] {
      assert a + b == a;
    } else {
      var b' := b[..|b| - 1];
      assert (a + b)[..|a + b| - 1] == a + b';
      assert (a + b)[|a + b| - 1] == b[|b| - 1];
      KeepWithValueAppend(a, b', col);
    }
  }

  /** A row survives the filter exactly when it is one of the input rows and
      has a value in `col`. */
  lemma {:induction false} KeepWithValueMembers(rows: seq<Row>, col: string)
    ensures forall r :: r in KeepWithValue(rows, col) <==> r in rows && HasValue(r, col)
    decreases |rows|
  {
    if rows != [] {
      var front := rows[..|rows| - 1];
      KeepWithValueMembers(front, col);
      assert rows == front + [rows[|rows| - 1]];
    }
  }

  /** The filter keeps as many rows as there are rows with a value. */
  lemma {:induction false} KeepWithValueCount(rows: seq<Row>, col: string)
    ensures |KeepWithValue(rows, col)| == |WithValueIndices(rows, col)|
    decreases |rows|
  {
    if rows == [] {
      assert WithValueIndices(rows, col) == {};
    } else {
      var n := |rows| - 1;
      var front := rows[..n];
      KeepWithValueCount(front, col);
      var before := WithValueIndices(front, col);
      assert n !in before;
      if HasValue(rows[n], col) {
        assert WithValueIndices(rows, col) == before + {n};
      } else {
        assert WithValueIndices(rows, col) == before;
      }
    }
  }

  /** `dropna` keeps a frame well formed, and every surviving row has a value. */
  lemma DropNaWellFormed(t: Table, col: string)
    requires WellFormed(t) && col in t.columns
    ensures WellFormed(DropNa(t, col))
    ensures forall k :: 0 <= k < |DropNa(t, col).rows| ==> HasValue(DropNa(t, col).rows[k], col)
  {
    var kept := DropNa(t, col).rows;
    KeepWithValueMembers(t.rows, col);
    forall k | 0 <= k < |kept|
      ensures kept[k].Keys == ColumnSet(t.columns) && HasValue(kept[k], col)
    {
      assert kept[k] in KeepWithValue(t.rows, col);
      var i :| 0 <= i < |t.rows| && t.rows[i] == kept[k];
    }
  }

  /** The text Python's `str()` gives a cell: strings are kept, anything else
      is rendered by `show`. */
  function AsText(c: Json, show: Json -> string): (r: Json)
    ensures r.JStr?
    ensures c.JStr? ==> r == c
  {
    if c.JStr? then c else JStr(show(c))
  }

  /** The frame object that the pipeline changes in place. */
  class DataFrame {
    var columns: seq<string>
    var rows: seq<Row>

    ghost predicate Valid()
      reads this
    {
      WellFormed(Table(columns, rows))
    }

    /** The current contents as a value. */
    function View(): Table
      reads this
    {
      Table(columns, rows)
    }

    /** `df.copy()`: a fresh frame holding `t`. */
    constructor Copy(t: Table)
      requires WellFormed(t)
      ensures Valid() && View() == t
    {
      columns := t.columns;
      rows := t.rows;
    }

    /** `df[name] = values`: sets cell `name` of row k to `values[k]`,
        appending the column when it is new. pandas refuses a list whose
        length differs from the number of rows. */
    method Assign(name: string, values: seq<Json>)
      requires Valid()
      requires |values| == |rows|
      modifies this
      ensures Valid()
      ensures columns == if name in old(columns) then old(columns) else old(columns) + [name]
      ensures |rows| == |old(rows)|
      ensures forall k :: 0 <= k < |rows| ==> rows[k] == old(rows)[k][name := values[k]]
    {
      var before := rows;
      if name !in columns {
        columns := columns + [name];
      }
      rows := seq(|before|, k requires 0 <= k < |before| => before[k][name := values[k]]);
    }

    /** `df[name] = df[name].astype(str)`. */
    method AsTypeStr(name: string, show: Json -> string)
      requires Valid()
      requires name in columns
      modifies this
      ensures Valid()
      ensures columns == old(columns)
      ensures |rows| == |old(rows)|
      ensures forall k :: 0 <= k < |rows| ==>
        name in old(rows)[k] && rows[k] == old(rows)[k][name := AsText(old(rows)[k][name], show)]
    {
      var before := rows;
      assert forall k :: 0 <= k < |before| ==> name in before[k];
      rows := seq(|before|, k requires 0 <= k < |before| => before[k][name := AsText(before[k][name], show)]);
    }
  }
}
