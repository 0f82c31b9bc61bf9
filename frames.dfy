/**
 * The tabular dataset both engines analyse: what pandas builds from the JSON list
 * of records. A column has a name, a dtype that is either numeric or not, and one
 * cell per row; `None` stands for a missing value (pandas' NaN).
 */
module Frames {
  import opened Wrappers

  datatype Column = Column(name: string, numeric: bool, values: seq<Option<real>>)

  datatype Frame = Frame(rows: nat, columns: seq<Column>)

  /** `df.columns`, in order. */
  function Names(f: Frame): (r: seq<string>)
    ensures |r| == |f.columns|
  {
    seq(|f.columns|, i requires 0 <= i < |f.columns| => f.columns[i].name)
  }

  /** `df.empty`: no rows or no columns. */
  predicate IsEmpty(f: Frame)
  {
    f.rows == 0 || |f.columns| == 0
  }

  /** `name in df.columns`. */
  predicate HasColumn(f: Frame, name: string)
  {
    name in Names(f)
  }

  /**
   * `[c for c in selected if c in names]`: the selected names that are listed in
   * `names`, in the selection's order.
   */
  function Keep(selected: seq<string>, names: seq<string>): (r: seq<string>)
    ensures forall c :: c in r <==> c in selected && c in names
    ensures |r| <= |selected|
  {
    if selected == [] then []
    else (if selected[0] in names then [selected[0]] else []) + Keep(selected[1..], names)
  }

  /** The filter keeps the selection's order: it distributes over concatenation. */
  lemma {:induction false} KeepAppend(a: seq<string>, b: seq<string>, names: seq<string>)
    ensures Keep(a + b, names) == Keep(a, names) + Keep(b, names)
  {
    if a == [] {
      assert a + b == b;
    } else {
      assert (a + b)[1..] == a[1..] + b;
      KeepAppend(a[1..], b, names);
    }
  }

  /** A selection made only of listed names is kept exactly as given. */
  lemma {:induction false} KeepAllListed(selected: seq<string>, names: seq<string>)
    requires forall c :: c in selected ==> c in names
    ensures Keep(selected, names) == selected
  {
    if selected != [] {
      KeepAllListed(selected[1..], names);
    }
  }

  /** The column called `name`; the first one if a name were repeated. */
  function Find(cols: seq<Column>, name: string): (r: Option<Column>)
    ensures r.Some? <==> exists k :: 0 <= k < |cols| && cols[k].name == name
    ensures r.Some? ==> r.value.name == name && r.value in cols
  {
    if cols == [] then None
    else if cols[0].name == name then Some(cols[0])
    else
      var r := Find(cols[1..], name);
      assert forall k :: 1 <= k < |cols| ==> cols[k] == cols[1..][k - 1];
      r
  }

  lemma FindInNames(f: Frame, name: string)
    ensures Find(f.columns, name).Some? <==> HasColumn(f, name)
  {
    if HasColumn(f, name) {
      var k :| 0 <= k < |Names(f)| && Names(f)[k] == name;
      assert f.columns[k].name == name;
    }
    if Find(f.columns, name).Some? {
      var k :| 0 <= k < |f.columns| && f.columns[k].name == name;
      assert Names(f)[k] == name;
    }
  }

  /** The cells of column `name` (`df[name]`); empty when there is no such column. */
  function ValuesOf(f: Frame, name: string): seq<Option<real>>
  {
    match Find(f.columns, name)
    case Some(c) => c.values
    case None => []
  }

  /** `Series.dropna()`: the present values, in row order. */
  function Present(vs: seq<Option<real>>): (r: seq<real>)
    ensures |r| <= |vs|
  {
    if vs == [] then []
    else (if vs[0].Some? then [vs[0].value] else []) + Present(vs[1..])
  }

  /** `df[name].dropna()` as a list of values. */
  function Series(f: Frame, name: string): seq<real>
  {
    Present(ValuesOf(f, name))
  }

  /** `select_dtypes(include=[np.number]).columns` over a list of columns. */
  function NumericNamesOf(cols: seq<Column>): (r: seq<string>)
    ensures forall n :: n in r <==> exists k :: 0 <= k < |cols| && cols[k].numeric && cols[k].name == n
    ensures |r| <= |cols|
  {
    if cols == [] then []
    else
      var rest := NumericNamesOf(cols[1..]);
      assert forall k :: 1 <= k < |cols| ==> cols[k] == cols[1..][k - 1];
      (if cols[0].numeric then [cols[0].name] else []) + rest
  }

  /** The numeric columns of a frame, in frame order. */
  function NumericNames(f: Frame): seq<string>
  {
    NumericNamesOf(f.columns)
  }

  /** Every numeric name is a column of the frame. */
  lemma NumericNamesAreColumns(f: Frame)
    ensures forall n :: n in NumericNames(f) ==> HasColumn(f, n)
  {
    forall n | n in NumericNames(f) ensures HasColumn(f, n) {
      var k :| 0 <= k < |f.columns| && f.columns[k].numeric && f.columns[k].name == n;
      assert Names(f)[k] == n;
    }
  }

  /**
   * `df[names]`: the frame restricted to the listed columns, in the listed order;
   * each listed name finds the same column (name, dtype and cells) as in `f`.
   */
  function Project(f: Frame, names: seq<string>): (r: Frame)
    requires forall n :: n in names ==> HasColumn(f, n)
    ensures Names(r) == names
    ensures r.rows == f.rows
    ensures forall i :: 0 <= i < |names| ==> Some(r.columns[i]) == Find(f.columns, names[i])
    ensures forall n :: n in names ==> Find(r.columns, n) == Find(f.columns, n)
  {
    FindAll(f, names);
    var cols := seq(|names|, i requires 0 <= i < |names| => Find(f.columns, names[i]).value);
    forall n | n in names ensures Find(cols, n) == Find(f.columns, n) {
      var k :| 0 <= k < |names| && names[k] == n;
      assert cols[k].name == n;
      FindUniform(cols, n, Find(f.columns, n).value);
    }
    Frame(f.rows, cols)
  }

  /** When every column called `name` is `col`, and there is one, the lookup finds `col`. */
  lemma {:induction false} FindUniform(cols: seq<Column>, name: string, col: Column)
    requires exists k :: 0 <= k < |cols| && cols[k].name == name
    requires forall k :: 0 <= k < |cols| && cols[k].name == name ==> cols[k] == col
    ensures Find(cols, name) == Some(col)
  {
    if cols[0].name != name {
      var k :| 0 <= k < |cols| && cols[k].name == name;
      assert cols[1..][k - 1] == cols[k];
      forall j | 0 <= j < |cols[1..]| && cols[1..][j].name == name ensures cols[1..][j] == col {
        assert cols[1..][j] == cols[j + 1];
      }
      FindUniform(cols[1..], name, col);
    }
  }

  lemma FindAll(f: Frame, names: seq<string>)
    requires forall n :: n in names ==> HasColumn(f, n)
    ensures forall i :: 0 <= i < |names| ==> Find(f.columns, names[i]).Some?
  {
    forall i | 0 <= i < |names| ensures Find(f.columns, names[i]).Some? {
      FindInNames(f, names[i]);
    }
  }

  /** Row `i` of column `name` holds a value. */
  predicate PresentAt(f: Frame, name: string, i: nat)
  {
    i < |ValuesOf(f, name)| && ValuesOf(f, name)[i].Some?
  }

  /** Row `i` holds a value in every listed column. */
  predicate CompleteRow(f: Frame, names: seq<string>, i: nat)
  {
    forall n :: n in names ==> PresentAt(f, n, i)
  }

  /**
   * The row labels below `n` that survive `df[names].dropna()` (equivalently, the
   * intersection of the indexes of the columns' `dropna()`), in ascending order.
   */
  function CompleteRowsBelow(f: Frame, names: seq<string>, n: nat): (r: seq<nat>)
    ensures forall i: nat :: i in r <==> i < n && CompleteRow(f, names, i)
    ensures |r| <= n
  {
    if n == 0 then []
    else CompleteRowsBelow(f, names, n - 1) + (if CompleteRow(f, names, n - 1) then [n - 1] else [])
  }

  /** The rows kept by `df[names].dropna()`. */
  function CompleteRows(f: Frame, names: seq<string>): seq<nat>
  {
    CompleteRowsBelow(f, names, f.rows)
  }

  function At(vs: seq<Option<real>>, i: nat): real
  {
    if i < |vs| && vs[i].Some? then vs[i].value else 0.0
  }

  /** `df[name].loc[rows]`: the values of one column at the given rows. */
  function ValuesAt(f: Frame, name: string, rows: seq<nat>): (r: seq<real>)
    ensures |r| == |rows|
  {
    seq(|rows|, k requires 0 <= k < |rows| => At(ValuesOf(f, name), rows[k]))
  }
}
