/** Hive-partitioned Parquet tables. A NULL partition key is spelled as a sentinel directory,
    which cannot be cast to the column's type; so a column with such a directory is registered
    as text, under a view that turns the sentinel into NULL and casts the rest back. */
module HiveView {
  import opened Wrappers

  const SENTINEL := "__HIVE_DEFAULT_PARTITION__"

  datatype DataType = Utf8 | Typed(id: int)
  datatype Value = Null | Text(text: string) | Other(id: int)
  datatype Column = Column(name: string, dataType: DataType)

  /** A listed file: the directories (and the file name) below the table, and its rows. */
  datatype File = File(dirs: seq<string>, rows: seq<seq<Value>>)

  /** The engine's reading of a text as a type; `None` is an error. */
  type Cast = (int, string) -> Option<Value>

  function CastTo(cast: Cast, t: DataType, text: string): Option<Value> {
    match t
    case Utf8 => Some(Text(text))
    case Typed(id) => cast(id, text)
  }

  // ---------------------------------------------------------------------------
  // Directory names
  // ---------------------------------------------------------------------------

  function FirstEquals(s: string): (n: nat)
    ensures n <= |s|
    ensures n < |s| ==> s[n] == '='
    ensures '=' !in s[..n]
  {
    if s == [] || s[0] == '=' then 0
    else
      var n := FirstEquals(s[1..]);
      assert s[..1 + n] == [s[0]] + s[1..][..n];
      1 + n
  }

  /** The value a directory gives to the partition column `name`. */
  function ValueIn(dir: string, name: string): Option<string> {
    var n := FirstEquals(dir);
    if n < |dir| && dir[..n] == name then Some(dir[n + 1..]) else None
  }

  /** What comes before `=` and the sentinel at the end of a directory name. */
  function NullName(dir: string): Option<string> {
    var suffix := "=" + SENTINEL;
    if |dir| >= |suffix| && dir[|dir| - |suffix|..] == suffix then Some(dir[..|dir| - |suffix|]) else None
  }

  lemma SentinelDirIsSeen(dir: string, name: string)
    requires ValueIn(dir, name) == Some(SENTINEL)
    ensures NullName(dir) == Some(name)
  {
    var n := FirstEquals(dir);
    assert dir == dir[..n] + ("=" + dir[n + 1..]);
  }

  /** The values of all partition columns, from as many leading directories. */
  function ValuesIn(dirs: seq<string>, columns: seq<Column>): (r: Option<seq<string>>)
    ensures r.Some? ==> |r.value| == |columns|
  {
    if columns == [] then Some([])
    else if dirs == [] then None
    else
      var first, rest := ValueIn(dirs[0], columns[0].name), ValuesIn(dirs[1..], columns[1..]);
      if first.Some? && rest.Some? then Some([first.value] + rest.value) else None
  }

  // ---------------------------------------------------------------------------
  // Finding the columns with a sentinel directory
  // ---------------------------------------------------------------------------

  predicate HasNullDir(files: seq<File>, name: string) {
    exists i, j | 0 <= i < |files| && 0 <= j < |files[i].dirs| :: NullName(files[i].dirs[j]) == Some(name)
  }

  function NullColumns(files: seq<File>, columns: seq<Column>): seq<string> {
    if columns == [] then []
    else if HasNullDir(files, columns[0].name) then [columns[0].name] + NullColumns(files, columns[1..])
    else NullColumns(files, columns[1..])
  }

  method NullPartitionColumns(files: seq<File>, columns: seq<Column>) returns (names: seq<string>)
    ensures names == NullColumns(files, columns)
  {
    if columns == [] {
      return [];
    }
    var found: set<string> := {};
    for i := 0 to |files|
      invariant forall name :: name in found <==> HasNullDir(files[..i], name)
    {
      var dirs := files[i].dirs;
      ghost var before := found;
      for j := 0 to |dirs|
        invariant forall name :: name in found <==>
          name in before || exists k | 0 <= k < j :: NullName(dirs[k]) == Some(name)
      {
        var name := NullName(dirs[j]);
        if name.Some? {
          found := found + {name.value};
        }
      }
      OneMoreFile(files, i);
    }
    assert files[..|files|] == files;
    names := [];
    for i := 0 to |columns|
      invariant names + NullColumns(files, columns[i..]) == NullColumns(files, columns)
    {
      if columns[i].name in found {
        names := names + [columns[i].name];
      }
    }
  }

  lemma OneMoreFile(files: seq<File>, i: nat)
    requires i < |files|
    ensures forall name :: HasNullDir(files[..i + 1], name) <==>
      HasNullDir(files[..i], name) || exists k | 0 <= k < |files[i].dirs| :: NullName(files[i].dirs[k]) == Some(name)
  {
    var more, fewer := files[..i + 1], files[..i];
    forall name
      ensures HasNullDir(more, name) <==>
        HasNullDir(fewer, name) || exists k | 0 <= k < |files[i].dirs| :: NullName(files[i].dirs[k]) == Some(name)
    {
      if HasNullDir(fewer, name) {
        var a, b :| 0 <= a < |fewer| && 0 <= b < |fewer[a].dirs| && NullName(fewer[a].dirs[b]) == Some(name);
        assert more[a] == fewer[a];
      }
      if k :| 0 <= k < |files[i].dirs| && NullName(files[i].dirs[k]) == Some(name) {
        assert more[i] == files[i];
      }
      if HasNullDir(more, name) {
        var a, b :| 0 <= a < |more| && 0 <= b < |more[a].dirs| && NullName(more[a].dirs[b]) == Some(name);
        if a < i { assert fewer[a] == more[a]; }
      }
    }
  }

  lemma {:induction false} NullColumnsContain(files: seq<File>, columns: seq<Column>, i: nat)
    requires i < |columns|
    ensures columns[i].name in NullColumns(files, columns) <==> HasNullDir(files, columns[i].name)
  {
    NullColumnsAreNull(files, columns, columns[i].name);
    if i > 0 { NullColumnsContain(files, columns[1..], i - 1); }
  }

  lemma {:induction false} NullColumnsAreNull(files: seq<File>, columns: seq<Column>, name: string)
    ensures name in NullColumns(files, columns) ==> HasNullDir(files, name)
  {
    if columns != [] { NullColumnsAreNull(files, columns[1..], name); }
  }

  // ---------------------------------------------------------------------------
  // Registration
  // ---------------------------------------------------------------------------

  /** The partition cells of a file under the given types. */
  function Cells(cast: Cast, columns: seq<Column>, values: seq<string>): (r: Option<seq<Value>>)
    requires |columns| == |values|
    ensures r.Some? ==> |r.value| == |columns|
  {
    if columns == [] then Some([])
    else
      var first, rest := CastTo(cast, columns[0].dataType, values[0]), Cells(cast, columns[1..], values[1..]);
      if first.Some? && rest.Some? then Some([first.value] + rest.value) else None
  }

  /** Which types the files are registered with. */
  function RawColumns(columns: seq<Column>, nulls: seq<string>): (r: seq<Column>)
    ensures |r| == |columns|
  {
    seq(|columns|, i requires 0 <= i < |columns| =>
      if columns[i].name in nulls then Column(columns[i].name, Utf8) else columns[i])
  }

  /** The view's expression for one partition column: `cast(nullif(c, sentinel))`, or just `c`. */
  function ViewCell(cast: Cast, column: Column, nulls: seq<string>, raw: Value): Option<Value> {
    if column.name in nulls then
      if raw == Text(SENTINEL) then Some(Null)
      else if raw.Text? then CastTo(cast, column.dataType, raw.text)
      else Some(raw)
    else Some(raw)
  }

  function ViewCells(cast: Cast, columns: seq<Column>, nulls: seq<string>, raw: seq<Value>): (r: Option<seq<Value>>)
    requires |columns| == |raw|
    ensures r.Some? ==> |r.value| == |columns|
  {
    if columns == [] then Some([])
    else
      var first, rest := ViewCell(cast, columns[0], nulls, raw[0]), ViewCells(cast, columns[1..], nulls, raw[1..]);
      if first.Some? && rest.Some? then Some([first.value] + rest.value) else None
  }

  /** The partition cells a query sees for a file: typed directly when no column has a sentinel
      directory, and through the view otherwise. */
  function Registered(cast: Cast, columns: seq<Column>, nulls: seq<string>, values: seq<string>): Option<seq<Value>>
    requires |columns| == |values|
  {
    if nulls == [] then Cells(cast, columns, values)
    else
      var raw := Cells(cast, RawColumns(columns, nulls), values);
      if raw.Some? then ViewCells(cast, columns, nulls, raw.value) else None
  }

  /** The rows of a table, given how the partition cells of a file come about. Files whose path
      does not spell the partition columns are not part of the table. */
  function Rows(columns: seq<Column>, files: seq<File>, cells: seq<string> --> Option<seq<Value>>): Option<seq<seq<Value>>>
    requires forall v: seq<string> | |v| == |columns| :: cells.requires(v)
  {
    if files == [] then Some([])
    else
      var values, rest := ValuesIn(files[0].dirs, columns), Rows(columns, files[1..], cells);
      if values.None? then rest
      else
        var extra := cells(values.value);
        if extra.Some? && rest.Some? then Some(Extend(files[0].rows, extra.value) + rest.value) else None
  }

  function Extend(rows: seq<seq<Value>>, extra: seq<Value>): seq<seq<Value>> {
    seq(|rows|, i requires 0 <= i < |rows| => rows[i] + extra)
  }

  function RegisteredRows(cast: Cast, columns: seq<Column>, files: seq<File>): Option<seq<seq<Value>>> {
    Rows(columns, files, v requires |v| == |columns| => Registered(cast, columns, NullColumns(files, columns), v))
  }

  // ---------------------------------------------------------------------------
  // Reference: the typed table with NULL for the sentinel
  // ---------------------------------------------------------------------------

  function TypedCells(cast: Cast, columns: seq<Column>, values: seq<string>): (r: Option<seq<Value>>)
    requires |columns| == |values|
  {
    if columns == [] then Some([])
    else
      var first := if values[0] == SENTINEL then Some(Null) else CastTo(cast, columns[0].dataType, values[0]);
      var rest := TypedCells(cast, columns[1..], values[1..]);
      if first.Some? && rest.Some? then Some([first.value] + rest.value) else None
  }

  function TypedRows(cast: Cast, columns: seq<Column>, files: seq<File>): Option<seq<seq<Value>>> {
    Rows(columns, files, v requires |v| == |columns| => TypedCells(cast, columns, v))
  }

  /** A column with the sentinel among its values is one of the null columns. */
  predicate Detected(columns: seq<Column>, nulls: seq<string>, values: seq<string>)
    requires |columns| == |values|
  {
    forall i | 0 <= i < |columns| && values[i] == SENTINEL :: columns[i].name in nulls
  }

  lemma {:induction false} ValuesAreDirs(dirs: seq<string>, columns: seq<Column>, i: nat)
    requires ValuesIn(dirs, columns).Some? && i < |columns|
    ensures i < |dirs| && ValueIn(dirs[i], columns[i].name) == Some(ValuesIn(dirs, columns).value[i])
  {
    if i > 0 { ValuesAreDirs(dirs[1..], columns[1..], i - 1); }
  }

  /** Every column with a sentinel directory is found, so no typed cast meets the sentinel. */
  lemma SentinelsAreDetected(files: seq<File>, columns: seq<Column>, f: nat)
    requires f < |files| && ValuesIn(files[f].dirs, columns).Some?
    ensures Detected(columns, NullColumns(files, columns), ValuesIn(files[f].dirs, columns).value)
  {
    var values := ValuesIn(files[f].dirs, columns).value;
    forall i | 0 <= i < |columns| && values[i] == SENTINEL
      ensures columns[i].name in NullColumns(files, columns)
    {
      ValuesAreDirs(files[f].dirs, columns, i);
      SentinelDirIsSeen(files[f].dirs[i], columns[i].name);
      assert HasNullDir(files, columns[i].name);
      NullColumnsContain(files, columns, i);
    }
  }

  /** Directly typed cells are the reference when there is no sentinel. */
  lemma {:induction false} TypedWithoutSentinel(cast: Cast, columns: seq<Column>, values: seq<string>)
    requires |columns| == |values| && forall i | 0 <= i < |values| :: values[i] != SENTINEL
    ensures Cells(cast, columns, values) == TypedCells(cast, columns, values)
  {
    if columns != [] { TypedWithoutSentinel(cast, columns[1..], values[1..]); }
  }

  /** Through the view, text cells come out as the reference has them. */
  lemma {:induction false} ViewIsTyped(cast: Cast, columns: seq<Column>, nulls: seq<string>, values: seq<string>)
    requires |columns| == |values| && Detected(columns, nulls, values)
    ensures var raw := Cells(cast, RawColumns(columns, nulls), values);
      TypedCells(cast, columns, values) == if raw.Some? then ViewCells(cast, columns, nulls, raw.value) else None
  {
    if columns != [] {
      assert RawColumns(columns, nulls)[1..] == RawColumns(columns[1..], nulls);
      assert Detected(columns[1..], nulls, values[1..]) by {
        assert forall i | 0 <= i < |columns| - 1 :: columns[1..][i] == columns[i + 1] && values[1..][i] == values[i + 1];
      }
      ViewIsTyped(cast, columns[1..], nulls, values[1..]);
      var raw := Cells(cast, RawColumns(columns, nulls), values);
      var tail := Cells(cast, RawColumns(columns[1..], nulls), values[1..]);
      if raw.Some? { assert raw.value[1..] == tail.value; }
    }
  }

  lemma RegisteredIsTyped(cast: Cast, columns: seq<Column>, nulls: seq<string>, values: seq<string>)
    requires |columns| == |values| && Detected(columns, nulls, values)
    ensures Registered(cast, columns, nulls, values) == TypedCells(cast, columns, values)
  {
    if nulls == [] { TypedWithoutSentinel(cast, columns, values); }
    else { ViewIsTyped(cast, columns, nulls, values); }
  }

  lemma {:induction false} SameRows(columns: seq<Column>, files: seq<File>, a: seq<string> --> Option<seq<Value>>, b: seq<string> --> Option<seq<Value>>)
    requires forall v: seq<string> | |v| == |columns| :: a.requires(v) && b.requires(v)
    requires forall f | 0 <= f < |files| && ValuesIn(files[f].dirs, columns).Some? ::
      a(ValuesIn(files[f].dirs, columns).value) == b(ValuesIn(files[f].dirs, columns).value)
    ensures Rows(columns, files, a) == Rows(columns, files, b)
  {
    if files != [] {
      assert forall f | 0 <= f < |files| - 1 :: files[1..][f] == files[f + 1];
      SameRows(columns, files[1..], a, b);
    }
  }

  /** The main result: for every listing, the registered table has the rows of the typed table,
      file columns first and partition columns in order, with NULL for the sentinel; and it
      fails to read exactly when that one does. */
  lemma ViewEqualsTypedTable(cast: Cast, columns: seq<Column>, files: seq<File>)
    ensures RegisteredRows(cast, columns, files) == TypedRows(cast, columns, files)
  {
    var nulls := NullColumns(files, columns);
    var a := (v: seq<string>) requires |v| == |columns| => Registered(cast, columns, nulls, v);
    var b := (v: seq<string>) requires |v| == |columns| => TypedCells(cast, columns, v);
    forall f | 0 <= f < |files| && ValuesIn(files[f].dirs, columns).Some?
      ensures a(ValuesIn(files[f].dirs, columns).value) == b(ValuesIn(files[f].dirs, columns).value)
    {
      SentinelsAreDetected(files, columns, f);
      RegisteredIsTyped(cast, columns, nulls, ValuesIn(files[f].dirs, columns).value);
    }
    SameRows(columns, files, a, b);
  }
}
