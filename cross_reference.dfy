/** The cross-reference table as the object the program uses: three fields that
    its methods reassign, loops that fill them, and contracts that tie every
    new state to the value-level model in table_spec.dfy. */
module CrossReferences {
  import opened Wrappers
  import opened TableSpec

  /** Fills one row dictionary: cols[j] |-> vals[j] for j = 0, 1, ..., failing
      (None) at the first column key that is already present. */
  method FillRow<C(==), V>(cols: seq<C>, vals: seq<V>) returns (row: Option<map<C, V>>)
    requires |cols| <= |vals|
    ensures row == BuildRow(cols, vals)
  {
    var temp: map<C, V> := map[];
    for j := 0 to |cols|
      invariant BuildRow(cols[..j], vals) == Some(temp)
    {
      BuildRowSnoc(cols, vals, j);
      if cols[j] in temp {
        DistinctPrefix(cols, j + 1);
        return None;
      }
      temp := temp[cols[j] := vals[j]];
    }
    assert cols[..|cols|] == cols;
    return Some(temp);
  }

  /** Copies the non-null elements of xs, in order. */
  method CopyNonNull<K>(xs: seq<Option<K>>) returns (ks: seq<K>)
    ensures ks == NonNull(xs)
  {
    ks := [];
    for i := 0 to |xs|
      invariant ks == NonNull(xs[..i])
    {
      assert xs[..i + 1][..i] == xs[..i];
      if xs[i].Some? {
        ks := ks + [xs[i].value];
      }
    }
    assert xs[..|xs|] == xs;
  }

  /** A two-dimensional lookup table: rows by cols cells, each addressed by a
      row key and a column key. `dflt` is the value a rebuilt cell gets. */
  class CrossReference<R(==), C(==), V> {
    var data: map<R, map<C, V>>
    var cols: seq<C>
    var rows: seq<R>
    const dflt: V

    ghost function Snapshot(): State<R, C, V>
      reads this
    {
      State(rows, cols, data)
    }

    ghost predicate Valid()
      reads this
    {
      Shaped(Snapshot())
    }

    /** The empty table: no rows, no columns, no data. */
    constructor (dflt: V)
      ensures this.dflt == dflt
      ensures Snapshot() == Empty()
      ensures Valid()
    {
      this.dflt := dflt;
      data := map[];
      cols := [];
      rows := [];
    }

    /** The constructor that takes a list of row keys: the empty table, then
        AddRows. A failure of AddRows is a failure of the construction. */
    static method WithRows(dflt: V, rowslist: Option<seq<Option<R>>>)
      returns (r: Result<CrossReference<R, C, V>, Error>)
      ensures rowslist.None? ==> r == Err(NullParameter)
      ensures rowslist.Some? ==>
        var s := ReplaceRows(Empty(), rowslist.value, dflt);
        if Rebuilt(s, dflt)
        then r.Ok? && fresh(r.value) && r.value.dflt == dflt && r.value.Snapshot() == s
        else r == Err(DuplicateKey)
      ensures r.Ok? ==> r.value.Valid()
      ensures r.Ok? ==> forall row, c :: row in r.value.data && c in r.value.data[row] ==>
        r.value.data[row][c] == dflt
    {
      var t := new CrossReference(dflt);
      var added := t.AddRows(rowslist);
      if added.Err? {
        return Err(added.error);
      }
      return Ok(t);
    }

    /** The constructor that takes row keys and column keys: the empty table,
        then AddColumns, then AddRows. */
    static method WithRowsAndColumns(dflt: V, rowslist: Option<seq<Option<R>>>,
                                     columnslist: Option<seq<Option<C>>>)
      returns (r: Result<CrossReference<R, C, V>, Error>)
      ensures rowslist.None? || columnslist.None? ==> r == Err(NullParameter)
      ensures rowslist.Some? && columnslist.Some? ==>
        var s := ReplaceRows(ReplaceColumns(Empty(), columnslist.value, dflt), rowslist.value, dflt);
        if Rebuilt(s, dflt)
        then r.Ok? && fresh(r.value) && r.value.dflt == dflt && r.value.Snapshot() == s
        else r == Err(DuplicateKey)
      ensures r.Ok? ==> r.value.Valid()
      ensures r.Ok? ==> forall row, c :: row in r.value.data && c in r.value.data[row] ==>
        r.value.data[row][c] == dflt
    {
      var t := new CrossReference(dflt);
      var added := t.AddColumns(columnslist);
      if added.Err? {
        return Err(added.error);
      }
      added := t.AddRows(rowslist);
      if added.Err? {
        return Err(added.error);
      }
      return Ok(t);
    }

    /** Empties the table of keys and data. */
    method Clear()
      modifies this
      ensures Snapshot() == Empty()
      ensures Valid()
      ensures forall k :: !ContainsRowKey(k)
      ensures forall k :: !ContainsColumnKey(k)
    {
      data := map[];
      cols := [];
      rows := [];
    }

    /** Rebuilds the dictionary from the two key lists, every cell at the
        default; false when a Dictionary.Add meets a duplicate key, with the
        dictionary as far as it got. */
    method RefillTable() returns (ok: bool)
      modifies this`data
      ensures data == Refilled(rows, cols, dflt).data
      ensures ok == Refilled(rows, cols, dflt).complete
    {
      ghost var lines := BlankLines(rows, cols, dflt);
      var blank := Blank(|cols|, dflt);
      data := map[];
      var i := 0;
      while i < |rows|
        invariant 0 <= i <= |rows|
        invariant AddLines(cols, lines[..i]) == Load(data, i, true)
      {
        AddLinesSnoc(cols, lines, i);
        assert lines[i] == Line(rows[i], blank);
        var row := FillRow(cols, blank);
        if row.None? || rows[i] in data {
          AddLinesStops(cols, lines, i + 1);
          return false;
        }
        data := data[rows[i] := row.value];
        i := i + 1;
      }
      assert lines[..i] == lines;
      return true;
    }

    /** Replaces the column keys with the non-null elements of the list and
        rebuilds the table; returns the number of columns. */
    method AddColumns(columnslist: Option<seq<Option<C>>>) returns (r: Result<nat, Error>)
      modifies this
      ensures columnslist.None? ==> r == Err(NullParameter) && Snapshot() == old(Snapshot())
      ensures columnslist.Some? ==>
        && Snapshot() == ReplaceColumns(old(Snapshot()), columnslist.value, dflt)
        && cols == NonNull(columnslist.value) && rows == old(rows)
        && r == if Rebuilt(Snapshot(), dflt) then Ok(|cols|) else Err(DuplicateKey)
      ensures r.Ok? ==> Valid()
      ensures forall row, c :: row in data && c in data[row] ==>
        data[row][c] == if columnslist.None? then old(data)[row][c] else dflt
    {
      if columnslist.None? {
        return Err(NullParameter);
      }
      cols := CopyNonNull(columnslist.value);
      var ok := RefillTable();
      ReplaceColumnsSpec(old(Snapshot()), columnslist.value, dflt);
      r := if ok then Ok(|cols|) else Err(DuplicateKey);
    }

    /** Replaces the row keys with the non-null elements of the list and
        rebuilds the table; returns the number of rows. */
    method AddRows(rowslist: Option<seq<Option<R>>>) returns (r: Result<nat, Error>)
      modifies this
      ensures rowslist.None? ==> r == Err(NullParameter) && Snapshot() == old(Snapshot())
      ensures rowslist.Some? ==>
        && Snapshot() == ReplaceRows(old(Snapshot()), rowslist.value, dflt)
        && rows == NonNull(rowslist.value) && cols == old(cols)
        && r == if Rebuilt(Snapshot(), dflt) then Ok(|rows|) else Err(DuplicateKey)
      ensures r.Ok? ==> Valid()
      ensures forall row, c :: row in data && c in data[row] ==>
        data[row][c] == if rowslist.None? then old(data)[row][c] else dflt
    {
      if rowslist.None? {
        return Err(NullParameter);
      }
      rows := CopyNonNull(rowslist.value);
      var ok := RefillTable();
      ReplaceRowsSpec(old(Snapshot()), rowslist.value, dflt);
      r := if ok then Ok(|rows|) else Err(DuplicateKey);
    }

    /** The params overload: AddColumns of the list that starts with `first`. */
    method AddColumnsParams(first: Option<C>, rest: seq<Option<C>>) returns (r: Result<nat, Error>)
      modifies this
      ensures Snapshot() == ReplaceColumns(old(Snapshot()), [first] + rest, dflt)
      ensures cols == (if first.Some? then [first.value] else []) + NonNull(rest)
      ensures rows == old(rows)
      ensures r == if Rebuilt(Snapshot(), dflt) then Ok(|cols|) else Err(DuplicateKey)
      ensures r.Ok? ==> Valid()
      ensures forall row, c :: row in data && c in data[row] ==> data[row][c] == dflt
    {
      r := AddColumns(Some([first] + rest));
      ParamsList(first, rest);
    }

    /** The params overload: AddRows of the list that starts with `first`. */
    method AddRowsParams(first: Option<R>, rest: seq<Option<R>>) returns (r: Result<nat, Error>)
      modifies this
      ensures Snapshot() == ReplaceRows(old(Snapshot()), [first] + rest, dflt)
      ensures rows == (if first.Some? then [first.value] else []) + NonNull(rest)
      ensures cols == old(cols)
      ensures r == if Rebuilt(Snapshot(), dflt) then Ok(|rows|) else Err(DuplicateKey)
      ensures r.Ok? ==> Valid()
      ensures forall row, c :: row in data && c in data[row] ==> data[row][c] == dflt
    {
      r := AddRows(Some([first] + rest));
      ParamsList(first, rest);
    }

    /** The Columns setter: AddColumns of the list, its count dropped. */
    method SetColumns(value: seq<Option<C>>) returns (r: Outcome<Error>)
      modifies this
      ensures Snapshot() == ReplaceColumns(old(Snapshot()), value, dflt)
      ensures cols == NonNull(value) && rows == old(rows)
      ensures r == if Rebuilt(Snapshot(), dflt) then Pass else Fail(DuplicateKey)
      ensures r.Pass? ==> Valid()
      ensures forall row, c :: row in data && c in data[row] ==> data[row][c] == dflt
    {
      var added := AddColumns(Some(value));
      r := if added.Ok? then Pass else Fail(added.error);
    }

    /** The Rows setter: AddRows of the list, its count dropped. */
    method SetRows(value: seq<Option<R>>) returns (r: Outcome<Error>)
      modifies this
      ensures Snapshot() == ReplaceRows(old(Snapshot()), value, dflt)
      ensures rows == NonNull(value) && cols == old(cols)
      ensures r == if Rebuilt(Snapshot(), dflt) then Pass else Fail(DuplicateKey)
      ensures r.Pass? ==> Valid()
      ensures forall row, c :: row in data && c in data[row] ==> data[row][c] == dflt
    {
      var added := AddRows(Some(value));
      r := if added.Ok? then Pass else Fail(added.error);
    }

    /** Whether the key is one of the column keys. */
    function ContainsColumnKey(key: C): (b: bool)
      reads this
      ensures b <==> exists j :: 0 <= j < |cols| && cols[j] == key
      ensures Valid() ==> forall row :: row in data ==> (b <==> key in data[row])
    {
      key in cols
    }

    /** Whether the key is one of the row keys. */
    function ContainsRowKey(key: R): (b: bool)
      reads this
      ensures b <==> exists i :: 0 <= i < |rows| && rows[i] == key
      ensures Valid() ==> (b <==> key in data)
    {
      key in rows
    }

    /** The Table setter: empties the table and, for a non-null grid, loads the
        column keys from the header and then the lines. */
    method SetTable(grid: Option<Grid<R, C, V>>) returns (r: Outcome<Error>)
      requires grid.Some? ==> Rectangular(grid.value)
      modifies this
      ensures Snapshot() == Loaded(grid)
      ensures r == if LoadSucceeds(grid) then Pass else Fail(DuplicateKey)
      ensures r.Pass? ==> Valid()
    {
      data := map[];
      cols := [];
      rows := [];
      if grid.None? {
        return Pass;
      }
      var g := grid.value;
      cols := CopyNonNull(g.header);
      var ok := LoadLines(g.lines);
      if ok {
        LoadedSpec(g);
        return Pass;
      }
      return Fail(DuplicateKey);
    }

    /** The Table setter's loop over the lines: appends each line's key to the
        rows, then adds its row of cells, stopping at the first failing add. */
    method LoadLines(lines: seq<Line<R, V>>) returns (ok: bool)
      requires Fits(cols, lines)
      requires rows == [] && data == map[]
      modifies this`rows, this`data
      ensures data == AddLines(cols, lines).data
      ensures ok == AddLines(cols, lines).complete
      ensures rows == if ok then KeysOf(lines) else KeysOf(lines)[..AddLines(cols, lines).added + 1]
    {
      var i := 0;
      while i < |lines|
        invariant 0 <= i <= |lines|
        invariant rows == KeysOf(lines)[..i]
        invariant AddLines(cols, lines[..i]) == Load(data, i, true)
      {
        var line := lines[i];
        AddLinesSnoc(cols, lines, i);
        KeysOfSnoc(lines, i);
        rows := rows + [line.key];
        var row := FillRow(cols, line.cells);
        if row.None? || line.key in data {
          AddLinesStops(cols, lines, i + 1);
          return false;
        }
        data := data[line.key := row.value];
        i := i + 1;
      }
      assert lines[..i] == lines;
      assert KeysOf(lines)[..i] == KeysOf(lines);
      return true;
    }

    /** The indexer's get. */
    function Get(row: R, col: C): (r: Result<V, Error>)
      reads this
      ensures row in data && col in data[row] ==> r == Ok(data[row][col])
      ensures r == Err(RowKeyUnknown) <==> row !in data
      ensures r == Err(ColumnKeyUnknown) <==> row in data && col !in data[row]
      ensures Valid() ==> (r.Ok? <==> row in rows && col in cols)
      ensures Valid() ==> (r == Err(RowKeyUnknown) <==> row !in rows)
      ensures Valid() ==> (r == Err(ColumnKeyUnknown) <==> row in rows && col !in cols)
    {
      Lookup(data, row, col)
    }

    /** The indexer's set: writes the cell when both keys are present and does
        nothing otherwise. */
    method Set(row: R, col: C, v: V)
      modifies this`data
      ensures data == Store(old(data), row, col, v)
      ensures Valid() <==> old(Valid())
      ensures Get(row, col) == if old(Get(row, col)).Ok? then Ok(v) else old(Get(row, col))
      ensures forall r, c :: r != row || c != col ==> Get(r, c) == Lookup(old(data), r, c)
      ensures old(Get(row, col)).Err? ==> data == old(data)
    {
      if row in data && col in data[row] {
        data := data[row := data[row][col := v]];
      }
      StoreShaped(old(Snapshot()), row, col, v);
      forall r, c ensures Lookup(data, r, c) ==
        if r == row && c == col && Lookup(old(data), row, col).Ok? then Ok(v) else Lookup(old(data), r, c)
      {
        StoreLookup(old(data), row, col, v, r, c);
      }
    }
  }
}
