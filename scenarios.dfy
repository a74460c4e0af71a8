/** A client of the table, after the demonstration program: what a caller can
    conclude from the contracts alone. */
module Scenarios {
  import opened Wrappers
  import opened TableSpec
  import opened CrossReferences

  /** The constructor with two distinct row keys and two distinct column keys
      succeeds, and every cell starts at the default. */
  method FlagTable(a: string, b: string, x: int, y: int) returns (t: CrossReference<string, int, bool>)
    requires a != b && x != y
    ensures fresh(t) && t.Valid() && t.dflt == false
    ensures t.rows == [a, b] && t.cols == [x, y]
    ensures forall r, c :: r in t.data && c in t.data[r] ==> t.data[r][c] == false
  {
    var rowKeys := [Some(a), Some(b)];
    var colKeys := [Some(x), Some(y)];
    NonNullAllPresent(rowKeys);
    NonNullAllPresent(colKeys);
    assert NonNull(rowKeys) == [a, b];
    assert NonNull(colKeys) == [x, y];
    ghost var empty: State<string, int, bool> := Empty();
    ReplaceColumnsSpec(empty, colKeys, false);
    ReplaceRowsSpec(ReplaceColumns(empty, colKeys, false), rowKeys, false);
    assert Distinct([a, b]) && Distinct([x, y]);
    var made := CrossReference<string, int, bool>.WithRowsAndColumns(false, Some(rowKeys), Some(colKeys));
    assert made.Ok?;
    t := made.value;
  }

  /** The Columns setter with a list holding one null and one key, on a valid
      table whose row keys are distinct: it succeeds, the key becomes the only
      column, and every cell is back at the default. */
  method ReplaceWithOneColumn(t: CrossReference<string, int, bool>, a: string, b: string, z: int)
    requires t.Valid() && t.dflt == false && t.rows == [a, b] && a != b
    modifies t
    ensures t.Valid() && t.rows == [a, b] && t.cols == [z]
    ensures forall r, c :: r in t.data && c in t.data[r] ==> t.data[r][c] == false
  {
    var newKeys := [None, Some(z)];
    assert NonNull(newKeys) == [z] by {
      assert NonNull(newKeys) == NonNull(newKeys[..1]) + [z];
      assert NonNull(newKeys[..1]) == [];
    }
    assert Refilled([a, b], [z], false).complete by {
      RefilledSpec([a, b], [z], false);
      assert Distinct([a, b]) && Distinct([z]);
    }
    var r := t.SetColumns(newKeys);
    assert r == Pass;
  }

  /** A table of flags with two rows and two columns and one cell set;
      replacing the columns sets every cell back to false, and the old column
      keys are gone. */
  method ReplacingColumnsWipesCells(a: string, b: string, x: int, y: int, z: int)
    requires a != b && x != y && z != x && z != y
  {
    var t := FlagTable(a, b, x, y);
    t.Set(a, x, true);
    assert t.Get(a, x) == Ok(true);
    assert t.Get(b, x) == Ok(false);
    ReplaceWithOneColumn(t, a, b, z);
    LookupShaped(t.Snapshot(), a, z);
    LookupShaped(t.Snapshot(), a, x);
    assert t.Get(a, z) == Ok(false);
    assert t.Get(a, x) == Err(ColumnKeyUnknown);
  }

  /** Bulk load of a grid with a two-key header and two lines: the rows, the
      columns and the cells come out as laid out in the grid. */
  method BulkLoadRoundTrip(a: string, b: string, x: int, y: int)
    requires a != b && x != y
  {
    var t := new CrossReference<string, int, int>(0);
    var g := Grid([Some(x), Some(y)], [Line(a, [10, 20]), Line(b, [30, 40])]);
    assert KeysOf(g.lines) == [a, b];
    NonNullAllPresent(g.header);
    assert NonNull(g.header) == [x, y];
    assert Distinct([a, b]) && Distinct([x, y]);
    LoadedSpec(g);
    assert g.lines[0].cells[1] == 20 && g.lines[1].cells[0] == 30;
    var r := t.SetTable(Some(g));
    assert r == Pass;
    assert t.rows == [a, b] && t.cols == [x, y];
    assert t.Get(a, y) == Ok(20);
    assert t.Get(b, x) == Ok(30);
  }
}
