/** The feature-correlation heat map (`initCorrChart`, enhancement.js:52-66): the
    matrix is flattened row by row into `[i, j, value]` cells. */
module Correlation {
  import opened Results
  import opened Js
  import opened Lists

  /** One heat-map cell: row, column and the matrix entry, copied as it is. */
  datatype Cell<T> = Cell(row: nat, col: nat, value: T)

  /** `row.map((value, j) => [i, j, value])`. */
  function RowCells<T>(i: nat, row: seq<T>): (r: seq<Cell<T>>)
    ensures |r| == |row| && forall j :: 0 <= j < |row| ==> r[j] == Cell(i, j, row[j])
  {
    seq(|row|, j requires 0 <= j < |row| => Cell(i, j, row[j]))
  }

  /** `matrix.flatMap((row, i) => row.map(...))`: the rows' cells, one row after
      the other. */
  function Flatten<T>(m: seq<seq<T>>): seq<Cell<T>>
    decreases |m|
  {
    if m == [] then [] else Flatten(m[..|m| - 1]) + RowCells(|m| - 1, m[|m| - 1])
  }

  /** There is one cell per matrix entry. */
  lemma {:induction false} FlattenLength<T>(m: seq<seq<T>>)
    ensures |Flatten(m)| == SumLengths(m)
    decreases |m|
  {
    if m != [] {
      FlattenLength(m[..|m| - 1]);
    }
  }

  /** Row-major order: the entry in row `i`, column `j` sits after all the
      entries of the rows above it, at offset `j`. */
  lemma {:induction false} FlattenAt<T>(m: seq<seq<T>>, i: nat, j: nat)
    requires i < |m| && j < |m[i]|
    ensures SumLengths(m[..i]) + j < |Flatten(m)|
    ensures Flatten(m)[SumLengths(m[..i]) + j] == Cell(i, j, m[i][j])
    decreases |m|
  {
    var n := |m| - 1;
    var init := m[..n];
    FlattenLength(init);
    if i < n {
      assert init[..i] == m[..i];
      FlattenAt(init, i, j);
    } else {
      assert init == m[..i];
    }
  }

  /** Conversely, every cell is the entry its coordinates name, at the place
      row-major order gives it. */
  lemma {:induction false} FlattenIndex<T>(m: seq<seq<T>>, p: nat)
    requires p < |Flatten(m)|
    ensures
      var c := Flatten(m)[p];
      && c.row < |m| && c.col < |m[c.row]|
      && c.value == m[c.row][c.col]
      && p == SumLengths(m[..c.row]) + c.col
    decreases |m|
  {
    var n := |m| - 1;
    var init := m[..n];
    FlattenLength(init);
    if p < |Flatten(init)| {
      FlattenIndex(init, p);
      var c := Flatten(init)[p];
      assert init[..c.row] == m[..c.row];
    } else {
      assert init == m[..n];
    }
  }

  /** The cells of `corrData.matrix`: reading the field of `null` or mapping
      something that is not an array throws. */
  function CorrCells(corrData: Json): (r: Result<seq<Cell<Json>>>)
    ensures r.Err? ==> r.failure == TypeError
    ensures corrData.JObj? && "matrix" in corrData.fields && corrData.fields["matrix"].JArr? &&
            (forall i :: 0 <= i < |corrData.fields["matrix"].items| ==> corrData.fields["matrix"].items[i].JArr?)
            ==> r.Ok?
    ensures r.Ok? ==>
      && corrData.JObj? && "matrix" in corrData.fields && corrData.fields["matrix"].JArr?
      && var rows := corrData.fields["matrix"].items;
         && (forall i :: 0 <= i < |rows| ==> rows[i].JArr?)
         && r.value == Flatten(seq(|rows|, i requires 0 <= i < |rows| => rows[i].items))
  {
    var matrix :- Get(corrData, "matrix");
    var rows :- if matrix.Some? then AsArray(matrix.value) else Err(TypeError);
    var m :- MapResult(rows, AsArray);
    assert m == seq(|rows|, i requires 0 <= i < |rows| => rows[i].items);
    Ok(Flatten(m))
  }
}
