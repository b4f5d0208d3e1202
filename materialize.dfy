/**
 * Turning the engine's returned point arrays into elevation tables: either
 * from the last three fields of every row, or from the named `X`, `Y`, `Z`
 * columns, every table tagged with one CRS.
 */
module Materialize {
  import opened Wrappers
  import opened Geometry

  /** One row of an engine array: its numeric fields in dimension order. */
  type Row = seq<real>

  /** The named columns `X`, `Y` and `Z` of one engine array. */
  datatype PointArray = PointArray(x: seq<real>, y: seq<real>, z: seq<real>)

  /** The columns of one numpy structured array all have the same length. */
  predicate WellFormed(arr: PointArray)
  {
    |arr.x| == |arr.y| == |arr.z|
  }

  /** The elevation table: an `elevation` column, a `geometry` column and one CRS tag. */
  datatype GeoFrame = GeoFrame(elevation: seq<real>, geometry: seq<Point>, crs: string)

  /** An empty table, with both columns present. */
  function EmptyFrame(crs: string): GeoFrame
  {
    GeoFrame([], [], crs)
  }

  // ---------------------------------------------------------------------------
  // From rows: `lst = row.tolist()[-3:]`, elevation `lst[2]`, point `(lst[0], lst[1])`

  /** The index of the first row of fewer than three fields, or `|rows|` when there is none. */
  function FirstShort(rows: seq<Row>): (j: nat)
    ensures j <= |rows|
    ensures j < |rows| ==> |rows[j]| < 3
    ensures forall i :: 0 <= i < j ==> |rows[i]| >= 3
  {
    if |rows| == 0 then 0 else if |rows[0]| < 3 then 0 else 1 + FirstShort(rows[1..])
  }

  /**
   * The table built row by row from the last three fields of every row: the
   * last is the elevation, the two before it the point. A row of fewer than
   * three fields makes `lst[2]` raise, so the table fails at the first such row.
   * A table has one entry per row and the given tag; a failure names a short row.
   */
  function FrameFromRows(rows: seq<Row>, crs: string): (r: Result<GeoFrame>)
    ensures r.Ok? ==> r.value.crs == crs && |r.value.elevation| == |r.value.geometry| == |rows|
    ensures r.Err? ==> r.error.RowTooShort? && r.error.row < |rows| && |rows[r.error.row]| < 3
  {
    if |rows| == 0 then Ok(EmptyFrame(crs))
    else
      match FrameFromRows(rows[..|rows| - 1], crs)
      case Err(e) => Err(e)
      case Ok(f) =>
        var row := rows[|rows| - 1];
        if |row| < 3 then Err(RowTooShort(|rows| - 1))
        else Ok(GeoFrame(f.elevation + [row[|row| - 1]], f.geometry + [Point(row[|row| - 3], row[|row| - 2])], crs))
  }

  /**
   * The table fails exactly at the first short row; without one it has one
   * entry per row, in row order: entry i is the last field of row i as
   * elevation and the two fields before it as the point, all tagged `crs`.
   */
  lemma {:induction false} FrameFromRowsSpec(rows: seq<Row>, crs: string)
    ensures var r := FrameFromRows(rows, crs);
      && (FirstShort(rows) < |rows| ==> r == Err(RowTooShort(FirstShort(rows))))
      && (FirstShort(rows) == |rows| ==>
            && r.Ok? && r.value.crs == crs
            && |r.value.elevation| == |rows| && |r.value.geometry| == |rows|
            && forall i :: 0 <= i < |rows| ==>
                 && r.value.elevation[i] == rows[i][|rows[i]| - 1]
                 && r.value.geometry[i] == Point(rows[i][|rows[i]| - 3], rows[i][|rows[i]| - 2]))
  {
    if |rows| > 0 {
      var n := |rows| - 1;
      var init := rows[..n];
      FrameFromRowsSpec(init, crs);
      assert forall i :: 0 <= i < n ==> init[i] == rows[i];
      var f, g := FirstShort(rows), FirstShort(init);
      if g < n {
        assert f == g;
      } else if |rows[n]| < 3 {
        assert f == n;
      } else {
        assert f == |rows|;
      }
    }
  }

  /** A row table with one more row: the table so far grows by that row's entry, or fails there. */
  lemma FrameFromRowsSnoc(rows: seq<Row>, i: nat, crs: string, f: GeoFrame)
    requires i < |rows| && FrameFromRows(rows[..i], crs) == Ok(f)
    ensures var row := rows[i];
      FrameFromRows(rows[..i + 1], crs)
      == if |row| < 3 then Err(RowTooShort(i))
         else Ok(GeoFrame(f.elevation + [row[|row| - 1]], f.geometry + [Point(row[|row| - 3], row[|row| - 2])], crs))
  {
    assert rows[..i + 1][..i] == rows[..i];
  }

  /** `row.tolist()[-3:]`: the last three fields, or the whole row when it is shorter. */
  function LastThree(row: Row): seq<real>
  {
    if |row| >= 3 then row[|row| - 3..] else row
  }

  /** No rows give an empty table, not an error. */
  lemma FrameFromNoRows(crs: string)
    ensures FrameFromRows([], crs) == Ok(EmptyFrame(crs))
  {
  }

  /** Three rows (1,2,3), (4,5,6), (7,8,9) give three points tagged `"4326"`, the second at elevation 6. */
  lemma FrameFromThreeRows()
    ensures var r := FrameFromRows([[1.0, 2.0, 3.0], [4.0, 5.0, 6.0], [7.0, 8.0, 9.0]], "4326");
      && r.Ok? && |r.value.geometry| == 3 && r.value.crs == "4326"
      && r.value.elevation[1] == 6.0 && r.value.geometry[1] == Point(4.0, 5.0)
  {
    FrameFromRowsSpec([[1.0, 2.0, 3.0], [4.0, 5.0, 6.0], [7.0, 8.0, 9.0]], "4326");
  }

  // ---------------------------------------------------------------------------
  // From columns: `[Point(x, y) for x, y in zip(arr["X"], arr["Y"])]` and `arr["Z"]`

  /** `zip(xs, ys)` as points: one per index of the shorter column. */
  function Zip(xs: seq<real>, ys: seq<real>): (ps: seq<Point>)
    ensures |ps| == if |xs| <= |ys| then |xs| else |ys|
    ensures forall i :: 0 <= i < |ps| ==> ps[i] == Point(xs[i], ys[i])
  {
    if |xs| == 0 || |ys| == 0 then [] else [Point(xs[0], ys[0])] + Zip(xs[1..], ys[1..])
  }

  /**
   * The table of one array: points from `zip(X, Y)`, the `Z` column as
   * elevations. For a well-formed array point i is `(X[i], Y[i])` and there is
   * one point per elevation.
   */
  function ColumnsToFrame(arr: PointArray, crs: string): (f: GeoFrame)
    ensures f.crs == crs && f.elevation == arr.z
    ensures WellFormed(arr) ==>
      && |f.geometry| == |arr.z|
      && forall i :: 0 <= i < |arr.z| ==> f.geometry[i] == Point(arr.x[i], arr.y[i])
  {
    GeoFrame(arr.z, Zip(arr.x, arr.y), crs)
  }

  /**
   * For a well-formed array the table has one entry per point: entry i is
   * `(X[i], Y[i])` at elevation `Z[i]`, exactly, and all entries share the CRS.
   */
  lemma ColumnsToFrameFidelity(arr: PointArray, crs: string)
    requires WellFormed(arr)
    ensures var f := ColumnsToFrame(arr, crs);
      && |f.geometry| == |f.elevation| == |arr.x|
      && f.crs == crs
      && forall i :: 0 <= i < |arr.x| ==> f.geometry[i] == Point(arr.x[i], arr.y[i]) && f.elevation[i] == arr.z[i]
  {
  }

  /**
   * Both materializers agree: when the last three fields of every row are the
   * row's `X`, `Y` and `Z`, the row-built table is the column-built one.
   */
  lemma RowsAgreeWithColumns(rows: seq<Row>, arr: PointArray, crs: string)
    requires WellFormed(arr) && |rows| == |arr.x|
    requires forall i :: 0 <= i < |rows| ==>
      |rows[i]| >= 3 && rows[i][|rows[i]| - 3..] == [arr.x[i], arr.y[i], arr.z[i]]
    ensures FrameFromRows(rows, crs) == Ok(ColumnsToFrame(arr, crs))
  {
    FrameFromRowsSpec(rows, crs);
    var r := FrameFromRows(rows, crs);
    var f := ColumnsToFrame(arr, crs);
    forall i | 0 <= i < |rows|
      ensures r.value.elevation[i] == f.elevation[i] && r.value.geometry[i] == f.geometry[i]
    {
      var row := rows[i];
      assert row[|row| - 3..][0] == row[|row| - 3];
      assert row[|row| - 3..][1] == row[|row| - 2];
      assert row[|row| - 3..][2] == row[|row| - 1];
    }
    assert r.value.elevation == f.elevation;
    assert r.value.geometry == f.geometry;
  }

  /** The CRS code `crs[-4:]`: the last four characters, or the whole text when shorter. */
  function CrsCode(crs: string): (code: string)
    ensures |code| == if |crs| < 4 then |crs| else 4
    ensures code == crs[|crs| - |code|..]
  {
    if |crs| < 4 then crs else crs[|crs| - 4..]
  }

  /** An authority-prefixed code keeps only its number: `"EPSG:4326"` gives `"4326"`. */
  lemma CrsCodeOfEpsg()
    ensures CrsCode("EPSG:4326") == "4326"
  {
    assert "EPSG:4326"[5..] == "4326";
  }
}
