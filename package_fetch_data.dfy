/**
 * The `FetchData` class of the installable package: the same query texts and
 * positional binding as the `usgs` copy, output files under `../data/`, and
 * an elevation table built row by row from the engine's first array.
 */
module PackageFetchData {
  import opened Wrappers
  import opened Geometry
  import opened Pipeline
  import opened Materialize
  import opened UsgsFetchData

  /** The LAZ output path of `get_pipeline`. */
  function LazPath(name: string): string
  {
    "../data/laz/" + name + ".laz"
  }

  /** The TIF output path of `get_pipeline`. */
  function TifPath(name: string): string
  {
    "../data/tif/" + name + ".tif"
  }

  /** `row.tolist()[-3:]` of every row. */
  function LastThrees(rows: seq<Row>): (c: seq<seq<real>>)
    ensures |c| == |rows|
    ensures forall i :: 0 <= i < |rows| ==> c[i] == LastThree(rows[i])
  {
    seq(|rows|, i requires 0 <= i < |rows| => LastThree(rows[i]))
  }

  /** One more row adds its last three fields at the end. */
  lemma LastThreesSnoc(rows: seq<Row>, i: nat)
    requires i < |rows|
    ensures LastThrees(rows[..i + 1]) == LastThrees(rows[..i]) + [LastThree(rows[i])]
  {
    var a, b := LastThrees(rows[..i + 1]), LastThrees(rows[..i]) + [LastThree(rows[i])];
    assert |a| == |b|;
    forall k | 0 <= k < |a| ensures a[k] == b[k] {
      assert rows[..i + 1][k] == rows[k];
    }
  }

  /** How many rows the loop body starts on: up to and including the first short one. */
  function Processed(rows: seq<Row>): (n: nat)
    ensures n <= |rows|
  {
    if FirstShort(rows) < |rows| then FirstShort(rows) + 1 else |rows|
  }

  // ---------------------------------------------------------------------------
  // The row loop as written: `cloud_points` starts as a list and is rebound to
  // a numpy array inside the loop, so the next `append` raises.

  /** What `cloud_points` is bound to: the list it starts as, or the array it is rebound to. */
  datatype Cloud = CloudList(items: seq<seq<real>>) | CloudArray(items: seq<seq<real>>)

  /**
   * The loop from row `i` on, with `cloud` the current binding of
   * `cloud_points`: an `append` on an array raises, and so does `lst[2]` on a
   * short row. It can only succeed on at most one more row while
   * `cloud_points` is still a list, and on none once it is an array.
   */
  function RowLoopAsWritten(rows: seq<Row>, i: nat, cloud: Cloud, elevations: seq<real>,
                            points: seq<Point>, crs: string): (r: Result<GeoFrame>)
    requires i <= |rows|
    decreases |rows| - i
    ensures r.Ok? ==> |rows| - i <= (if cloud.CloudList? then 1 else 0)
    ensures r.Ok? ==> r.value.crs == crs && |r.value.elevation| == |elevations| + |rows| - i
  {
    if i == |rows| then Ok(GeoFrame(elevations, points, crs))
    else if cloud.CloudArray? then Err(AppendOnArray(i))
    else
      var lst := LastThree(rows[i]);
      var c := CloudArray(cloud.items + [lst]);
      if |lst| < 3 then Err(RowTooShort(i))
      else RowLoopAsWritten(rows, i + 1, c, elevations + [lst[2]], points + [Point(lst[0], lst[1])], crs)
  }

  /**
   * `make_geo_df` as written, on the engine's arrays: no array raises, and a
   * table comes out only for an array of at most one row.
   */
  function MakeGeoDfAsWritten(arrays: seq<seq<Row>>, crs: string): (r: Result<GeoFrame>)
    ensures |arrays| == 0 ==> r == Err(NoArrays)
    ensures r.Ok? ==> |arrays[0]| <= 1 && r.value.crs == crs && |r.value.elevation| == |arrays[0]|
  {
    if |arrays| == 0 then Err(NoArrays) else RowLoopAsWritten(arrays[0], 0, CloudList([]), [], [], crs)
  }

  /**
   * As written, any array of two or more rows whose first row is complete
   * fails at the second row's `append`, where the intended table exists.
   */
  lemma AsWrittenFailsOnSecondRow(rows: seq<Row>, crs: string)
    requires |rows| >= 2 && |rows[0]| >= 3
    ensures MakeGeoDfAsWritten([rows], crs) == Err(AppendOnArray(1))
    ensures FrameFromRows(rows, crs).Ok? <==> forall i :: 0 <= i < |rows| ==> |rows[i]| >= 3
  {
    FrameFromRowsSpec(rows, crs);
    var lst := LastThree(rows[0]);
    assert RowLoopAsWritten(rows, 0, CloudList([]), [], [], crs)
        == RowLoopAsWritten(rows, 1, CloudArray([lst]), [lst[2]], [Point(lst[0], lst[1])], crs);
  }

  /** The two rows (1,2,3), (4,5,6): the loop as written raises, the intended table has two points. */
  lemma AsWrittenCounterexample()
    ensures MakeGeoDfAsWritten([[[1.0, 2.0, 3.0], [4.0, 5.0, 6.0]]], "4326") == Err(AppendOnArray(1))
    ensures var f := FrameFromRows([[1.0, 2.0, 3.0], [4.0, 5.0, 6.0]], "4326");
      f.Ok? && f.value.elevation == [3.0, 6.0] && f.value.geometry == [Point(1.0, 2.0), Point(4.0, 5.0)]
  {
    AsWrittenFailsOnSecondRow([[1.0, 2.0, 3.0], [4.0, 5.0, 6.0]], "4326");
  }

  /** On zero or one row the loop as written and the intended one agree. */
  lemma AsWrittenAgreesOnOneRow(rows: seq<Row>, crs: string)
    requires |rows| <= 1
    ensures MakeGeoDfAsWritten([rows], crs) == FrameFromRows(rows, crs)
  {
    if |rows| == 1 {
      assert rows[..0] == [];
      var row := rows[0];
      if |row| >= 3 {
        var lst := LastThree(row);
        assert lst[2] == row[|row| - 1] && lst[0] == row[|row| - 3] && lst[1] == row[|row| - 2];
        var noCloud: seq<seq<real>>, noElevations: seq<real>, noPoints: seq<Point> := [], [], [];
        assert noCloud + [lst] == [lst];
        assert noElevations + [lst[2]] == [lst[2]];
        assert noPoints + [Point(lst[0], lst[1])] == [Point(lst[0], lst[1])];
        assert RowLoopAsWritten(rows, 1, CloudArray([lst]), [lst[2]], [Point(lst[0], lst[1])], crs)
            == Ok(GeoFrame([lst[2]], [Point(lst[0], lst[1])], crs));
        assert RowLoopAsWritten(rows, 0, CloudList([]), [], [], crs)
            == RowLoopAsWritten(rows, 1, CloudArray([lst]), [lst[2]], [Point(lst[0], lst[1])], crs);
        assert FrameFromRows(rows[..0], crs) == Ok(EmptyFrame(crs));
      }
    }
  }

  /**
   * The row loop of `make_geo_df` with `cloud_points` kept a list: per row
   * the last of its final three fields is the elevation and the two before it
   * the point, so both lists stay as long as the rows done; a short row
   * raises after its fields were appended to `cloud`, which then holds the
   * last three fields of every row the loop started on.
   */
  method RowLoop(rows: seq<Row>, crs: string) returns (r: Result<GeoFrame>, cloud: seq<seq<real>>)
    ensures r == FrameFromRows(rows, crs)
    ensures cloud == LastThrees(rows[..Processed(rows)])
  {
    cloud := [];
    var elevations: seq<real> := [];
    var geometryPoints: seq<Point> := [];
    for i := 0 to |rows|
      invariant FrameFromRows(rows[..i], crs) == Ok(GeoFrame(elevations, geometryPoints, crs))
      invariant i <= FirstShort(rows)
      invariant cloud == LastThrees(rows[..i])
    {
      FrameFromRowsSnoc(rows, i, crs, GeoFrame(elevations, geometryPoints, crs));
      var lst := LastThree(rows[i]);
      cloud := cloud + [lst];
      LastThreesSnoc(rows, i);
      if |lst| < 3 {
        FrameFromRowsSpec(rows, crs);
        return Err(RowTooShort(i)), cloud;
      }
      elevations := elevations + [lst[2]];
      geometryPoints := geometryPoints + [Point(lst[0], lst[1])];
    }
    assert rows[..|rows|] == rows;
    r := Ok(GeoFrame(elevations, geometryPoints, crs));
  }

  class FetchData {
    const publicDataUrl: string
    const region: string
    const epsg: string
    /** The loaded template's stage list, `pipeline_json['pipeline']`. */
    var pipelineJson: array<Stage>
    /** `self.cloud_points`, which only the row loop sets: the last three fields of the processed rows. */
    var cloudPoints: Option<seq<seq<real>>>

    /** `template` is the stage list of the template document read at construction. */
    constructor (template: seq<Stage>, region: string, epsg: string)
      ensures publicDataUrl == PublicDataUrl && this.region == region && this.epsg == epsg
      ensures pipelineJson[..] == template && fresh(pipelineJson)
      ensures cloudPoints == None
    {
      publicDataUrl := PublicDataUrl;
      this.region := region;
      this.epsg := epsg;
      pipelineJson := new Stage[|template|](i requires 0 <= i < |template| => template[i]);
      cloudPoints := None;
    }

    /**
     * Reloads the template's stage list `loaded`, computes the query texts of
     * the (already reprojected) ring, and overwrites six fields in place, the
     * output files under `../data/laz/` and `../data/tif/`.
     */
    method GetPipeline(loaded: seq<Stage>, ring: seq<Point>, fmt: real -> string,
                       outputFilename: string := "farm_land_IA_FullState") returns (r: Outcome)
      requires |ring| > 0
      modifies this`pipelineJson
      ensures fresh(pipelineJson)
      ensures var p := Patch(loaded, FetchWrites(publicDataUrl, region, BoundsText(Envelope(ring), fmt, ", "),
                                                 WktPolygon(ring, fmt, ", "), epsg,
                                                 LazPath(outputFilename), TifPath(outputFilename)));
        && pipelineJson[..] == p.stages
        && r == if p.failedAt.Some? then Fail(StageIndexOutOfRange(p.failedAt.value)) else Pass
    {
      var a := new Stage[|loaded|](i requires 0 <= i < |loaded| => loaded[i]);
      pipelineJson := a;
      assert a[..] == loaded;
      var extractionBoundaries, polygonInput := UsgsFetchData.FetchData.GetPolygonMargin(ring, fmt);
      r := WriteFetchFields(a, publicDataUrl, region, extractionBoundaries, polygonInput, epsg,
                            LazPath(outputFilename), TifPath(outputFilename));
    }

    /**
     * The elevation table of the engine's first array, tagged with `epsg`;
     * `self.cloud_points` ends up holding the last three fields of every row
     * the loop started on (it is first set in the first iteration). No array
     * raises; so does a short row, after its fields were appended to the
     * cloud points.
     */
    method MakeGeoDf(arrays: seq<seq<Row>>) returns (r: Result<GeoFrame>)
      modifies this`cloudPoints
      ensures arrays == [] ==> r == Err(NoArrays) && cloudPoints == old(cloudPoints)
      ensures arrays != [] ==> r == FrameFromRows(arrays[0], epsg)
      ensures arrays != [] ==>
        cloudPoints == if Processed(arrays[0]) == 0 then old(cloudPoints)
                       else Some(LastThrees(arrays[0][..Processed(arrays[0])]))
    {
      if |arrays| == 0 {
        return Err(NoArrays);
      }
      var cloud;
      r, cloud := RowLoop(arrays[0], epsg);
      if |cloud| > 0 {
        cloudPoints := Some(cloud);
      }
    }
  }
}
