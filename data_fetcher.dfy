/**
 * The `DataFetcher` class: query geometry from the reprojected polygon, two
 * role-keyed pipeline builders over a template dictionary, and the
 * row-to-table conversion of the engine's first returned array.
 */
module DataFetcher {
  import opened Wrappers
  import opened Geometry
  import opened Pipeline
  import opened Materialize

  /** The reader's fields: the query bounds and the archive path of the region. */
  function ReaderFields(bounds: string, location: string, region: string): Stage
  {
    map["bounds" := JString(bounds), "filename" := JString(EptPath(location, region))]
  }

  /** The reprojection stage's field: the target reference system. */
  function ReprojectionFields(epsg: string): Stage
  {
    map["out_srs" := JString(OutSrs(epsg))]
  }

  /** The LAZ writer's field: `<file name>_<region>.laz`. */
  function LazWriterFields(fileName: string, region: string): Stage
  {
    map["filename" := JString(fileName + "_" + region + ".laz")]
  }

  /** The TIF writer's fields: `<file name>_<region>.tif` and the raster parameters. */
  function TifWriterFields(fileName: string, region: string, resolution: int, windowSize: int, tifValues: seq<Json>): Stage
  {
    map["filename" := JString(fileName + "_" + region + ".tif"),
        "output_type" := JArray(tifValues),
        "resolution" := JInt(resolution),
        "window_size" := JInt(windowSize)]
  }

  /** Lookup `i` of `construct_simple_pipeline`, in source order. */
  function SimpleStep(i: nat, bounds: string, crop: string, location: string, region: string, epsg: string): Step
  {
    if i == 0 then Step("reader", ReaderFields(bounds, location, region))
    else if i == 1 then Step("cropping_filter", map["polygon" := JString(crop)])
    else if i == 2 then Step("range_filter", map[])
    else if i == 3 then Step("assign_filter", map[])
    else Step("reprojection_filter", ReprojectionFields(epsg))
  }

  /** The five lookups of `construct_simple_pipeline`. */
  function SimpleSteps(bounds: string, crop: string, location: string, region: string, epsg: string): seq<Step>
  {
    seq(5, i requires 0 <= i < 5 => SimpleStep(i, bounds, crop, location, region, epsg))
  }

  /** Lookup `i` of `construct_pipeline_template_1`, in source order (there is no cropping stage). */
  function Template1Step(i: nat, bounds: string, location: string, region: string, epsg: string,
                         fileName: string, resolution: int, windowSize: int, tifValues: seq<Json>): Step
  {
    if i == 0 then Step("reader", ReaderFields(bounds, location, region))
    else if i == 1 then Step("range_filter", map[])
    else if i == 2 then Step("assign_filter", map[])
    else if i == 3 then Step("reprojection_filter", ReprojectionFields(epsg))
    else if i == 4 then Step("smr_filter", map[])
    else if i == 5 then Step("smr_range_filter", map[])
    else if i == 6 then Step("laz_writer", LazWriterFields(fileName, region))
    else Step("tif_writer", TifWriterFields(fileName, region, resolution, windowSize, tifValues))
  }

  /** The eight lookups of `construct_pipeline_template_1`. */
  function Template1Steps(bounds: string, location: string, region: string, epsg: string,
                          fileName: string, resolution: int, windowSize: int, tifValues: seq<Json>): seq<Step>
  {
    seq(8, i requires 0 <= i < 8 => Template1Step(i, bounds, location, region, epsg, fileName, resolution, windowSize, tifValues))
  }

  /**
   * With every role present, the simple pipeline is exactly five stages:
   * reader, cropper, range filter, assign filter, reprojection, each the
   * template's fragment with only the named fields laid over it; the
   * template's fragments for the three overwritten roles hold the same stages.
   */
  lemma SimplePipelineShape(t: map<string, Stage>, bounds: string, crop: string, location: string,
                            region: string, epsg: string)
    requires "reader" in t && "cropping_filter" in t && "range_filter" in t
    requires "assign_filter" in t && "reprojection_filter" in t
    ensures var a := Assemble(t, [], SimpleSteps(bounds, crop, location, region, epsg));
      && a.missing == None
      && |a.stages| == 5
      && a.stages[0] == t["reader"] + ReaderFields(bounds, location, region)
      && a.stages[1] == t["cropping_filter"] + map["polygon" := JString(crop)]
      && a.stages[2] == t["range_filter"]
      && a.stages[3] == t["assign_filter"]
      && a.stages[4] == t["reprojection_filter"] + ReprojectionFields(epsg)
      && a.template.Keys == t.Keys
      && a.template["reader"] == a.stages[0] && a.template["cropping_filter"] == a.stages[1]
      && a.template["reprojection_filter"] == a.stages[4]
  {
    var steps := SimpleSteps(bounds, crop, location, region, epsg);
    assert steps[0].role == "reader" && steps[1].role == "cropping_filter" && steps[2].role == "range_filter";
    assert steps[3].role == "assign_filter" && steps[4].role == "reprojection_filter";
    AssembleFromEmpty(t, steps);
    NoOverrides(t["range_filter"]);
    NoOverrides(t["assign_filter"]);
  }

  /** The template holds the eight fragments template 1 looks up. */
  predicate HasTemplate1Roles(t: map<string, Stage>)
  {
    && "reader" in t && "range_filter" in t && "assign_filter" in t && "reprojection_filter" in t
    && "smr_filter" in t && "smr_range_filter" in t && "laz_writer" in t && "tif_writer" in t
  }

  /**
   * Template 1 looks up eight distinct roles, in the order reader, range
   * filter, assign filter, reprojection, the two ground filters, the LAZ
   * writer and the TIF writer; the cropping role is not among them.
   */
  lemma Template1Roles(bounds: string, location: string, region: string, epsg: string,
                       fileName: string, resolution: int, windowSize: int, tifValues: seq<Json>)
    ensures var steps := Template1Steps(bounds, location, region, epsg, fileName, resolution, windowSize, tifValues);
      && Roles(steps) == ["reader", "range_filter", "assign_filter", "reprojection_filter",
                          "smr_filter", "smr_range_filter", "laz_writer", "tif_writer"]
      && DistinctRoles(steps)
      && "cropping_filter" !in RoleSet(steps)
  {
    var steps := Template1Steps(bounds, location, region, epsg, fileName, resolution, windowSize, tifValues);
    assert steps[0].role == "reader" && steps[1].role == "range_filter" && steps[2].role == "assign_filter";
    assert steps[3].role == "reprojection_filter" && steps[4].role == "smr_filter";
    assert steps[5].role == "smr_range_filter" && steps[6].role == "laz_writer" && steps[7].role == "tif_writer";
  }

  /** With every role present, each lookup of template 1 finds its fragment, and no role repeats. */
  lemma Template1Lookups(t: map<string, Stage>, bounds: string, location: string, region: string, epsg: string,
                         fileName: string, resolution: int, windowSize: int, tifValues: seq<Json>)
    requires HasTemplate1Roles(t)
    ensures var steps := Template1Steps(bounds, location, region, epsg, fileName, resolution, windowSize, tifValues);
      && |steps| == 8
      && (forall i :: 0 <= i < |steps| ==> steps[i].role in t)
      && DistinctRoles(steps)
  {
    var steps := Template1Steps(bounds, location, region, epsg, fileName, resolution, windowSize, tifValues);
    Template1Roles(bounds, location, region, epsg, fileName, resolution, windowSize, tifValues);
    forall i | 0 <= i < |steps| ensures steps[i].role in t {
      assert steps[i].role == Roles(steps)[i];
    }
  }

  /**
   * With every role present, template 1 is exactly eight stages. The first
   * four are the reader with the query bounds and the archive path, the
   * range and assign filters as the template has them, and the reprojection
   * to the requested code.
   */
  lemma Template1Shape(t: map<string, Stage>, bounds: string, location: string, region: string, epsg: string,
                       fileName: string, resolution: int, windowSize: int, tifValues: seq<Json>)
    requires HasTemplate1Roles(t)
    ensures var a := Assemble(t, [], Template1Steps(bounds, location, region, epsg, fileName, resolution, windowSize, tifValues));
      && a.missing == None
      && |a.stages| == 8
      && a.stages[0] == t["reader"] + ReaderFields(bounds, location, region)
      && a.stages[1] == t["range_filter"]
      && a.stages[2] == t["assign_filter"]
      && a.stages[3] == t["reprojection_filter"] + ReprojectionFields(epsg)
  {
    var steps := Template1Steps(bounds, location, region, epsg, fileName, resolution, windowSize, tifValues);
    assert steps[0] == Step("reader", ReaderFields(bounds, location, region));
    assert steps[1] == Step("range_filter", map[]) && steps[2] == Step("assign_filter", map[]);
    assert steps[3] == Step("reprojection_filter", ReprojectionFields(epsg));
    NoOverrides(t["range_filter"]);
    NoOverrides(t["assign_filter"]);
    Template1Lookups(t, bounds, location, region, epsg, fileName, resolution, windowSize, tifValues);
    AssembleStage(t, steps, 0);
    AssembleStage(t, steps, 1);
    AssembleStage(t, steps, 2);
    AssembleStage(t, steps, 3);
  }

  /**
   * The last four stages of template 1: the two ground filters as the
   * template has them, then the LAZ and TIF writers, whose file names carry
   * the region, the TIF writer with the output types, resolution and window
   * size of the call.
   */
  lemma Template1WritersShape(t: map<string, Stage>, bounds: string, location: string, region: string, epsg: string,
                              fileName: string, resolution: int, windowSize: int, tifValues: seq<Json>)
    requires HasTemplate1Roles(t)
    ensures var a := Assemble(t, [], Template1Steps(bounds, location, region, epsg, fileName, resolution, windowSize, tifValues));
      && |a.stages| == 8
      && a.stages[4] == t["smr_filter"]
      && a.stages[5] == t["smr_range_filter"]
      && a.stages[6] == t["laz_writer"] + LazWriterFields(fileName, region)
      && a.stages[7] == t["tif_writer"] + TifWriterFields(fileName, region, resolution, windowSize, tifValues)
  {
    var steps := Template1Steps(bounds, location, region, epsg, fileName, resolution, windowSize, tifValues);
    assert steps[4] == Step("smr_filter", map[]) && steps[5] == Step("smr_range_filter", map[]);
    assert steps[6] == Step("laz_writer", LazWriterFields(fileName, region));
    assert steps[7] == Step("tif_writer", TifWriterFields(fileName, region, resolution, windowSize, tifValues));
    NoOverrides(t["smr_filter"]);
    NoOverrides(t["smr_range_filter"]);
    Template1Lookups(t, bounds, location, region, epsg, fileName, resolution, windowSize, tifValues);
    AssembleStage(t, steps, 4);
    AssembleStage(t, steps, 5);
    AssembleStage(t, steps, 6);
    AssembleStage(t, steps, 7);
  }

  class DataFetcher {
    const extractionBounds: string
    const polygonCropping: string
    const dataLocation: string
    var templatePipeline: map<string, Stage>
    const region: string
    const epsg: string
    /** The last description handed to the engine. */
    var pipeline: seq<Stage>
    var elevationGeodf: Option<GeoFrame>

    /**
     * `ring` is the exterior ring of the request polygon already reprojected
     * to the working system, and `template` the loaded template document.
     */
    constructor (ring: seq<Point>, region: string, epsg: string, template: map<string, Stage>, fmt: real -> string)
      requires |ring| > 0
      ensures extractionBounds == BoundsText(Envelope(ring), fmt, ", ")
      ensures polygonCropping == WktPolygon(ring, fmt, ",")
      ensures dataLocation == PublicDataUrl && templatePipeline == template
      ensures this.region == region && this.epsg == epsg
      ensures pipeline == [] && elevationGeodf == None
    {
      dataLocation := PublicDataUrl;
      templatePipeline := template;
      this.region := region;
      this.epsg := epsg;
      pipeline := [];
      elevationGeodf := None;
      var bounds, crop := GetPolygonEdges(ring, fmt);
      extractionBounds, polygonCropping := bounds, crop;
    }

    /** The reader's bounds text and the cropper's polygon text of the reprojected ring. */
    static method GetPolygonEdges(ring: seq<Point>, fmt: real -> string) returns (extractionBounds: string, polygonCropping: string)
      requires |ring| > 0
      ensures extractionBounds == BoundsText(Envelope(ring), fmt, ", ")
      ensures polygonCropping == WktPolygon(ring, fmt, ",")
    {
      var b := Envelope(ring);
      extractionBounds := "(" + ListRepr([fmt(b.minX), fmt(b.maxX)]) + "," + ListRepr([fmt(b.minY), fmt(b.maxY)]) + ")";
      ListReprBounds(b, fmt);
      polygonCropping := GetCropPolygon(ring, fmt);
    }

    /** `POLYGON((` + `"x y"` per vertex joined by `","` + `))`. */
    static method GetCropPolygon(ring: seq<Point>, fmt: real -> string) returns (text: string)
      ensures |ring| > 0 ==> text == WktPolygon(ring, fmt, ",")
      ensures |ring| == 0 ==> text == "POLYGON())"
    {
      text := PolygonText(ring, fmt, ",");
    }

    /**
     * One role lookup, `steps[k]`: take the fragment for the step's role,
     * overwrite the step's fields in place, append it to the pipeline.
     */
    method AppendFragment(steps: seq<Step>, k: nat) returns (ok: bool)
      requires k < |steps|
      modifies this`templatePipeline, this`pipeline
      ensures ok == (steps[k].role in old(templatePipeline))
      ensures !ok ==> templatePipeline == old(templatePipeline) && pipeline == old(pipeline)
      ensures ok ==>
        var fragment := old(templatePipeline)[steps[k].role] + steps[k].overrides;
        templatePipeline == old(templatePipeline)[steps[k].role := fragment] && pipeline == old(pipeline) + [fragment]
      ensures Assemble(old(templatePipeline), old(pipeline), steps[k..])
           == if ok then Assemble(templatePipeline, pipeline, steps[k + 1..])
              else Assembly(templatePipeline, pipeline, Some(steps[k].role))
    {
      var step := steps[k];
      ok := step.role in templatePipeline;
      if ok {
        var fragment := templatePipeline[step.role] + step.overrides;
        templatePipeline := templatePipeline[step.role := fragment];
        pipeline := pipeline + [fragment];
      }
      assert steps[k..][0] == step;
      assert steps[k..][1..] == steps[k + 1..];
    }

    /**
     * Reader, cropper, range filter, assign filter, reprojection, looked up by
     * role and appended in that order; a missing role raises after the
     * earlier stages were appended and their fragments overwritten.
     */
    method ConstructSimplePipeline() returns (r: Outcome)
      modifies this`templatePipeline, this`pipeline
      ensures var a := Assemble(old(templatePipeline), [], SimpleSteps(extractionBounds, polygonCropping, dataLocation, region, epsg));
        && templatePipeline == a.template && pipeline == a.stages
        && r == if a.missing.Some? then Fail(MissingRole(a.missing.value)) else Pass
    {
      var steps := SimpleSteps(extractionBounds, polygonCropping, dataLocation, region, epsg);
      pipeline := [];
      var ok := AppendFragment(steps, 0);
      if !ok { return Fail(MissingRole(steps[0].role)); }
      ok := AppendFragment(steps, 1);
      if !ok { return Fail(MissingRole(steps[1].role)); }
      ok := AppendFragment(steps, 2);
      if !ok { return Fail(MissingRole(steps[2].role)); }
      ok := AppendFragment(steps, 3);
      if !ok { return Fail(MissingRole(steps[3].role)); }
      ok := AppendFragment(steps, 4);
      if !ok { return Fail(MissingRole(steps[4].role)); }
      assert steps[5..] == [];
      r := Pass;
    }

    /**
     * Reader, range filter, assign filter, reprojection, the two ground
     * filters and the two writers, looked up by role in that order.
     */
    method ConstructPipelineTemplate1(fileName: string, resolution: int := 1, windowSize: int := 6,
                                      tifValues: seq<Json> := [JString("all")]) returns (r: Outcome)
      modifies this`templatePipeline, this`pipeline
      ensures var a := Assemble(old(templatePipeline), [],
                                Template1Steps(extractionBounds, dataLocation, region, epsg, fileName, resolution, windowSize, tifValues));
        && templatePipeline == a.template && pipeline == a.stages
        && r == if a.missing.Some? then Fail(MissingRole(a.missing.value)) else Pass
    {
      var steps := Template1Steps(extractionBounds, dataLocation, region, epsg, fileName, resolution, windowSize, tifValues);
      pipeline := [];
      var ok := AppendFragment(steps, 0);
      if !ok { return Fail(MissingRole(steps[0].role)); }
      ok := AppendFragment(steps, 1);
      if !ok { return Fail(MissingRole(steps[1].role)); }
      ok := AppendFragment(steps, 2);
      if !ok { return Fail(MissingRole(steps[2].role)); }
      ok := AppendFragment(steps, 3);
      if !ok { return Fail(MissingRole(steps[3].role)); }
      ok := AppendFragment(steps, 4);
      if !ok { return Fail(MissingRole(steps[4].role)); }
      ok := AppendFragment(steps, 5);
      if !ok { return Fail(MissingRole(steps[5].role)); }
      ok := AppendFragment(steps, 6);
      if !ok { return Fail(MissingRole(steps[6].role)); }
      ok := AppendFragment(steps, 7);
      if !ok { return Fail(MissingRole(steps[7].role)); }
      assert steps[8..] == [];
      r := Pass;
    }

    /**
     * The elevation table of the engine's first array, tagged with `epsg`:
     * per row, the last of its final three fields is the elevation and the
     * two before it the point. No array raises; so does a short row.
     */
    method GetElevationGeodf(arrays: seq<seq<Row>>) returns (r: Result<GeoFrame>)
      modifies this`elevationGeodf
      ensures arrays == [] ==> r == Err(NoArrays)
      ensures arrays != [] ==> r == FrameFromRows(arrays[0], epsg)
      ensures elevationGeodf == if r.Ok? then Some(r.value) else old(elevationGeodf)
    {
      if |arrays| == 0 {
        return Err(NoArrays);
      }
      var rows := arrays[0];
      var elevations: seq<real> := [];
      var points: seq<Point> := [];
      for i := 0 to |rows|
        invariant FrameFromRows(rows[..i], epsg) == Ok(GeoFrame(elevations, points, epsg))
        invariant i <= FirstShort(rows)
        invariant elevationGeodf == old(elevationGeodf)
      {
        FrameFromRowsSnoc(rows, i, epsg, GeoFrame(elevations, points, epsg));
        var lst := LastThree(rows[i]);
        if |lst| < 3 {
          FrameFromRowsSpec(rows, epsg);
          return Err(RowTooShort(i));
        }
        elevations := elevations + [lst[2]];
        points := points + [Point(lst[0], lst[1])];
      }
      assert rows[..|rows|] == rows;
      r := Ok(GeoFrame(elevations, points, epsg));
      elevationGeodf := Some(r.value);
    }
  }
}
