/**
 * The `FetchData` class of the `usgs` package: query texts with `", "`
 * between the vertex pairs, and positional binding of the loaded template,
 * whose stage list is overwritten field by field.
 */
module UsgsFetchData {
  import opened Wrappers
  import opened Geometry
  import opened Pipeline

  /**
   * Write `i` of `get_pipeline`, in source order. The two copies of the class
   * differ only in the output file names, which are parameters here.
   */
  function FetchWrite(i: nat, url: string, region: string, bounds: string, polygon: string,
                      epsg: string, lazFile: string, tifFile: string): Write
  {
    if i == 0 then Write(0, "filename", JString(EptPath(url, region)))
    else if i == 1 then Write(0, "bounds", JString(bounds))
    else if i == 2 then Write(1, "polygon", JString(polygon))
    else if i == 3 then Write(3, "out_srs", JString(OutSrs(epsg)))
    else if i == 4 then Write(4, "filename", JString(lazFile))
    else Write(5, "filename", JString(tifFile))
  }

  /** The six field writes of `get_pipeline`. */
  function FetchWrites(url: string, region: string, bounds: string, polygon: string,
                       epsg: string, lazFile: string, tifFile: string): seq<Write>
  {
    seq(6, i requires 0 <= i < 6 => FetchWrite(i, url, region, bounds, polygon, epsg, lazFile, tifFile))
  }

  /**
   * On a template of at least six stages: the reader gets the archive path
   * and the bounds text, the cropper the polygon text, stage 3 the target
   * reference system, stages 4 and 5 the two output files; those fields and
   * nothing else change, and stage 2 and every stage past 5 are untouched.
   * A shorter template raises at the first write past its end.
   */
  lemma FetchPipelineShape(s: seq<Stage>, url: string, region: string, bounds: string, polygon: string,
                           epsg: string, lazFile: string, tifFile: string)
    ensures var p := Patch(s, FetchWrites(url, region, bounds, polygon, epsg, lazFile, tifFile));
      && |p.stages| == |s|
      && (|s| < 6 ==> p.failedAt == Some(if |s| == 2 then 3 else |s|))
      && (|s| >= 6 ==>
            && p.failedAt == None
            && p.stages[0] == s[0]["filename" := JString(EptPath(url, region))]["bounds" := JString(bounds)]
            && p.stages[1] == s[1]["polygon" := JString(polygon)]
            && p.stages[2] == s[2]
            && p.stages[3] == s[3]["out_srs" := JString(OutSrs(epsg))]
            && p.stages[4] == s[4]["filename" := JString(lazFile)]
            && p.stages[5] == s[5]["filename" := JString(tifFile)]
            && forall j :: 6 <= j < |s| ==> p.stages[j] == s[j])
  {
    var ws := FetchWrites(url, region, bounds, polygon, epsg, lazFile, tifFile);
    PatchFailure(s, ws);
    var w0, w1, w2, w3, w4, w5 := ws[0], ws[1], ws[2], ws[3], ws[4], ws[5];
    assert w0 == Write(0, "filename", JString(EptPath(url, region)));
    assert w1 == Write(0, "bounds", JString(bounds));
    assert w2 == Write(1, "polygon", JString(polygon));
    assert w3 == Write(3, "out_srs", JString(OutSrs(epsg)));
    assert w4 == Write(4, "filename", JString(lazFile));
    assert w5 == Write(5, "filename", JString(tifFile));
    PatchStep(s, ws, 0);
    assert ws[0..] == ws;
    if |s| > 0 {
      var s1 := s[0 := s[0][w0.field := w0.value]];
      PatchStep(s1, ws, 1);
      var s2 := s1[0 := s1[0][w1.field := w1.value]];
      PatchStep(s2, ws, 2);
      if |s| > 1 {
        var s3 := s2[1 := s2[1][w2.field := w2.value]];
        PatchStep(s3, ws, 3);
        if |s| > 3 {
          var s4 := s3[3 := s3[3][w3.field := w3.value]];
          PatchStep(s4, ws, 4);
          if |s| > 4 {
            var s5 := s4[4 := s4[4][w4.field := w4.value]];
            PatchStep(s5, ws, 5);
            if |s| > 5 {
              var s6 := s5[5 := s5[5][w5.field := w5.value]];
              assert ws[6..] == [];
              assert Patch(s, ws) == Patched(s6, None);
            }
          }
        }
      }
    }
  }

  /**
   * The six writes of `get_pipeline` on the stage list in place, in source
   * order; an index past the end raises, leaving the earlier writes done.
   */
  method WriteFetchFields(a: array<Stage>, url: string, region: string, bounds: string, polygon: string,
                          epsg: string, lazFile: string, tifFile: string) returns (r: Outcome)
    modifies a
    ensures var p := Patch(old(a[..]), FetchWrites(url, region, bounds, polygon, epsg, lazFile, tifFile));
      && a[..] == p.stages
      && r == if p.failedAt.Some? then Fail(StageIndexOutOfRange(p.failedAt.value)) else Pass
  {
    var ws := FetchWrites(url, region, bounds, polygon, epsg, lazFile, tifFile);
    ghost var s := a[..];
    assert ws[0..] == ws;
    var ok := SetField(a, ws, 0);
    if !ok { return Fail(StageIndexOutOfRange(ws[0].index)); }
    assert Patch(s, ws) == Patch(a[..], ws[1..]);
    ok := SetField(a, ws, 1);
    assert ok;  // stage 0 exists: the write before succeeded
    assert Patch(s, ws) == Patch(a[..], ws[2..]);
    ok := SetField(a, ws, 2);
    if !ok { return Fail(StageIndexOutOfRange(ws[2].index)); }
    assert Patch(s, ws) == Patch(a[..], ws[3..]);
    ok := SetField(a, ws, 3);
    if !ok { return Fail(StageIndexOutOfRange(ws[3].index)); }
    assert Patch(s, ws) == Patch(a[..], ws[4..]);
    ok := SetField(a, ws, 4);
    if !ok { return Fail(StageIndexOutOfRange(ws[4].index)); }
    assert Patch(s, ws) == Patch(a[..], ws[5..]);
    ok := SetField(a, ws, 5);
    if !ok { return Fail(StageIndexOutOfRange(ws[5].index)); }
    assert ws[6..] == [];
    r := Pass;
  }

  class FetchData {
    const publicDataUrl: string
    const region: string
    const epsg: string
    /** The loaded template's stage list, `pipeline_json['pipeline']`. */
    var pipelineJson: array<Stage>

    /** `template` is the stage list of the template document read at construction. */
    constructor (template: seq<Stage>, region: string, epsg: string)
      ensures publicDataUrl == PublicDataUrl && this.region == region && this.epsg == epsg
      ensures pipelineJson[..] == template && fresh(pipelineJson)
    {
      publicDataUrl := PublicDataUrl;
      this.region := region;
      this.epsg := epsg;
      pipelineJson := new Stage[|template|](i requires 0 <= i < |template| => template[i]);
    }

    /**
     * The reader's bounds text `([minx, maxx],[miny, maxy])` and the cropper's
     * polygon text with `", "` between the vertex pairs and none after the last.
     */
    static method GetPolygonMargin(ring: seq<Point>, fmt: real -> string)
      returns (extractionBoundaries: string, polygonInput: string)
      requires |ring| > 0
      ensures extractionBoundaries == BoundsText(Envelope(ring), fmt, ", ")
      ensures polygonInput == WktPolygon(ring, fmt, ", ")
    {
      var b := Envelope(ring);
      polygonInput := PolygonText(ring, fmt, ", ");
      extractionBoundaries := "(" + ListRepr([fmt(b.minX), fmt(b.maxX)]) + "," + ListRepr([fmt(b.minY), fmt(b.maxY)]) + ")";
      ListReprBounds(b, fmt);
    }

    /**
     * Reloads the template's stage list `loaded` and overwrites six fields in
     * place, in source order; an index past the end raises, leaving the
     * earlier writes done.
     */
    method GetPipeline(loaded: seq<Stage>, extractionBoundaries: string, polygonInput: string,
                       outputFilename: string := "temp") returns (r: Outcome)
      modifies this`pipelineJson
      ensures fresh(pipelineJson)
      ensures var p := Patch(loaded, FetchWrites(publicDataUrl, region, extractionBoundaries, polygonInput, epsg,
                                           outputFilename + ".laz", outputFilename + ".tif"));
        && pipelineJson[..] == p.stages
        && r == if p.failedAt.Some? then Fail(StageIndexOutOfRange(p.failedAt.value)) else Pass
    {
      var a := new Stage[|loaded|](i requires 0 <= i < |loaded| => loaded[i]);
      pipelineJson := a;
      assert a[..] == loaded;
      r := WriteFetchFields(a, publicDataUrl, region, extractionBoundaries, polygonInput, epsg,
                            outputFilename + ".laz", outputFilename + ".tif");
    }
  }
}
