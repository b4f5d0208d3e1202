/**
 * The `FetchData` class of the scripts folder: positional binding of the
 * loaded stage list (bounds without spaces, the boundary's own text as the
 * crop polygon, the requested reference system verbatim as the reprojection
 * target), then one elevation table per array the engine returns.
 */
module ScriptsFetch {
  import opened Wrappers
  import opened Geometry
  import opened Pipeline
  import opened Materialize

  /** Write `i` of `fetch_elevation`, in source order. */
  function ScriptWrite(i: nat, region: string, bounds: string, polygon: string, crs: string): Write
  {
    if i == 0 then Write(0, "filename", JString(EptPath(PublicDataUrl, region)))
    else if i == 1 then Write(0, "bounds", JString(bounds))
    else if i == 2 then Write(1, "polygon", JString(polygon))
    else Write(4, "out_srs", JString(crs))
  }

  /** The four field writes of `fetch_elevation`. */
  function ScriptWrites(region: string, bounds: string, polygon: string, crs: string): seq<Write>
  {
    seq(4, i requires 0 <= i < 4 => ScriptWrite(i, region, bounds, polygon, crs))
  }

  /**
   * On a template of at least five stages: the reader gets the archive path
   * and the bounds text, the cropper the polygon text, stage 4 the reference
   * system exactly as given; those fields and nothing else change, and
   * stages 2, 3 and every stage past 4 are untouched. A shorter template
   * raises at the first write past its end.
   */
  lemma ScriptPipelineShape(s: seq<Stage>, region: string, bounds: string, polygon: string, crs: string)
    ensures var p := Patch(s, ScriptWrites(region, bounds, polygon, crs));
      && |p.stages| == |s|
      && (|s| < 5 ==> p.failedAt == Some(if |s| <= 1 then |s| else 4))
      && (|s| >= 5 ==>
            && p.failedAt == None
            && p.stages[0] == s[0]["filename" := JString(EptPath(PublicDataUrl, region))]["bounds" := JString(bounds)]
            && p.stages[1] == s[1]["polygon" := JString(polygon)]
            && p.stages[2] == s[2]
            && p.stages[3] == s[3]
            && p.stages[4] == s[4]["out_srs" := JString(crs)]
            && forall j :: 5 <= j < |s| ==> p.stages[j] == s[j])
  {
    var ws := ScriptWrites(region, bounds, polygon, crs);
    PatchFailure(s, ws);
    var w0, w1, w2, w3 := ws[0], ws[1], ws[2], ws[3];
    assert w0 == Write(0, "filename", JString(EptPath(PublicDataUrl, region)));
    assert w1 == Write(0, "bounds", JString(bounds));
    assert w2 == Write(1, "polygon", JString(polygon));
    assert w3 == Write(4, "out_srs", JString(crs));
    PatchStep(s, ws, 0);
    assert ws[0..] == ws;
    if |s| > 0 {
      var s1 := s[0 := s[0][w0.field := w0.value]];
      PatchStep(s1, ws, 1);
      var s2 := s1[0 := s1[0][w1.field := w1.value]];
      PatchStep(s2, ws, 2);
      if |s| > 1 {
        var s3 := s2[1 := s2[1][w2.field := w2.value]];
        PatchStep(s3, ws, 3);
        if |s| > 4 {
          var s4 := s3[4 := s3[4][w3.field := w3.value]];
          assert ws[4..] == [];
          assert Patch(s, ws) == Patched(s4, None);
        }
      }
    }
  }

  /**
   * The bounds text here, `([Xmin,Xmax],[Ymin,Ymax])`, is the
   * `([minx, maxx],[miny, maxy])` of the other copies without the space after
   * the comma inside each pair of brackets: inserting a space after those two
   * commas, at `i` and `j`, gives the other text back.
   */
  lemma BoundsSpacing(b: Box, fmt: real -> string)
    ensures var t := BoundsText(b, fmt, ",");
      var i := 2 + |fmt(b.minX)| + 1;
      var j := i + |fmt(b.maxX)| + 3 + |fmt(b.minY)| + 1;
      && 0 < i <= j <= |t| && t[i - 1] == ',' && t[j - 1] == ','
      && BoundsText(b, fmt, ", ") == t[..i] + " " + t[i..j] + " " + t[j..]
  {
    var x0, x1, y0, y1 := fmt(b.minX), fmt(b.maxX), fmt(b.minY), fmt(b.maxY);
    var t := BoundsText(b, fmt, ",");
    var i := 2 + |x0| + 1;
    var j := i + |x1| + 3 + |y0| + 1;
    assert t == "([" + x0 + "," + x1 + "],[" + y0 + "," + y1 + "])";
    assert t[..i] == "([" + x0 + ",";
    assert t[i..j] == x1 + "],[" + y0 + ",";
    assert t[j..] == y1 + "])";
  }

  /**
   * The four writes on the stage list in place, in source order; an index
   * past the end raises, leaving the earlier writes done.
   */
  method WriteScriptFields(a: array<Stage>, region: string, bounds: string, polygon: string, crs: string)
    returns (r: Outcome)
    modifies a
    ensures var p := Patch(old(a[..]), ScriptWrites(region, bounds, polygon, crs));
      && a[..] == p.stages
      && r == if p.failedAt.Some? then Fail(StageIndexOutOfRange(p.failedAt.value)) else Pass
  {
    var ws := ScriptWrites(region, bounds, polygon, crs);
    ghost var s := a[..];
    assert ws[0..] == ws;
    var ok := SetField(a, ws, 0);
    if !ok { return Fail(StageIndexOutOfRange(ws[0].index)); }
    assert Patch(s, ws) == Patch(a[..], ws[1..]);
    ok := SetField(a, ws, 1);
    assert ok;  // stage 0 exists: the write before succeeded
    assert Patch(s, ws) == Patch(a[..], ws[2..]);
    ok := SetField(a, ws, 2);
    if !ok { return Fail(StageIndexOutOfRange(ws[2].index)); }
    assert Patch(s, ws) == Patch(a[..], ws[3..]);
    ok := SetField(a, ws, 3);
    if !ok { return Fail(StageIndexOutOfRange(ws[3].index)); }
    assert ws[4..] == [];
    r := Pass;
  }

  /**
   * The frame-building loop: one table per returned array, in array order,
   * each with points from `zip(X, Y)`, the `Z` column as elevations, and the
   * CRS code made of the last four characters of `crs`.
   */
  method FramesOf(arrays: seq<PointArray>, crs: string) returns (years: seq<GeoFrame>)
    ensures |years| == |arrays|
    ensures forall i :: 0 <= i < |arrays| ==>
      && years[i].elevation == arrays[i].z
      && years[i].geometry == Zip(arrays[i].x, arrays[i].y)
      && years[i].crs == CrsCode(crs)
  {
    years := [];
    for i := 0 to |arrays|
      invariant |years| == i
      invariant forall k :: 0 <= k < i ==> years[k] == ColumnsToFrame(arrays[k], CrsCode(crs))
    {
      years := years + [ColumnsToFrame(arrays[i], CrsCode(crs))];
    }
  }

  class FetchData {
    const region: string

    constructor (region: string)
      ensures this.region == region
    {
      this.region := region;
    }

    /**
     * `template` is the stage list read from the template file, `ring` the
     * exterior ring of the boundary reprojected to the working system and
     * `boundaryText` that boundary's own text; `engine` stands for the
     * external point-cloud engine, mapping a stage list to the arrays it
     * returns. A template too short for the writes raises before the engine
     * runs; otherwise the result is one table per array.
     */
    method FetchElevation(template: seq<Stage>, ring: seq<Point>, boundaryText: string, crs: string,
                          fmt: real -> string, engine: seq<Stage> -> seq<PointArray>)
      returns (r: Result<seq<GeoFrame>>)
      requires |ring| > 0
      ensures var p := Patch(template, ScriptWrites(region, BoundsText(Envelope(ring), fmt, ","), boundaryText, crs));
        && (p.failedAt.Some? ==> r == Err(StageIndexOutOfRange(p.failedAt.value)))
        && (p.failedAt.None? ==>
              && r.Ok? && |r.value| == |engine(p.stages)|
              && forall i :: 0 <= i < |r.value| ==>
                   r.value[i] == ColumnsToFrame(engine(p.stages)[i], CrsCode(crs)))
    {
      var pipeline := new Stage[|template|](i requires 0 <= i < |template| => template[i]);
      assert pipeline[..] == template;
      var b := Envelope(ring);
      var bound := WriteScriptFields(pipeline, region, BoundsText(b, fmt, ","), boundaryText, crs);
      if bound.Fail? {
        return Err(bound.error);
      }
      var arrays := engine(pipeline[..]);
      var years := FramesOf(arrays, crs);
      r := Ok(years);
    }
  }
}
