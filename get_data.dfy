/**
 * The module-level raster fetch of `src/get_data.py`: fixed archive path for
 * one region, and positional binding of the loaded stage list with the bounds
 * text verbatim and the two output paths.
 */
module GetData {
  import opened Wrappers
  import opened Pipeline

  /** The region the module-level constants are built for. */
  const Region := "IA_FullState"

  /** `PUBLIC_ACCESS_PATH`: the archive path of `Region`. */
  const PublicAccessPath := EptPath(PublicDataUrl, Region)

  /** The default output paths. */
  const LazOutputPath := "./data/laz/Iowa.laz"
  const TifOutputPath := "./data/tif/Iowa.tif"

  /** The access path is the public archive's index file for the Iowa state-wide region. */
  lemma PublicAccessPathValue()
    ensures PublicAccessPath == "https://s3-us-west-2.amazonaws.com/usgs-lidar-public/IA_FullState/ept.json"
  {
  }

  /** Write `i` of `get_raster_terrain`, in source order. */
  function TerrainWrite(i: nat, bounds: string, accessPath: string, lazPath: string, tifPath: string): Write
  {
    if i == 0 then Write(0, "bounds", JString(bounds))
    else if i == 1 then Write(0, "filename", JString(accessPath))
    else if i == 2 then Write(5, "filename", JString(lazPath))
    else Write(6, "filename", JString(tifPath))
  }

  /** The four field writes of `get_raster_terrain`. */
  function TerrainWrites(bounds: string, accessPath: string, lazPath: string, tifPath: string): seq<Write>
  {
    seq(4, i requires 0 <= i < 4 => TerrainWrite(i, bounds, accessPath, lazPath, tifPath))
  }

  /**
   * On a template of at least seven stages: the reader gets the bounds text
   * verbatim and the access path, stage 5 the LAZ path and stage 6 the TIF
   * path; those fields and nothing else change, and stages 1 to 4 and every
   * stage past 6 are untouched. A shorter template raises at the first
   * write past its end.
   */
  lemma TerrainPipelineShape(s: seq<Stage>, bounds: string, accessPath: string, lazPath: string, tifPath: string)
    ensures var p := Patch(s, TerrainWrites(bounds, accessPath, lazPath, tifPath));
      && |p.stages| == |s|
      && (|s| < 7 ==> p.failedAt == Some(if |s| == 0 then 0 else if |s| <= 5 then 5 else 6))
      && (|s| >= 7 ==>
            && p.failedAt == None
            && p.stages[0] == s[0]["bounds" := JString(bounds)]["filename" := JString(accessPath)]
            && (forall j :: 1 <= j <= 4 ==> p.stages[j] == s[j])
            && p.stages[5] == s[5]["filename" := JString(lazPath)]
            && p.stages[6] == s[6]["filename" := JString(tifPath)]
            && forall j :: 7 <= j < |s| ==> p.stages[j] == s[j])
  {
    var ws := TerrainWrites(bounds, accessPath, lazPath, tifPath);
    PatchFailure(s, ws);
    var w0, w1, w2, w3 := ws[0], ws[1], ws[2], ws[3];
    assert w0 == Write(0, "bounds", JString(bounds));
    assert w1 == Write(0, "filename", JString(accessPath));
    assert w2 == Write(5, "filename", JString(lazPath));
    assert w3 == Write(6, "filename", JString(tifPath));
    PatchStep(s, ws, 0);
    assert ws[0..] == ws;
    if |s| > 0 {
      var s1 := s[0 := s[0][w0.field := w0.value]];
      PatchStep(s1, ws, 1);
      var s2 := s1[0 := s1[0][w1.field := w1.value]];
      PatchStep(s2, ws, 2);
      if |s| > 5 {
        var s3 := s2[5 := s2[5][w2.field := w2.value]];
        PatchStep(s3, ws, 3);
        if |s| > 6 {
          var s4 := s3[6 := s3[6][w3.field := w3.value]];
          assert ws[4..] == [];
          assert Patch(s, ws) == Patched(s4, None);
        }
      }
    }
  }

  /**
   * The four writes on the stage list in place, in source order; an index
   * past the end raises, leaving the earlier writes done.
   */
  method WriteTerrainFields(a: array<Stage>, bounds: string, accessPath: string, lazPath: string, tifPath: string)
    returns (r: Outcome)
    modifies a
    ensures var p := Patch(old(a[..]), TerrainWrites(bounds, accessPath, lazPath, tifPath));
      && a[..] == p.stages
      && r == if p.failedAt.Some? then Fail(StageIndexOutOfRange(p.failedAt.value)) else Pass
  {
    var ws := TerrainWrites(bounds, accessPath, lazPath, tifPath);
    ghost var s := a[..];
    assert ws[0..] == ws;
    var ok := SetField(a, ws, 0);
    if !ok { return Fail(StageIndexOutOfRange(ws[0].index)); }
    assert Patch(s, ws) == Patch(a[..], ws[1..]);
    ok := SetField(a, ws, 1);
    assert ok;  // stage 0 exists: the write before succeeded
    assert Patch(s, ws) == Patch(a[..], ws[2..]);
    ok := SetField(a, ws, 2);
    if !ok { return Fail(StageIndexOutOfRange(ws[2].index)); }
    assert Patch(s, ws) == Patch(a[..], ws[3..]);
    ok := SetField(a, ws, 3);
    if !ok { return Fail(StageIndexOutOfRange(ws[3].index)); }
    assert ws[4..] == [];
    r := Pass;
  }

  /**
   * Binds the loaded stage list `template` and yields the description handed
   * to the engine. `region` is accepted and never used: only the access path
   * names the region.
   */
  method GetRasterTerrain(template: seq<Stage>, bounds: string, region: string,
                          publicAccessPath: string := PublicAccessPath,
                          outputFilenameLaz: string := LazOutputPath,
                          outputFilenameTif: string := TifOutputPath) returns (r: Result<seq<Stage>>)
    ensures var p := Patch(template, TerrainWrites(bounds, publicAccessPath, outputFilenameLaz, outputFilenameTif));
      r == if p.failedAt.Some? then Err(StageIndexOutOfRange(p.failedAt.value)) else Ok(p.stages)
  {
    var theJson := new Stage[|template|](i requires 0 <= i < |template| => template[i]);
    assert theJson[..] == template;
    var bound := WriteTerrainFields(theJson, bounds, publicAccessPath, outputFilenameLaz, outputFilenameTif);
    if bound.Fail? {
      return Err(bound.error);
    }
    r := Ok(theJson[..]);
  }
}
