# Lidar fetch: query geometry, pipeline binding and elevation tables

This project models the core of a small tool that fetches elevation point
clouds for a polygon from the public USGS lidar archive on S3
(`https://s3-us-west-2.amazonaws.com/usgs-lidar-public/<region>/ept.json`).
The tool has three steps, and the repository implements them five times with
small differences:

1. **Query geometry.** The polygon, already reprojected to the working
   system, becomes two texts. The first is the reader's bounds text,
   `([minx, maxx],[miny, maxy])`. The second is the cropper's well-known-text
   polygon, `POLYGON((x y,x y,...))`, following clause 7 of OGC 06-103r4
   (Simple Feature Access, Part 1).
2. **Pipeline binding.** A loaded stage template is turned into the stage list
   handed to the PDAL point-cloud engine. This happens in one of two ways:
   - role-keyed: `usgs/data_fetcher.py` looks fragments up by name and
     appends them in a fixed order;
   - positional: every other copy overwrites `pipeline[i][field]`.
3. **Materialization.** The rows or columns the engine returns become an
   elevation table. Each entry is an elevation plus an `(x, y)` point, and the
   whole table carries one CRS tag.

Modules, leaf to root:

- `Wrappers`: `Option`, `Result`, `Outcome`, and the error kinds that the
  Python code raises.
- `Geometry`: `Point` and `Box`; the envelope of a ring; joins and splits; the
  polygon text; the bounds text. The shared accumulate-and-strip loop is
  `PolygonText`.
- `Pipeline`: JSON values and stages. The role-keyed fold is `Assemble`. The
  positional fold is `Patch`, and `SetField` is one in-place write to it.
- `Materialize`: the row-built table (`FrameFromRows`), the column-built table
  (`ColumnsToFrame`), and the CRS code `crs[-4:]`.
- One module per source file: `DataFetcher` (usgs/data_fetcher.py),
  `UsgsFetchData` (usgs/fetch_data.py), `PackageFetchData`
  (package/fetch_data.py), `ScriptsFetch` (scripts/fetch.py) and `GetData`
  (src/get_data.py).

Some things are parameters rather than modelled code:

- Coordinates are `real`.
- Python's number-to-text conversion is an uninterpreted parameter,
  `fmt: real -> string`.
- The reprojected exterior ring is an input.
- In `ScriptsFetch`, the engine is a function parameter from stage lists to
  point arrays. Everywhere else, the arrays the engine returned are a
  parameter.

State the code updates in place stays imperative:

- `DataFetcher.DataFetcher` holds the template dictionary and the stage list
  it appends to.
- The positional binders hold the loaded stage list as an `array<Stage>` and
  write it field by field.

In these places the code, and so the model, behaves as follows:

- The binders index stages by position (except `DataFetcher`). They do not
  check stage order, and they never drop writer stages.
- A missing role raises `KeyError` (`MissingRole`), not a separate error kind.
- A template that is too short raises `IndexError` (`StageIndexOutOfRange`)
  after the earlier writes have been done.
- The polygon text is closed only when the ring it is given is closed
  (`ClosedRingText`). The code never repeats the first vertex itself.

## Model

| member | source | states |
|---|---|---|
| Geometry.Envelope | usgs/data_fetcher.py:50 | the bounds of the ring: on each axis min <= max, every vertex lies inside, and each of the four bounds is attained by some vertex |
| Geometry.DegenerateEnvelope | usgs/data_fetcher.py:50 | a ring whose vertices all coincide gives a zero-area box, not a failure |
| Geometry.TerminatedIsJoinThenSep | usgs/data_fetcher.py:69-72 | appending separator after every pair, then stripping one separator, gives exactly the separator-join of the pairs (no trailing separator) |
| Geometry.SplitJoin | usgs/fetch_data.py:37-39 | splitting a joined text at the separator gives back the items one for one in order, when no item holds the separator |
| Geometry.PolygonText | usgs/fetch_data.py:35-40 | the accumulate-and-strip loop yields `POLYGON((` + the `x y` pairs joined by the separator + `))` on a non-empty ring; on an empty ring the strip eats into the prefix |
| Geometry.ClosedRingText | usgs/data_fetcher.py:68-72 | a closed ring (first vertex equal to last) gives a text whose first and last pair are the same pair text |
| Geometry.WktPolygonDecodes | usgs/fetch_data.py:36-40 | the polygon body holds exactly one `x y` pair per vertex, in vertex order |
| Geometry.ListReprBounds | usgs/data_fetcher.py:52 | the f-string of two Python lists is the bounds text `([minx, maxx],[miny, maxy])`, each axis min before max |
| Pipeline.EptPathParts | usgs/data_fetcher.py:80 | the archive path is base + region + `/ept.json`, and the region can be read back from it |
| Pipeline.Assemble | usgs/data_fetcher.py:76-123 | the role-keyed fold: lookups in order, each fragment overwritten in place and appended; a reported missing role is one the template lacks |
| Pipeline.AssembleStopsAtPrefix | usgs/data_fetcher.py:78-92 | when lookup j is the first to miss, the result is exactly the template and stages the lookups before j left, with lookup j's role reported |
| Pipeline.AssembleMissing | usgs/data_fetcher.py:76-92 | role-keyed binding fails exactly when a looked-up role is absent; the first absent role is reported, the template keeps its roles, and template and stages are those the lookups before it left (`acc` followed by their bound fragments, by AssembleAllPresent) |
| Pipeline.AssembleAllPresent | usgs/data_fetcher.py:76-92 | with all roles present and distinct: one stage per lookup in lookup order, each the template fragment with exactly its overrides, the template sees the same overwrites and other fragments are untouched |
| Pipeline.AssembleFromEmpty | usgs/data_fetcher.py:97-123 | from an empty list: stage i is fragment i with its overrides, and the template entry of role i is that same stage (aliasing) |
| Pipeline.Patch | usgs/fetch_data.py:57-62 | the positional fold: writes in order, stopping at the first index past the end; the stage count never changes and a reported index is past the end |
| Pipeline.PatchFailure | usgs/fetch_data.py:57-62 | positional writes never add or drop stages, and fail exactly when some index is out of range, reporting the first one |
| Pipeline.PatchFields | package/fetch_data.py:102-107 | after successful writes a field holds the value last written to it, and every field no write targets keeps its old value or stays absent |
| Pipeline.PatchUntouched | src/get_data.py:25-28 | a stage no write targets comes out unchanged |
| Pipeline.PatchStep | scripts/fetch.py:27-30 | a write either runs and leaves the later writes to do, or is the one that raises |
| Pipeline.SetField | usgs/fetch_data.py:57 | one `pipeline[i][field] = value` in place: only that field of that stage changes, or nothing when i is past the end |
| Materialize.FrameFromRows | usgs/data_fetcher.py:148-155 | the row-built table: on success one entry per row with the given CRS, on failure a row of fewer than three fields is named |
| Materialize.FrameFromRowsSpec | usgs/data_fetcher.py:148-155 | the row-built table fails exactly at the first row with fewer than three fields; otherwise it has one entry per row, entry i with the last field of row i as elevation and the two before it as point, all tagged with one CRS |
| Materialize.FrameFromRowsSnoc | usgs/data_fetcher.py:148-152 | one more row extends the table by that row's entry, or fails at that row |
| Materialize.FrameFromNoRows | usgs/data_fetcher.py:145-158 | zero rows give an empty table with both columns, not an error |
| Materialize.FrameFromThreeRows | usgs/data_fetcher.py:148-156 | rows (1,2,3), (4,5,6), (7,8,9) with CRS `4326` give three points, the second at (4,5) with elevation 6 |
| Materialize.Zip | usgs/fetch_data.py:86 | `zip(X, Y)` as points: as many as the shorter column, point i is `(X[i], Y[i])` |
| Materialize.ColumnsToFrame | usgs/fetch_data.py:86-90 | the column-built table: elevations are the `Z` column, the CRS is the given one, and for equal-length columns point i is `(X[i], Y[i])`, one per elevation |
| Materialize.ColumnsToFrameFidelity | usgs/fetch_data.py:86-90 | for equal-length columns, entry i is `(X[i], Y[i])` at elevation `Z[i]` exactly, all with the given CRS |
| Materialize.RowsAgreeWithColumns | usgs/data_fetcher.py:149-151 | when the last three fields of every row are its X, Y and Z, the row-built table equals the column-built one |
| Materialize.CrsCode | scripts/fetch.py:46 | `crs[-4:]`: the last four characters, or the whole text when shorter |
| Materialize.CrsCodeOfEpsg | scripts/fetch.py:46 | `EPSG:4326` gives the code `4326` |
| DataFetcher.SimplePipelineShape | usgs/data_fetcher.py:76-92 | with all roles present: exactly five stages in the order reader, cropping, range, assign, reprojection. The reader gets bounds and `<location><region>/ept.json`, the cropper the polygon text, reprojection `EPSG:<epsg>`; range and assign pass unchanged, as does every other field |
| DataFetcher.Template1Roles | usgs/data_fetcher.py:97-123 | template 1 looks up eight distinct roles in the order reader, range, assign, reprojection, smr, smr range, laz writer, tif writer, and no cropping role |
| DataFetcher.Template1Shape | usgs/data_fetcher.py:97-108 | with all roles present: exactly eight stages, the first four being the bound reader, range and assign unchanged, and the reprojection to `EPSG:<epsg>` |
| DataFetcher.Template1WritersShape | usgs/data_fetcher.py:110-123 | stages 5-8: the two ground filters unchanged, the writers named `<file>_<region>.laz` and `<file>_<region>.tif`, the tif writer with the given output types, resolution and window size |
| DataFetcher.DataFetcher.constructor | usgs/data_fetcher.py:16-22 | the object holds the bounds text and the `","`-joined polygon text of the ring, the archive base address, the template, region and code |
| DataFetcher.DataFetcher.GetPolygonEdges | usgs/data_fetcher.py:43-55 | bounds text `([minx, maxx],[miny, maxy])` of the ring's envelope and the polygon text with `","` between pairs |
| DataFetcher.DataFetcher.GetCropPolygon | usgs/data_fetcher.py:67-74 | `POLYGON((` + the pairs joined by `","` + `))` on a non-empty ring, and `POLYGON())` on an empty one |
| DataFetcher.DataFetcher.AppendFragment | usgs/data_fetcher.py:78-81 | one role lookup: the fragment is overwritten in the template and appended, or the role is missing and nothing changes |
| DataFetcher.DataFetcher.ConstructSimplePipeline | usgs/data_fetcher.py:76-94 | the new stage list and template are those of the role-keyed fold over the five lookups; a missing role is reported as failure after the earlier stages were appended |
| DataFetcher.DataFetcher.ConstructPipelineTemplate1 | usgs/data_fetcher.py:96-125 | the same for the eight lookups of template 1, with defaults `["all"]`, 1 and 6 |
| DataFetcher.DataFetcher.GetElevationGeodf | usgs/data_fetcher.py:144-160 | the result is the row-built table of the first array tagged with the code, stored on success; no array and a short row are errors |
| UsgsFetchData.FetchPipelineShape | usgs/fetch_data.py:56-62 | on six or more stages: stage 0 gets filename and bounds, 1 the polygon, 3 `EPSG:<epsg>`, 4 and 5 the laz and tif names; stage 2, stages past 5 and every other field are unchanged. Shorter templates raise at the first missing index |
| UsgsFetchData.WriteFetchFields | usgs/fetch_data.py:57-62 | the six writes in place give exactly the positional fold's stages and failure |
| UsgsFetchData.FetchData.constructor | usgs/fetch_data.py:11-20 | the object holds the loaded stage list, the archive base address, region and code |
| UsgsFetchData.FetchData.GetPolygonMargin | usgs/fetch_data.py:28-45 | returns (bounds text, polygon text) in that order, the polygon pairs joined by `", "` with no trailing separator |
| UsgsFetchData.FetchData.GetPipeline | usgs/fetch_data.py:50-64 | the stage list is the reloaded template after the six writes, with default name `temp` giving `temp.laz` and `temp.tif` |
| PackageFetchData.MakeGeoDfAsWritten | package/fetch_data.py:150-160 | `make_geo_df` as written: no array raises, and a table comes out only for an array of at most one row, with one entry per row |
| PackageFetchData.RowLoopAsWritten | package/fetch_data.py:153-160 | the loop as written can succeed on at most one row, because `cloud_points` is an array after the first |
| PackageFetchData.AsWrittenFailsOnSecondRow | package/fetch_data.py:155-156 | as written, any array of two or more rows with a complete first row fails at the second row's append, where the intended table exists |
| PackageFetchData.AsWrittenCounterexample | package/fetch_data.py:150-160 | rows (1,2,3), (4,5,6): as written it raises; the intended table has two points |
| PackageFetchData.AsWrittenAgreesOnOneRow | package/fetch_data.py:150-163 | on zero or one row the loop as written and the intended one agree, so zero rows give an empty table |
| PackageFetchData.RowLoop | package/fetch_data.py:150-160 | the corrected loop gives the row-built table, and the cloud points hold the last three fields of every row the loop started on |
| PackageFetchData.FetchData.constructor | package/fetch_data.py:29-38 | the object holds the loaded stage list, the archive base address, region and code, with no cloud points yet |
| PackageFetchData.FetchData.GetPipeline | package/fetch_data.py:82-108 | the stage list is the reloaded template after the six writes, with bounds and polygon texts of the ring and files `../data/laz/<name>.laz` and `../data/tif/<name>.tif`, default name `farm_land_IA_FullState` |
| PackageFetchData.FetchData.MakeGeoDf | package/fetch_data.py:138-167 | the row-built table of the first array tagged with the code (the corrected loop of ## Findings); cloud points set to the rows processed; no array and a short row are errors |
| ScriptsFetch.ScriptPipelineShape | scripts/fetch.py:26-30 | on five or more stages: stage 0 gets the fixed archive path and the space-free bounds, 1 the boundary text, 4 the CRS verbatim; stages 2, 3, stages past 4 and every other field are unchanged. Shorter templates raise |
| ScriptsFetch.BoundsSpacing | scripts/fetch.py:28 | the bounds text here is the `", "` text of the other copies with the space after the comma inside each pair of brackets removed: inserting a space after those two commas gives that text back |
| ScriptsFetch.WriteScriptFields | scripts/fetch.py:27-30 | the four writes in place give exactly the positional fold's stages and failure |
| ScriptsFetch.FramesOf | scripts/fetch.py:38-48 | one table per array in array order, each with points from `zip(X, Y)`, elevations `Z` and CRS code `crs[-4:]` |
| ScriptsFetch.FetchData.constructor | scripts/fetch.py:15-16 | the object holds the region |
| ScriptsFetch.FetchData.FetchElevation | scripts/fetch.py:17-48 | a template too short for the writes fails before the engine runs; otherwise one table per array the engine returns for the bound stage list |
| GetData.PublicAccessPathValue | src/get_data.py:6-9 | the access path is the archive's `IA_FullState/ept.json` |
| GetData.TerrainPipelineShape | src/get_data.py:25-28 | on seven or more stages: stage 0 gets the bounds verbatim and the access path, 5 the laz path, 6 the tif path; stages 1-4, stages past 6 and every other field are unchanged. Shorter templates raise |
| GetData.WriteTerrainFields | src/get_data.py:25-28 | the four writes in place give exactly the positional fold's stages and failure |
| GetData.GetRasterTerrain | src/get_data.py:18-30 | the description handed to the engine is the template after the four writes, and does not depend on the `region` argument |

## Findings

| source | as written | input that shows it | evidently intended | confidence | as-written member | corrected member |
|---|---|---|---|---|---|---|
| package/fetch_data.py:155-156 | `cloud_points` is rebound to a numpy array after the first `append`, so the next row's `cloud_points.append` raises `AttributeError` | one array with rows (1,2,3), (4,5,6) | one table entry per row, as in usgs/data_fetcher.py:148-155 | high (not executed) | PackageFetchData.AsWrittenCounterexample | PackageFetchData.RowLoop |

The failing loop is `PackageFetchData.MakeGeoDfAsWritten`. Beside the
counterexample, `AsWrittenFailsOnSecondRow` shows that it fails for every
array of two or more rows. `PackageFetchData.FetchData.MakeGeoDf` uses the
corrected loop `RowLoop`.

## Left out

- Reprojection is not modelled: `to_crs` (usgs/data_fetcher.py:48, 57;
  usgs/fetch_data.py:32; package/fetch_data.py:64) and the pyproj transform
  at scripts/fetch.py:49-56 are floating-point work in foreign libraries. The
  model takes the reprojected exterior ring as input.
- Shapely is foreign code. `.bounds` is modelled as `Envelope`, an assumed
  contract. `exterior.coords` is the input ring. `str(polygon)` is the
  `boundaryText` parameter of `ScriptsFetch.FetchData.FetchElevation`. The
  ring's closedness is a precondition of `ClosedRingText`.
- Float-to-text formatting (`f'{x}'`, list repr) is the uninterpreted
  parameter `fmt`.
- PDAL is not modelled: `pdal.Pipeline`, `execute`, `arrays`, `metadata` and
  `log`. Replacing `self.pipeline` by the engine object
  (usgs/data_fetcher.py:94, 125) is left out; the model keeps the stage list.
- Loading JSON templates, logging, `print`, and the `sys.exit` and
  catch-and-log paths are not modelled. When `get_polygon_edges` fails, it
  logs and leaves attributes unset. In the model, the texts are always
  computed.
- The re-projected copy `self.geo_df` (usgs/data_fetcher.py:57-58) is left
  out: usgs/data_fetcher.py assigns it and never reads it.
- Building a GeoDataFrame and `set_crs` are not modelled. A table is plain
  columns plus a CRS tag, and the validity of the CRS code is not checked.
  Pandas' length check between the elevation and geometry columns is left
  out: columns of one engine array have equal lengths (`WellFormed`).
- Plotting (`scatter_plot`, `terrain_map`), demonstrate.py, src/fetch.py,
  setup.py and the `__main__` blocks are not modelled.
- Some broken call chains are not followed:
  - `package/fetch_data.py:128` calls `get_pipeline()` with no arguments.
  - `usgs/fetch_data.py:55` uses an undefined global `polygon`.
  - `usgs/fetch_data.py:80` returns an unset `self.pipeline`.
  - `usgs/fetch_data.py:92` uses an unset `self.output_epsg`.

  The model takes these inputs as parameters instead:
  - `UsgsFetchData.FetchData.GetPipeline` takes the two texts.
  - `make_geo_df` of usgs/fetch_data.py is `Materialize.ColumnsToFrame`, with
    the output CRS as a parameter.
  - The `execute_pipeline` wrappers are left out.
- PackageFetchData.FetchData.MakeGeoDf: sets the cloud points once, after
  the row loop, rather than in every iteration. The final state is the same,
  including when a short row raises.
- PackageFetchData.FetchData.GetPipeline: takes the reprojected ring in place
  of the polygon and its code, and uses the text builder of
  `UsgsFetchData.FetchData.GetPolygonMargin`. package/fetch_data.py:61-77 is
  the same code as usgs/fetch_data.py:28-45.
- The mutable default argument `tif_values=["all"]` of
  `construct_pipeline_template_1`, which is shared across calls, is not
  modelled. Each call gets its own value.
