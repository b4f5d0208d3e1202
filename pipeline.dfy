/**
 * Pipeline descriptions handed to the external point-cloud engine, and the two
 * ways the code binds request values into a stage template:
 *  - role-keyed: look each fragment up by role name in a template dictionary,
 *    overwrite some of its fields and append it to the stage list;
 *  - positional: overwrite `pipeline[i][field]` in a loaded stage list.
 */
module Pipeline {
  import opened Wrappers

  /** A JSON value as the template file and the engine see it. */
  datatype Json =
    | JNull
    | JBool(b: bool)
    | JInt(i: int)
    | JReal(r: real)
    | JString(s: string)
    | JArray(items: seq<Json>)
    | JObject(fields: map<string, Json>)

  /** One stage of a pipeline: parameter name to value. */
  type Stage = map<string, Json>

  /** The public point-cloud archive every variant reads from. */
  const PublicDataUrl := "https://s3-us-west-2.amazonaws.com/usgs-lidar-public/"

  /** The archive's index file under a region folder. */
  const EptIndex := "/ept.json"

  /** The reader's `filename`: base address, region identifier, index file. */
  function EptPath(base: string, region: string): string
  {
    base + region + EptIndex
  }

  /** The region can be read back from an archive path built for it. */
  lemma EptPathParts(base: string, region: string)
    ensures var p := EptPath(base, region);
      && p[..|base|] == base
      && p[|p| - |EptIndex|..] == EptIndex
      && p[|base|..|p| - |EptIndex|] == region
  {
  }

  /** The reprojection stage's `out_srs` built as `f"EPSG:{epsg}"`. */
  function OutSrs(epsg: string): string
  {
    "EPSG:" + epsg
  }

  // ---------------------------------------------------------------------------
  // Role-keyed binding

  /** Look up `role`, overwrite the fields of `overrides`, append the fragment. */
  datatype Step = Step(role: string, overrides: Stage)

  /**
   * The template after the lookups (fragments are updated in place, so the
   * template sees every overwrite), the stages appended so far, and the first
   * role whose lookup failed, if any.
   */
  datatype Assembly = Assembly(template: map<string, Stage>, stages: seq<Stage>, missing: Option<string>)

  /**
   * Runs the steps in order from `template` and the already appended `stages`;
   * stops at the first missing role, which is one the template lacks.
   */
  function Assemble(template: map<string, Stage>, stages: seq<Stage>, steps: seq<Step>): (a: Assembly)
    decreases |steps|
    ensures a.missing.Some? ==> a.missing.value !in template
  {
    if |steps| == 0 then Assembly(template, stages, None)
    else if steps[0].role !in template then Assembly(template, stages, Some(steps[0].role))
    else
      var bound := template[steps[0].role] + steps[0].overrides;
      Assemble(template[steps[0].role := bound], stages + [bound], steps[1..])
  }

  /** A lookup with no overrides appends the fragment as the template has it. */
  lemma NoOverrides(fragment: Stage)
    ensures fragment + map[] == fragment
  {
  }

  /** The roles looked up, in lookup order. */
  function Roles(steps: seq<Step>): seq<string>
  {
    seq(|steps|, i requires 0 <= i < |steps| => steps[i].role)
  }

  function RoleSet(steps: seq<Step>): set<string>
  {
    set i | 0 <= i < |steps| :: steps[i].role
  }

  ghost predicate DistinctRoles(steps: seq<Step>)
  {
    forall i, j :: 0 <= i < j < |steps| ==> steps[i].role != steps[j].role
  }

  /**
   * When role `j` is the first absent one, the fold stops there: its template
   * and stages are those of the lookups before `j`, and `j`'s role is reported.
   */
  lemma {:induction false} AssembleStopsAtPrefix(t: map<string, Stage>, acc: seq<Stage>, steps: seq<Step>, j: nat)
    decreases j
    requires j < |steps| && steps[j].role !in t
    requires forall i :: 0 <= i < j ==> steps[i].role in t
    ensures var p := Assemble(t, acc, steps[..j]);
      Assemble(t, acc, steps) == Assembly(p.template, p.stages, Some(steps[j].role))
  {
    if j == 0 {
      assert steps[..0] == [];
    } else {
      var bound := t[steps[0].role] + steps[0].overrides;
      var t' := t[steps[0].role := bound];
      var rest := steps[1..];
      assert forall i :: 0 <= i < |rest| ==> rest[i] == steps[i + 1];
      AssembleStopsAtPrefix(t', acc + [bound], rest, j - 1);
      assert steps[..j][0] == steps[0];
      assert steps[..j][1..] == rest[..j - 1];
    }
  }

  /**
   * A lookup fails exactly when some role is absent from the template; the
   * reported role is the first absent one, and the template and stage list
   * are left as the lookups before it made them.
   */
  lemma {:induction false} AssembleMissing(t: map<string, Stage>, acc: seq<Stage>, steps: seq<Step>)
    decreases |steps|
    ensures var a := Assemble(t, acc, steps);
      && a.template.Keys == t.Keys
      && (a.missing.Some? <==> exists i :: 0 <= i < |steps| && steps[i].role !in t)
      && (a.missing.Some? ==>
            exists j :: (0 <= j < |steps| && steps[j].role !in t
                         && a.missing.value == steps[j].role
                         && (forall i :: 0 <= i < j ==> steps[i].role in t)
                         && |a.stages| == |acc| + j
                         && var p := Assemble(t, acc, steps[..j]);
                            a == Assembly(p.template, p.stages, Some(steps[j].role))))
      && (a.missing.None? ==> |a.stages| == |acc| + |steps|)
  {
    if |steps| > 0 && steps[0].role !in t {
      AssembleStopsAtPrefix(t, acc, steps, 0);
    } else if |steps| > 0 {
      var bound := t[steps[0].role] + steps[0].overrides;
      var t' := t[steps[0].role := bound];
      var rest := steps[1..];
      AssembleMissing(t', acc + [bound], rest);
      assert forall i :: 0 <= i < |rest| ==> rest[i] == steps[i + 1];
      var a := Assemble(t, acc, steps);
      if a.missing.Some? {
        var j :| 0 <= j < |rest| && rest[j].role !in t'
            && a.missing.value == rest[j].role
            && (forall i :: 0 <= i < j ==> rest[i].role in t')
            && |a.stages| == |acc| + 1 + j;
        assert steps[j + 1].role !in t;
        assert forall i :: 0 <= i < j + 1 ==> steps[i].role in t by {
          forall i | 0 <= i < j + 1 ensures steps[i].role in t {
            if i > 0 { assert rest[i - 1].role in t'; }
          }
        }
        AssembleStopsAtPrefix(t, acc, steps, j + 1);
      } else {
        forall i | 0 <= i < |steps| ensures steps[i].role in t {
          if i > 0 { assert rest[i - 1].role in t'; }
        }
      }
    }
  }

  /**
   * When every role is present and no role repeats, the result has one stage
   * per step in step order, stage i is the template's fragment for role i with
   * exactly the overrides of step i laid over it, the template holds the same
   * overwritten fragments, and every other fragment is untouched.
   */
  lemma {:induction false} AssembleAllPresent(t: map<string, Stage>, acc: seq<Stage>, steps: seq<Step>)
    decreases |steps|
    requires forall i :: 0 <= i < |steps| ==> steps[i].role in t
    requires DistinctRoles(steps)
    ensures var a := Assemble(t, acc, steps);
      && a.missing == None
      && |a.stages| == |acc| + |steps|
      && a.stages[..|acc|] == acc
      && (forall i :: 0 <= i < |steps| ==> a.stages[|acc| + i] == t[steps[i].role] + steps[i].overrides)
      && a.template.Keys == t.Keys
      && (forall i :: 0 <= i < |steps| ==> a.template[steps[i].role] == t[steps[i].role] + steps[i].overrides)
      && (forall r :: r in t && r !in RoleSet(steps) ==> a.template[r] == t[r])
  {
    if |steps| > 0 {
      var s := steps[0];
      var bound := t[s.role] + s.overrides;
      var t' := t[s.role := bound];
      var rest := steps[1..];
      assert forall i :: 0 <= i < |rest| ==> rest[i] == steps[i + 1];
      assert forall i :: 0 <= i < |rest| ==> rest[i].role != s.role;
      AssembleAllPresent(t', acc + [bound], rest);
      var a := Assemble(t, acc, steps);
      assert a == Assemble(t', acc + [bound], rest);
      assert a.stages[..|acc| + 1] == acc + [bound];
      assert a.stages[..|acc|] == (acc + [bound])[..|acc|];
      forall i | 0 <= i < |steps|
        ensures a.stages[|acc| + i] == t[steps[i].role] + steps[i].overrides
        ensures a.template[steps[i].role] == t[steps[i].role] + steps[i].overrides
      {
        if i == 0 {
          assert a.stages[|acc|] == (acc + [bound])[|acc|];
          assert s.role !in RoleSet(rest);
        } else {
          assert rest[i - 1] == steps[i];
          assert t'[steps[i].role] == t[steps[i].role];
        }
      }
      forall r | r in t && r !in RoleSet(steps) ensures a.template[r] == t[r] {
        assert r != s.role;
      }
    }
  }

  /**
   * The same from an empty stage list, read stage by stage: stage i is the
   * fragment of role i with the overrides of step i, and the template's entry
   * for role i is that very stage.
   */
  lemma AssembleFromEmpty(t: map<string, Stage>, steps: seq<Step>)
    requires forall i :: 0 <= i < |steps| ==> steps[i].role in t
    requires DistinctRoles(steps)
    ensures var a := Assemble(t, [], steps);
      && a.missing == None
      && |a.stages| == |steps|
      && (forall i :: 0 <= i < |steps| ==> a.stages[i] == t[steps[i].role] + steps[i].overrides)
      && a.template.Keys == t.Keys
      && (forall i :: 0 <= i < |steps| ==> a.template[steps[i].role] == a.stages[i])
      && (forall r :: r in t && r !in RoleSet(steps) ==> a.template[r] == t[r])
  {
    AssembleAllPresent(t, [], steps);
    var a := Assemble(t, [], steps);
    forall i | 0 <= i < |steps| ensures a.stages[i] == t[steps[i].role] + steps[i].overrides {
      var none: seq<Stage> := [];
      assert a.stages[|none| + i] == t[steps[i].role] + steps[i].overrides;
    }
  }

  /** Stage `k` of the list built from empty, on its own. */
  lemma AssembleStage(t: map<string, Stage>, steps: seq<Step>, k: nat)
    requires forall i :: 0 <= i < |steps| ==> steps[i].role in t
    requires DistinctRoles(steps)
    requires k < |steps|
    ensures var a := Assemble(t, [], steps);
      a.missing == None && |a.stages| == |steps| && a.stages[k] == t[steps[k].role] + steps[k].overrides
  {
    AssembleFromEmpty(t, steps);
  }

  // ---------------------------------------------------------------------------
  // Positional binding

  /** `pipeline[index][field] = value`. */
  datatype Write = Write(index: nat, field: string, value: Json)

  /** The stage list after the writes that ran, and the index whose write raised `IndexError`, if any. */
  datatype Patched = Patched(stages: seq<Stage>, failedAt: Option<nat>)

  /**
   * Performs the writes in order; stops at the first one whose index is out of
   * range. Writes never add or drop stages, and a reported index is past the end.
   */
  function Patch(stages: seq<Stage>, writes: seq<Write>): (p: Patched)
    decreases |writes|
    ensures |p.stages| == |stages|
    ensures p.failedAt.Some? ==> p.failedAt.value >= |stages|
  {
    if |writes| == 0 then Patched(stages, None)
    else
      var w := writes[0];
      if w.index < |stages| then Patch(stages[w.index := stages[w.index][w.field := w.value]], writes[1..])
      else Patched(stages, Some(w.index))
  }

  /** The value last written to field `k` of stage `i`, if any write targets it. */
  function LastWrite(writes: seq<Write>, i: nat, k: string): Option<Json>
    decreases |writes|
  {
    if |writes| == 0 then None
    else match LastWrite(writes[1..], i, k)
      case Some(v) => Some(v)
      case None => if writes[0].index == i && writes[0].field == k then Some(writes[0].value) else None
  }

  /**
   * Writes never add or drop stages; they fail exactly when some index is out
   * of range, and the reported index is the first such one.
   */
  lemma {:induction false} PatchFailure(s: seq<Stage>, ws: seq<Write>)
    decreases |ws|
    ensures var p := Patch(s, ws);
      && |p.stages| == |s|
      && (p.failedAt.Some? <==> exists j :: 0 <= j < |ws| && ws[j].index >= |s|)
      && (p.failedAt.Some? ==>
            exists j :: (0 <= j < |ws| && ws[j].index >= |s|
                         && p.failedAt.value == ws[j].index
                         && forall i :: 0 <= i < j ==> ws[i].index < |s|))
  {
    if |ws| > 0 && ws[0].index < |s| {
      var w := ws[0];
      var s' := s[w.index := s[w.index][w.field := w.value]];
      var rest := ws[1..];
      PatchFailure(s', rest);
      var p := Patch(s, ws);
      assert p == Patch(s', rest);
      if p.failedAt.Some? {
        var j :| 0 <= j < |rest| && rest[j].index >= |s'|
            && p.failedAt.value == rest[j].index
            && forall i :: 0 <= i < j ==> rest[i].index < |s'|;
        assert ws[j + 1] == rest[j];
        forall i | 0 <= i < j + 1 ensures ws[i].index < |s| {
          if i > 0 { assert ws[i] == rest[i - 1]; }
        }
      } else {
        forall j | 0 <= j < |ws| ensures ws[j].index < |s| {
          if j > 0 { assert ws[j] == rest[j - 1]; }
        }
      }
    }
  }

  /**
   * When every write succeeds, field `k` of stage `i` holds the value last
   * written to it, and every field no write targets keeps its old value (or
   * stays absent).
   */
  lemma {:induction false} PatchFields(s: seq<Stage>, ws: seq<Write>, i: nat, k: string)
    decreases |ws|
    requires forall j :: 0 <= j < |ws| ==> ws[j].index < |s|
    requires i < |s|
    ensures var p := Patch(s, ws);
      && p.failedAt == None
      && |p.stages| == |s|
      && (k in p.stages[i] <==> k in s[i] || LastWrite(ws, i, k).Some?)
      && (LastWrite(ws, i, k).Some? ==> p.stages[i][k] == LastWrite(ws, i, k).value)
      && (LastWrite(ws, i, k).None? && k in s[i] ==> p.stages[i][k] == s[i][k])
  {
    if |ws| > 0 {
      var w := ws[0];
      var s' := s[w.index := s[w.index][w.field := w.value]];
      var rest := ws[1..];
      assert forall j :: 0 <= j < |rest| ==> rest[j] == ws[j + 1];
      PatchFields(s', rest, i, k);
      assert Patch(s, ws) == Patch(s', rest);
    }
  }

  /** A stage no write targets comes out unchanged. */
  lemma {:induction false} PatchUntouched(s: seq<Stage>, ws: seq<Write>, i: nat)
    decreases |ws|
    requires i < |s|
    requires forall j :: 0 <= j < |ws| ==> ws[j].index != i
    ensures i < |Patch(s, ws).stages| && Patch(s, ws).stages[i] == s[i]
  {
    if |ws| > 0 && ws[0].index < |s| {
      var w := ws[0];
      var s' := s[w.index := s[w.index][w.field := w.value]];
      var rest := ws[1..];
      assert forall j :: 0 <= j < |rest| ==> rest[j] == ws[j + 1];
      PatchUntouched(s', rest, i);
    }
  }

  /** Write `k` of `ws` either runs and leaves the later writes to do, or is the one that raises. */
  lemma PatchStep(s: seq<Stage>, ws: seq<Write>, k: nat)
    requires k < |ws|
    ensures Patch(s, ws[k..])
         == if ws[k].index < |s| then Patch(s[ws[k].index := s[ws[k].index][ws[k].field := ws[k].value]], ws[k + 1..])
            else Patched(s, Some(ws[k].index))
  {
    assert ws[k..][0] == ws[k];
    assert ws[k..][1..] == ws[k + 1..];
  }

  /**
   * Write `k` of `ws` on the stage list in place. The last postcondition ties
   * it to `Patch`: after it, the writes from `k + 1` on finish the job.
   */
  method SetField(a: array<Stage>, ws: seq<Write>, k: nat) returns (ok: bool)
    requires k < |ws|
    modifies a
    ensures ok == (ws[k].index < a.Length)
    ensures ok ==> a[..] == old(a[..])[ws[k].index := old(a[ws[k].index])[ws[k].field := ws[k].value]]
    ensures !ok ==> a[..] == old(a[..])
    ensures Patch(old(a[..]), ws[k..]) == if ok then Patch(a[..], ws[k + 1..]) else Patched(a[..], Some(ws[k].index))
  {
    var w := ws[k];
    ok := w.index < a.Length;
    if ok {
      a[w.index] := a[w.index][w.field := w.value];
    }
    PatchStep(old(a[..]), ws, k);
  }
}
